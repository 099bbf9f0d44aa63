/** `chunks` of src/wikitools/wikitools.py, the older copy of the batching generator.
    Modelled here by its other natural reading (yield the first n items, then carry on
    from item n), so that its agreement with the copy in Tools is a theorem rather
    than a shared definition. */
module Wikitools {
  import opened Collections
  import Tools

  /** Each step yields `l[i:i+n]` and moves the start on by n until it passes the end. */
  function Chunks<T>(l: seq<T>, n: nat): seq<seq<T>>
    requires n > 0
    decreases |l|
  {
    if |l| == 0 then []
    else if |l| <= n then [l]
    else [l[..n]] + Chunks(l[n..], n)
  }

  /** The two copies yield the same slices for every list and every positive size. */
  lemma {:induction false} SameAsTools<T>(l: seq<T>, n: nat)
    requires n > 0
    ensures Chunks(l, n) == Tools.Chunks(l, n)
    decreases |l|
  {
    if |l| == 0 {
      Tools.ChunkCountIsCeiling(l, n);
    } else if |l| <= n {
      Tools.ShortListOneChunk(l, n);
    } else {
      Tools.LongListUnfold(l, n);
      SameAsTools(l[n..], n);
    }
  }

  /** Concatenating the slices reconstructs the list. */
  lemma {:induction false} ChunksConcat<T>(l: seq<T>, n: nat)
    requires n > 0
    ensures Flatten(Chunks(l, n)) == l
    decreases |l|
  {
    if |l| == 0 {
    } else if |l| <= n {
      assert Flatten([l]) == l + Flatten([l][1..]);
    } else {
      ChunksConcat(l[n..], n);
      assert ([l[..n]] + Chunks(l[n..], n))[1..] == Chunks(l[n..], n);
      assert l[..n] + l[n..] == l;
    }
  }

  /** Every slice has between 1 and n items and all but the last have exactly n; there are
      ceil(len(l) / n) of them. */
  lemma {:induction false} ChunkShape<T>(l: seq<T>, n: nat)
    requires n > 0
    ensures |Chunks(l, n)| == Tools.NumChunks(|l|, n)
    ensures forall k :: 0 <= k < |Chunks(l, n)| ==> 1 <= |Chunks(l, n)[k]| <= n
    ensures forall k :: 0 <= k < |Chunks(l, n)| - 1 ==> |Chunks(l, n)[k]| == n
    decreases |l|
  {
    if |l| == 0 {
      Tools.ChunkCountIsCeiling(l, n);
    } else if |l| <= n {
      Tools.ShortListOneChunk(l, n);
      Tools.ChunkCountIsCeiling(l, n);
    } else {
      ChunkShape(l[n..], n);
      Tools.NumChunksStep(|l| - n, n);
    }
  }
}
