/** `chunks` of src/wikitools/tools.py: the generator that splits a list into
    consecutive slices of a fixed size, used to cut reference lists into
    API-sized batches. */
module Tools {
  import opened Wrappers
  import opened JsonValues
  import opened Collections

  function Min(a: int, b: int): int {
    if a < b then a else b
  }

  /** `len(range(0, length, n))` for a positive step: how many slices there are. */
  function NumChunks(length: nat, n: nat): nat
    requires n > 0
  {
    (length + n - 1) / n
  }

  /** The k-th start `k * n` of the range lies inside the list exactly when k counts a slice. */
  lemma StartInside(length: nat, n: nat, k: nat)
    requires n > 0
    ensures k < NumChunks(length, n) <==> k * n < length
  {
    var q := NumChunks(length, n);
    var r := (length + n - 1) % n;
    assert length + n - 1 == q * n + r && 0 <= r < n;
    if k < q {
      assert (k + 1) * n <= q * n by {
        assert k + 1 <= q;
        MulMonotone(k + 1, q, n);
      }
      assert k * n + n <= q * n;
    } else {
      assert q * n <= k * n by {
        MulMonotone(q, k, n);
      }
    }
  }

  lemma MulMonotone(a: nat, b: nat, n: nat)
    requires a <= b
    ensures a * n <= b * n
  {
  }

  /** `list(chunks(l, n))`: for every start i in `range(0, len(l), n)` the slice `l[i:i+n]`,
      which Python cuts short at the end of the list. */
  function Chunks<T>(l: seq<T>, n: nat): seq<seq<T>>
    requires n > 0
  {
    seq(NumChunks(|l|, n), k requires 0 <= k < NumChunks(|l|, n) =>
      StartInside(|l|, n, k);
      l[k * n .. Min(k * n + n, |l|)])
  }

  /** The number of slices is the ceiling of len(l) / n: n times it covers the list, and one
      slice fewer would not. */
  lemma ChunkCountIsCeiling<T>(l: seq<T>, n: nat)
    requires n > 0
    ensures |Chunks(l, n)| * n >= |l|
    ensures |l| > 0 ==> (|Chunks(l, n)| - 1) * n < |l|
    ensures |l| == 0 <==> Chunks(l, n) == []
  {
    var c := |Chunks(l, n)|;
    StartInside(|l|, n, c);
    if c > 0 {
      StartInside(|l|, n, c - 1);
    }
  }

  /** Every slice holds between 1 and n items, and all but the last hold exactly n. */
  lemma ChunkSizes<T>(l: seq<T>, n: nat, k: nat)
    requires n > 0
    requires k < |Chunks(l, n)|
    ensures 1 <= |Chunks(l, n)[k]| <= n
    ensures k < |Chunks(l, n)| - 1 ==> |Chunks(l, n)[k]| == n
  {
    StartInside(|l|, n, k);
    StartInside(|l|, n, k + 1);
    assert (k + 1) * n == k * n + n;
  }

  /** Division is determined by any quotient and remainder that fit. */
  lemma DivIdent(a: int, n: nat, q: int, r: int)
    requires n > 0 && 0 <= r < n && a == q * n + r
    ensures a / n == q
  {
    var q', r' := a / n, a % n;
    assert a == q' * n + r' && 0 <= r' < n;
    if q' < q {
      MulMonotone(1, q - q', n);
    } else if q < q' {
      MulMonotone(1, q' - q, n);
    }
  }

  /** Adding one step to the length adds one slice. */
  lemma NumChunksStep(length: nat, n: nat)
    requires n > 0
    ensures NumChunks(length + n, n) == NumChunks(length, n) + 1
  {
    var a := length + n - 1;
    var q, r := a / n, a % n;
    assert a == q * n + r && 0 <= r < n;
    assert a + n == (q + 1) * n + r;
    DivIdent(a + n, n, q + 1, r);
  }

  /** The k-th slice starts at k * n. */
  lemma ChunkAt<T>(l: seq<T>, n: nat, k: nat)
    requires n > 0
    requires k < NumChunks(|l|, n)
    ensures |Chunks(l, n)| == NumChunks(|l|, n)
    ensures k * n < |l|
    ensures Chunks(l, n)[k] == l[k * n .. Min(k * n + n, |l|)]
  {
    StartInside(|l|, n, k);
  }

  /** The first slice is the first n items, and the rest are the slices of what follows. */
  lemma ChunksUnfold<T>(l: seq<T>, n: nat)
    requires n > 0
    requires |l| > 0
    ensures Chunks(l, n) == [l[..Min(n, |l|)]] + Chunks(l[Min(n, |l|)..], n)
  {
    if |l| <= n {
      ShortListOneChunk(l, n);
    } else {
      LongListUnfold(l, n);
    }
  }

  lemma ShortListOneChunk<T>(l: seq<T>, n: nat)
    requires 0 < |l| <= n
    ensures Chunks(l, n) == [l]
    ensures Chunks(l[|l|..], n) == []
  {
    StartInside(|l|, n, 1);
    StartInside(|l|, n, 0);
    ChunkAt(l, n, 0);
    assert 0 * n == 0;
    assert Chunks(l, n)[0] == l[0..|l|] == l;
    StartInside(0, n, 0);
    assert |Chunks(l[|l|..], n)| == 0;
  }

  lemma LongListUnfold<T>(l: seq<T>, n: nat)
    requires n > 0
    requires |l| > n
    ensures Chunks(l, n) == [l[..n]] + Chunks(l[n..], n)
  {
    var rest := l[n..];
    var c := Chunks(l, n);
    var d := Chunks(rest, n);
    NumChunksStep(|rest|, n);
    assert |c| == |d| + 1;
    forall k | 0 <= k < |d|
      ensures c[k + 1] == d[k]
    {
      LaterChunk(l, n, k);
    }
    ChunkAt(l, n, 0);
    assert c[0] == l[..n];
    assert c == [l[..n]] + d;
  }

  /** Slice k + 1 of the list is slice k of what follows the first n items. */
  lemma LaterChunk<T>(l: seq<T>, n: nat, k: nat)
    requires n > 0
    requires |l| > n
    requires k < NumChunks(|l| - n, n)
    ensures k + 1 < NumChunks(|l|, n)
    ensures Chunks(l, n)[k + 1] == Chunks(l[n..], n)[k]
  {
    var rest := l[n..];
    NumChunksStep(|rest|, n);
    ChunkAt(rest, n, k);
    ChunkAt(l, n, k + 1);
    var a := k * n;
    MulSucc(k, n);
    var b := Min(a + n, |rest|);
    assert (k + 1) * n == n + a;
    assert Min((k + 1) * n + n, |l|) == n + b;
    assert Chunks(l, n)[k + 1] == l[n + a .. n + b];
    assert Chunks(rest, n)[k] == rest[a..b];
    assert forall i :: 0 <= i < b - a ==> rest[a..b][i] == l[n + a + i];
    assert rest[a..b] == l[n + a .. n + b];
  }

  lemma MulSucc(k: nat, n: nat)
    ensures (k + 1) * n == k * n + n
  {
  }

  /** Concatenating the slices gives back the list exactly. */
  lemma {:induction false} ChunksConcat<T>(l: seq<T>, n: nat)
    requires n > 0
    ensures Flatten(Chunks(l, n)) == l
    decreases |l|
  {
    if |l| == 0 {
      ChunkCountIsCeiling(l, n);
    } else {
      var m := Min(n, |l|);
      ChunksUnfold(l, n);
      ChunksConcat(l[m..], n);
      assert Flatten(Chunks(l, n)) == l[..m] + Flatten(Chunks(l[m..], n));
      assert l[..m] + l[m..] == l;
    }
  }

  /** `chunks(l, n)` for any int step, as `range` treats it: a zero step raises
      ValueError and a negative one yields nothing. */
  function ChunksChecked<T>(l: seq<T>, n: int): (r: Result<seq<seq<T>>>)
    ensures r.Err? <==> n == 0
    ensures n < 0 ==> r == Ok([])
    ensures n > 0 ==> r.Ok? && Flatten(r.value) == l
  {
    if n == 0 then Err(ValueError(Str("range() arg 3 must not be zero")))
    else if n < 0 then Ok([])
    else
      ChunksConcat(l, n);
      Ok(Chunks(l, n))
  }

  /** One slice more: the slices so far are followed by the one at the next start. */
  lemma ChunksStep<T>(l: seq<T>, n: nat, m: nat)
    requires n > 0
    requires m < NumChunks(|l|, n)
    ensures m * n < |l| && (m + 1) * n == m * n + n
    ensures Chunks(l, n)[..m + 1] == Chunks(l, n)[..m] + [l[m * n .. Min(m * n + n, |l|)]]
    ensures m + 1 < NumChunks(|l|, n) <==> m * n + n < |l|
  {
    ChunkAt(l, n, m);
    MulSucc(m, n);
    StartInside(|l|, n, m + 1);
  }

  /** `list(chunks(l, n))`: drives the generator's loop and collects what it yields. */
  method CollectChunks<T>(l: seq<T>, n: nat) returns (out: seq<seq<T>>)
    requires n > 0
    ensures out == Chunks(l, n)
    ensures Flatten(out) == l
  {
    out := [];
    var i := 0;
    StartInside(|l|, n, 0);
    while i < |l|
      invariant i == |out| * n
      invariant |out| <= NumChunks(|l|, n)
      invariant out == Chunks(l, n)[..|out|]
      invariant i < |l| <==> |out| < NumChunks(|l|, n)
      decreases |l| - i
    {
      ChunksStep(l, n, |out|);
      out := out + [l[i .. Min(i + n, |l|)]];
      i := i + n;
    }
    assert out == Chunks(l, n);
    ChunksConcat(l, n);
  }
}
