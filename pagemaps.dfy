/** Class `page_maps` of src/wikitools/redirects.py: the seven dictionaries that
    canonicalise article references (title normalisation, title and page-id redirects,
    title to page-id, collected redirect lists), and the two methods that fill them
    from fetched API pages. The pages each query would return are arguments. */
module RedirectMaps {
  import opened Wrappers
  import opened JsonValues
  import opened Collections
  import opened Redirects
  import Api
  import opened Ints

  type JMap = map<Json, Json>
  type ListMap = map<Json, seq<Json>>

  /** The tuple `return_maps` gives and `load_maps` takes back, in its order. */
  datatype Saved = Saved(titlesRedirectMap: JMap, pageidsRedirectMap: JMap, normMap: JMap,
                         idMap: JMap, collectedTitleRedirects: ListMap, collectedPageidRedirects: ListMap)

  /** How a call ended: it returned early with nothing to fetch, it made its updates, or
      it raised (after whatever updates came before the raise). */
  datatype Outcome = NothingToFetch | Updated | Raised(error: Error)

  // ---------------------------------------------------------------------------
  // Filtering the references before a query

  /** `m.get(k, k)`. */
  function Get(m: JMap, k: Json): Json {
    if k in m then m[k] else k
  }

  /** A title as it will be queried: normalised, then through a known redirect. */
  function Canonical(normMap: JMap, redirectMap: JMap, t: Json): Json {
    Get(redirectMap, Get(normMap, t))
  }

  /** The titles still to fetch: canonical, truthy, each once in order of first
      occurrence, and not already known. */
  function PendingTitles(titles: seq<Json>, normMap: JMap, redirectMap: JMap, known: set<Json>): (r: seq<Json>)
    ensures NoDups(r)
    ensures forall x :: x in r <==>
      Truthy(x) && x !in known && exists i :: 0 <= i < |titles| && Canonical(normMap, redirectMap, titles[i]) == x
  {
    var mapped := seq(|titles|, i requires 0 <= i < |titles| => Canonical(normMap, redirectMap, titles[i]));
    assert forall x :: x in mapped <==> exists i :: 0 <= i < |titles| && Canonical(normMap, redirectMap, titles[i]) == x by {
      forall x | x in mapped
        ensures exists i :: 0 <= i < |titles| && Canonical(normMap, redirectMap, titles[i]) == x
      {
        var i :| 0 <= i < |mapped| && mapped[i] == x;
      }
      forall x | exists i :: 0 <= i < |titles| && Canonical(normMap, redirectMap, titles[i]) == x
        ensures x in mapped
      {
        var i :| 0 <= i < |titles| && Canonical(normMap, redirectMap, titles[i]) == x;
        assert mapped[i] == x;
      }
    }
    var distinct := Dedupe(Filter(mapped, Truthy));
    FilterNoDups(distinct, x => x !in known);
    Filter(distinct, x => x !in known)
  }

  /** `[int(a) for a in xs]`, raising at the first value `int` rejects. */
  function AsInts(xs: seq<Json>): (r: Result<seq<int>>)
    ensures r.Ok? <==> forall i :: 0 <= i < |xs| ==> IntOf(xs[i]).Ok?
    ensures r.Err? ==> r.error.ValueError? || r.error.TypeError?
    ensures r.Ok? ==> |r.value| == |xs| && forall i :: 0 <= i < |xs| ==> r.value[i] == IntOf(xs[i]).value
  {
    if xs == [] then Ok([])
    else
      var first :- IntOf(xs[0]);
      var rest :- AsInts(xs[1..]);
      assert forall i :: 1 <= i < |xs| ==> xs[i] == xs[1..][i - 1];
      Ok([first] + rest)
  }

  /** `[m.get(x, x) for x in ints]`. */
  function RedirectedIds(ints: seq<int>, m: JMap): (r: seq<Json>)
    ensures forall x :: x in r <==> exists i :: 0 <= i < |ints| && Get(m, Int(ints[i])) == x
  {
    var r := seq(|ints|, i requires 0 <= i < |ints| => Get(m, Int(ints[i])));
    assert forall i :: 0 <= i < |ints| ==> r[i] == Get(m, Int(ints[i]));
    r
  }

  /** The page ids still to fetch: through a known page-id redirect, not None, each
      once, and not already known. */
  function PendingIds(pageids: seq<Json>, pageidsRedirectMap: JMap, known: set<Json>): (r: Result<seq<Json>>)
    ensures r.Ok? <==> AsInts(pageids).Ok?
    ensures r.Err? ==> r.error.ValueError? || r.error.TypeError?
    ensures r.Ok? ==> NoDups(r.value)
    ensures r.Ok? ==> forall x :: x in r.value <==>
      x != Null && x !in known && x in RedirectedIds(AsInts(pageids).value, pageidsRedirectMap)
  {
    var ints := AsInts(pageids);
    if ints.Err? then Err(ints.error)
    else
      var distinct := Dedupe(Filter(RedirectedIds(ints.value, pageidsRedirectMap), x => x != Null));
      FilterNoDups(distinct, x => x !in known);
      Ok(Filter(distinct, x => x !in known))
  }

  /** The references handed to `querylister` after the filter at the head of
      `fix_redirects` and `get_redirects`, or None when the method returns early because
      nothing is left. Only a non-empty titles list is filtered; otherwise a non-empty
      page-id list is; otherwise the arguments pass through as given. */
  function Requested(titles: Option<seq<Json>>, pageids: Option<seq<Json>>,
                     normMap: JMap, titlesRedirectMap: JMap, pageidsRedirectMap: JMap,
                     knownTitles: set<Json>, knownIds: set<Json>): (r: Result<Option<(Option<seq<Json>>, Option<seq<Json>>)>>)
    ensures titles.Some? && titles.value != [] ==>
      var t := PendingTitles(titles.value, normMap, titlesRedirectMap, knownTitles);
      r == Ok(if t == [] then None else Some((Some(t), pageids)))
    ensures (titles.None? || titles.value == []) && pageids.Some? && pageids.value != [] ==>
      var p := PendingIds(pageids.value, pageidsRedirectMap, knownIds);
      r == if p.Err? then Err(p.error) else Ok(if p.value == [] then None else Some((titles, Some(p.value))))
    ensures (titles.None? || titles.value == []) && (pageids.None? || pageids.value == []) ==>
      r == Ok(Some((titles, pageids)))
    ensures r.Err? ==> r.error.ValueError? || r.error.TypeError?
  {
    if titles.Some? && titles.value != [] then
      var t := PendingTitles(titles.value, normMap, titlesRedirectMap, knownTitles);
      Ok(if t == [] then None else Some((Some(t), pageids)))
    else if pageids.Some? && pageids.value != [] then
      var p :- PendingIds(pageids.value, pageidsRedirectMap, knownIds);
      Ok(if p == [] then None else Some((titles, Some(p))))
    else
      Ok(Some((titles, pageids)))
  }

  // ---------------------------------------------------------------------------
  // Relabelling title maps with page ids

  /** `ids[x]`, or None for None when `noneSafe` (the `if k is not None else None` guard). */
  function Lookup(ids: JMap, x: Json, noneSafe: bool): (r: Result<Json>)
    ensures r.Ok? <==> (noneSafe && x == Null) || x in ids
    ensures r.Err? ==> r.error == KeyError(x)
  {
    if noneSafe && x == Null then Ok(Null)
    else if x in ids then Ok(ids[x])
    else Err(KeyError(x))
  }

  /** `{ids[k]: ids[src[k]] for k in order}` evaluated in order: the first key or value
      without an id raises KeyError. */
  function RelabelPairs(order: seq<Json>, src: JMap, ids: JMap, noneSafe: bool): (r: Result<seq<(Json, Json)>>)
    requires forall k :: k in order ==> k in src
    ensures r.Ok? <==> forall k :: k in order ==> Lookup(ids, k, noneSafe).Ok? && Lookup(ids, src[k], noneSafe).Ok?
    ensures r.Ok? ==> |r.value| == |order| && forall i :: 0 <= i < |order| ==>
      r.value[i] == (Lookup(ids, order[i], noneSafe).value, Lookup(ids, src[order[i]], noneSafe).value)
    ensures r.Err? ==> r.error.KeyError? && r.error.key !in ids
  {
    if order == [] then Ok([])
    else
      var a :- Lookup(ids, order[0], noneSafe);
      var b :- Lookup(ids, src[order[0]], noneSafe);
      var rest :- RelabelPairs(order[1..], src, ids, noneSafe);
      assert forall i :: 1 <= i < |order| ==> order[i] == order[1..][i - 1];
      assert forall k :: k in order ==> k == order[0] || k in order[1..];
      Ok([(a, b)] + rest)
  }

  /** Every element of `xs` has an id. */
  predicate AllKnown(ids: JMap, xs: seq<Json>) {
    forall x :: x in xs ==> x in ids
  }

  /** `[ids[x] for x in xs]`. */
  function LookupAll(ids: JMap, xs: seq<Json>): (r: Result<seq<Json>>)
    ensures r.Ok? <==> AllKnown(ids, xs)
    ensures r.Ok? ==> |r.value| == |xs| && forall i :: 0 <= i < |xs| ==> r.value[i] == ids[xs[i]]
    ensures r.Err? ==> r.error.KeyError? && r.error.key !in ids
  {
    if xs == [] then Ok([])
    else
      var a :- Lookup(ids, xs[0], false);
      var rest :- LookupAll(ids, xs[1..]);
      assert forall i :: 1 <= i < |xs| ==> xs[i] == xs[1..][i - 1];
      assert forall x :: x in xs ==> x == xs[0] || x in xs[1..];
      Ok([a] + rest)
  }

  /** `{ids[k]: [ids[x] for x in f[k]] for k in order}` evaluated in order. */
  function RelabelLists(order: seq<Json>, f: ListMap, ids: JMap): (r: Result<seq<(Json, seq<Json>)>>)
    requires forall k :: k in order ==> k in f
    ensures r.Ok? <==> forall k :: k in order ==> k in ids && AllKnown(ids, f[k])
    ensures r.Ok? ==> |r.value| == |order| && forall i :: 0 <= i < |order| ==>
      r.value[i] == (ids[order[i]], LookupAll(ids, f[order[i]]).value)
    ensures r.Err? ==> r.error.KeyError? && r.error.key !in ids
  {
    if order == [] then Ok([])
    else
      var a :- Lookup(ids, order[0], false);
      var vs :- LookupAll(ids, f[order[0]]);
      var rest :- RelabelLists(order[1..], f, ids);
      assert forall i :: 1 <= i < |order| ==> order[i] == order[1..][i - 1];
      assert forall k :: k in order ==> k == order[0] || k in order[1..];
      Ok([(a, vs)] + rest)
  }

  /** The id `Lookup` finds for `x`, or None when it finds none. */
  function IdOf(ids: JMap, x: Json, noneSafe: bool): (r: Json)
    ensures Lookup(ids, x, noneSafe).Ok? ==> r == Lookup(ids, x, noneSafe).value
  {
    var l := Lookup(ids, x, noneSafe);
    if l.Ok? then l.value else Null
  }

  /** `[ids[x] for x in xs]` where every lookup succeeds. */
  function IdsOf(ids: JMap, xs: seq<Json>): (r: seq<Json>)
    ensures |r| == |xs| && forall i :: 0 <= i < |xs| ==> r[i] == IdOf(ids, xs[i], false)
  {
    seq(|xs|, i requires 0 <= i < |xs| => IdOf(ids, xs[i], false))
  }

  /** `order[j]` is the last key in `order` whose id is its id (ids can collide, at -1
      for instance), so its entry is the one a relabelled dict keeps. */
  predicate LastWithId(order: seq<Json>, ids: JMap, noneSafe: bool, j: nat) {
    j < |order| && forall j' :: j < j' < |order| ==> IdOf(ids, order[j'], noneSafe) != IdOf(ids, order[j], noneSafe)
  }

  /** In the relabelled dict, the id of key `order[j]` maps to the id of its value when
      no later key has the same id. */
  lemma RelabelledLast(order: seq<Json>, src: JMap, ids: JMap, noneSafe: bool, pairs: seq<(Json, Json)>, j: nat)
    requires forall k :: k in order ==> k in src
    requires RelabelPairs(order, src, ids, noneSafe) == Ok(pairs)
    requires LastWithId(order, ids, noneSafe, j)
    ensures IdOf(ids, order[j], noneSafe) in FromPairs(pairs)
    ensures FromPairs(pairs)[IdOf(ids, order[j], noneSafe)] == IdOf(ids, src[order[j]], noneSafe)
  {
    forall i | 0 <= i < |order|
      ensures pairs[i] == (IdOf(ids, order[i], noneSafe), IdOf(ids, src[order[i]], noneSafe))
    {
      assert order[i] in order;
    }
    FromPairsLast(pairs, j);
  }

  /** In the relabelled list dict, the id of key `order[j]` maps to the ids of its list
      when no later key has the same id. */
  lemma RelabelledListLast(order: seq<Json>, f: ListMap, ids: JMap, pairs: seq<(Json, seq<Json>)>, j: nat)
    requires forall k :: k in order ==> k in f
    requires RelabelLists(order, f, ids) == Ok(pairs)
    requires LastWithId(order, ids, false, j)
    ensures IdOf(ids, order[j], false) in FromPairs(pairs)
    ensures FromPairs(pairs)[IdOf(ids, order[j], false)] == IdsOf(ids, f[order[j]])
  {
    forall i | 0 <= i < |order|
      ensures pairs[i] == (IdOf(ids, order[i], false), IdsOf(ids, f[order[i]]))
    {
      assert order[i] in order;
      assert LookupAll(ids, f[order[i]]).value == IdsOf(ids, f[order[i]]);
    }
    FromPairsLast(pairs, j);
  }

  // ---------------------------------------------------------------------------
  // What the fetched pages contribute

  /** The ids `fix_redirects` adds for the redirect keys it had no id for: those the
      follow-up query found, and -1 for the rest. */
  function MissingIds(redirects: JMap, knownIds: JMap, followUp: seq<Json>): (u: JMap)
    ensures forall k :: k in redirects && k !in knownIds ==> k in u
    ensures forall k :: k in u && k !in FromPairs(Collect(followUp, IdPairs)) ==> u[k] == Int(-1)
  {
    var found := FromPairs(Collect(followUp, IdPairs));
    found + map x | x in redirects.Keys && x !in knownIds && x !in found :: Int(-1)
  }

  /** `{key: val for d in results for key, val in d[0].items()}` over the per-query
      `parse_fetched_redirects` results: a later query's list replaces an earlier one. */
  function MergedFetched(batches: seq<seq<Json>>): (f: ListMap)
    ensures f.Keys == set k | k in Collect(batches, FoundTitles)
    ensures forall k :: k in f ==> f[k] != [] && f[k][0] == k
  {
    if batches == [] then map[]
    else
      var init := batches[..|batches| - 1];
      CollectSnoc(init, batches[|batches| - 1], FoundTitles);
      assert batches == init + [batches[|batches| - 1]];
      MergedFetched(init) + FetchedMap(batches[|batches| - 1])
  }

  /** The merged dict's keys in iteration order: first insertion wins the position. */
  function FetchedOrder(batches: seq<seq<Json>>): (ks: seq<Json>)
    ensures NoDups(ks)
    ensures forall k :: k in ks <==> k in MergedFetched(batches)
  {
    Dedupe(Collect(batches, FoundTitles))
  }

  function BatchAliasIdPairs(batch: seq<Json>): seq<(Json, Json)> {
    Collect(batch, AliasIdPairs)
  }

  // ---------------------------------------------------------------------------
  // The two methods as functions of the maps

  /** The seven maps a `page_maps` instance holds. */
  datatype State = State(titlesRedirectMap: JMap, pageidsRedirectMap: JMap, normMap: JMap, idMap: JMap,
                         revidMap: JMap, collectedTitleRedirects: ListMap, collectedPageidRedirects: ListMap)

  /** Merging entries into a dict keeps its keys. */
  lemma KeysGrow<V>(m: map<Json, V>, n: map<Json, V>)
    ensures m.Keys <= (m + n).Keys
  {
  }

  /** Every map of `t` has at least the keys it had in `s`: the methods only add entries. */
  predicate Grown(s: State, t: State) {
    && s.titlesRedirectMap.Keys <= t.titlesRedirectMap.Keys
    && s.pageidsRedirectMap.Keys <= t.pageidsRedirectMap.Keys
    && s.normMap.Keys <= t.normMap.Keys
    && s.idMap.Keys <= t.idMap.Keys
    && s.revidMap == t.revidMap
    && s.collectedTitleRedirects.Keys <= t.collectedTitleRedirects.Keys
    && s.collectedPageidRedirects.Keys <= t.collectedPageidRedirects.Keys
  }

  /** The redirect map of the fetched `fix_redirects` portions. */
  function FixedRedirects(fetched: seq<Json>): JMap {
    FromPairs(Collect(fetched, RedirectPairs))
  }

  /** The id map after `fix_redirects`: the ids of the fetched pages, then the ids for the
      redirect keys that had none. Every redirect key has an id in it; one that neither
      the old map, the fetched pages nor the follow-up query gave an id gets -1. */
  function FixedIds(ids: JMap, fetched: seq<Json>, followUp: seq<Json>): (r: JMap)
    ensures forall k :: k in FixedRedirects(fetched) ==> k in r
    ensures forall k :: k in ids ==> k in r
    ensures forall k :: (k in FixedRedirects(fetched) && k !in ids && k !in FromPairs(Collect(fetched, IdPairs))
                         && k !in FromPairs(Collect(followUp, IdPairs))) ==> r[k] == Int(-1)
  {
    ids + FromPairs(Collect(fetched, IdPairs)) + MissingIds(FixedRedirects(fetched), ids, followUp)
  }

  /** The redirect keys in the order `fix_redirects` iterates over them. */
  function FixedOrder(fetched: seq<Json>): (ks: seq<Json>)
    ensures forall k :: k in ks <==> k in FixedRedirects(fetched)
  {
    KeyOrder(Collect(fetched, RedirectPairs));
    Dedupe(Firsts(Collect(fetched, RedirectPairs)))
  }

  /** `fix_redirects`' dict comprehension over the fetched redirects, relabelled by `ids`. */
  function FixRelabelled(fetched: seq<Json>, ids: JMap): (r: Result<seq<(Json, Json)>>)
    ensures r.Err? ==> r.error.KeyError? && r.error.key !in ids
  {
    RelabelPairs(FixedOrder(fetched), FixedRedirects(fetched), ids, true)
  }

  /** The part of `fix_redirects` after its queries: the title redirect, normalisation and
      id maps take the fetched entries, and the page-id redirect map gains every redirect
      relabelled by id, unless that raises KeyError (after the other updates). */
  function RecordRedirects(s: State, fetched: seq<Json>, followUp: seq<Json>): (r: (State, Outcome))
    ensures r.0.titlesRedirectMap == s.titlesRedirectMap + FixedRedirects(fetched)
    ensures r.0.normMap == s.normMap + FromPairs(Collect(fetched, NormPairs))
    ensures r.0.idMap == FixedIds(s.idMap, fetched, followUp)
    ensures var rel := FixRelabelled(fetched, r.0.idMap);
      && (rel.Ok? ==> r.1 == Updated && r.0.pageidsRedirectMap == s.pageidsRedirectMap + FromPairs(rel.value))
      && (rel.Err? ==> r.1 == Raised(rel.error) && r.0.pageidsRedirectMap == s.pageidsRedirectMap)
    ensures r.0.revidMap == s.revidMap && r.0.collectedTitleRedirects == s.collectedTitleRedirects
    ensures r.0.collectedPageidRedirects == s.collectedPageidRedirects
    ensures r.1 == Updated || (r.1.Raised? && r.1.error.KeyError? && r.1.error.key !in r.0.idMap)
    ensures Grown(s, r.0)
  {
    var redirects := FixedRedirects(fetched);
    var ids := FixedIds(s.idMap, fetched, followUp);
    var relabelled := FixRelabelled(fetched, ids);
    var norms := FromPairs(Collect(fetched, NormPairs));
    KeysGrow(s.titlesRedirectMap, redirects);
    KeysGrow(s.normMap, norms);
    var t := s.(titlesRedirectMap := s.titlesRedirectMap + redirects, normMap := s.normMap + norms, idMap := ids);
    if relabelled.Err? then (t, Raised(relabelled.error))
    else
      KeysGrow(s.pageidsRedirectMap, FromPairs(relabelled.value));
      (t.(pageidsRedirectMap := s.pageidsRedirectMap + FromPairs(relabelled.value)), Updated)
  }

  /** `fix_redirects` raises KeyError exactly when some redirect target other than None has
      no id, and then leaves the page-id redirect map as it was. */
  lemma FixRaisesIff(s: State, fetched: seq<Json>, followUp: seq<Json>)
    ensures var r := RecordRedirects(s, fetched, followUp);
      var redirects := FixedRedirects(fetched);
      && (r.1 == Updated <==> forall k :: k in redirects && redirects[k] != Null ==> redirects[k] in r.0.idMap)
      && (r.1 != Updated ==> r.0.pageidsRedirectMap == s.pageidsRedirectMap)
  {
    var redirects := FixedRedirects(fetched);
    var ids := FixedIds(s.idMap, fetched, followUp);
    var order := FixedOrder(fetched);
    var relabelled := RelabelPairs(order, redirects, ids, true);
    var r := RecordRedirects(s, fetched, followUp);
    assert r.0.idMap == ids;
    assert r.1 == Updated <==> relabelled.Ok?;
    if relabelled.Ok? {
      forall k | k in redirects && redirects[k] != Null
        ensures redirects[k] in ids
      {
        assert k in order;
        assert Lookup(ids, redirects[k], true).Ok?;
      }
    } else {
      var k :| k in order && !(Lookup(ids, k, true).Ok? && Lookup(ids, redirects[k], true).Ok?);
      assert k in ids;
      assert redirects[k] != Null && redirects[k] !in ids;
    }
  }

  /** When `fix_redirects` completes, every redirect key's id (None for None) keys the
      page-id redirect map. */
  lemma FixRelabelsAll(s: State, fetched: seq<Json>, followUp: seq<Json>)
    ensures var r := RecordRedirects(s, fetched, followUp);
      r.1 == Updated ==> forall k :: k in FixedRedirects(fetched) ==>
        (if k == Null then Null else r.0.idMap[k]) in r.0.pageidsRedirectMap
  {
    var redirects := FixedRedirects(fetched);
    var ids := FixedIds(s.idMap, fetched, followUp);
    var relabelled := RelabelPairs(FixedOrder(fetched), redirects, ids, true);
    if relabelled.Ok? {
      RelabelledKeys(FixedOrder(fetched), redirects, ids, true, relabelled.value);
    }
  }

  /** When `fix_redirects` completes, the id of redirect key `order[j]` (None for None)
      maps, in the page-id redirect map, to the id of its target (None for None), for the
      last redirect key in iteration order with that id. */
  lemma FixStoresTargetIds(s: State, fetched: seq<Json>, followUp: seq<Json>, j: nat)
    requires RecordRedirects(s, fetched, followUp).1 == Updated
    requires LastWithId(FixedOrder(fetched), RecordRedirects(s, fetched, followUp).0.idMap, true, j)
    ensures var r := RecordRedirects(s, fetched, followUp);
      var k := FixedOrder(fetched)[j];
      && IdOf(r.0.idMap, k, true) in r.0.pageidsRedirectMap
      && r.0.pageidsRedirectMap[IdOf(r.0.idMap, k, true)] == IdOf(r.0.idMap, FixedRedirects(fetched)[k], true)
  {
    var ids := FixedIds(s.idMap, fetched, followUp);
    var relabelled := RelabelPairs(FixedOrder(fetched), FixedRedirects(fetched), ids, true);
    assert relabelled.Ok?;
    RelabelledLast(FixedOrder(fetched), FixedRedirects(fetched), ids, true, relabelled.value, j);
  }

  /** Every key the relabelled dict was built from has its id (None for None when
      `noneSafe`) among the relabelled dict's keys. */
  lemma RelabelledKeys(order: seq<Json>, src: JMap, ids: JMap, noneSafe: bool, pairs: seq<(Json, Json)>)
    requires forall k :: k in order ==> k in src
    requires RelabelPairs(order, src, ids, noneSafe) == Ok(pairs)
    ensures forall k :: k in order ==> Lookup(ids, k, noneSafe).Ok? && Lookup(ids, k, noneSafe).value in FromPairs(pairs)
  {
    forall k | k in order
      ensures Lookup(ids, k, noneSafe).value in FromPairs(pairs)
    {
      var j :| 0 <= j < |order| && order[j] == k;
      var p := pairs[j];
      assert p.0 == Lookup(ids, k, noneSafe).value;
      assert p in pairs;
    }
  }

  /** `fix_redirects` on the maps `s`, with `fetched` and `followUp` the portions its two
      queries return. It returns early and changes nothing when the filter leaves nothing
      to fetch, when a page id is one `int` rejects, or when not exactly one kind of
      reference is left for `querylister`; otherwise it records what the queries returned. */
  function FixRedirectsOn(s: State, titles: Option<seq<Json>>, pageids: Option<seq<Json>>, revids: Option<seq<int>>,
                          fetched: seq<Json>, followUp: seq<Json>): (r: (State, Outcome))
    ensures r.1 == NothingToFetch <==>
      Requested(titles, pageids, s.normMap, s.titlesRedirectMap, s.pageidsRedirectMap,
                s.titlesRedirectMap.Keys, s.pageidsRedirectMap.Keys) == Ok(None)
    ensures r.1 == Updated || (r.1.Raised? && r.1.error.KeyError?) ==> r == RecordRedirects(s, fetched, followUp)
    ensures r.1 != Updated && !(r.1.Raised? && r.1.error.KeyError?) ==> r.0 == s
    ensures Grown(s, r.0)
  {
    var early := FixStopsEarly(s, titles, pageids, revids);
    if early.Some? then (s, early.value) else RecordRedirects(s, fetched, followUp)
  }

  /** `fix_redirects` as written: `basic_info` passes `args=` to `iterate_async_query`,
      which has no such parameter (it is `f_args`), so once the filter leaves something
      to fetch, the follow-up query raises TypeError before any map is updated. */
  function FixRedirectsAsWritten(s: State, titles: Option<seq<Json>>, pageids: Option<seq<Json>>,
                                 revids: Option<seq<int>>): (r: (State, Outcome))
    ensures r.0 == s
    ensures r.1 != Updated
    ensures r.1 == NothingToFetch <==>
      Requested(titles, pageids, s.normMap, s.titlesRedirectMap, s.pageidsRedirectMap,
                s.titlesRedirectMap.Keys, s.pageidsRedirectMap.Keys) == Ok(None)
  {
    var early := FixStopsEarly(s, titles, pageids, revids);
    if early.Some? then (s, early.value)
    else (s, Raised(TypeError(Api.ArgsKeywordMessage)))
  }

  /** As written, asking for one new title on empty maps raises TypeError and records
      nothing, where the intended method records the fetched redirects. */
  lemma FixRaisesAsWritten(t: string)
    requires t != ""
    ensures var s := State(map[], map[], map[], map[], map[], map[], map[]);
      FixRedirectsAsWritten(s, Some([Str(t)]), None, None) ==
        (s, Raised(TypeError(Api.ArgsKeywordMessage)))
  {
    OneNewTitleFetched(State(map[], map[], map[], map[], map[], map[], map[]), t);
  }

  /** On empty maps, one new title leaves something to fetch, so `fix_redirects` goes on
      to its queries. */
  lemma OneNewTitleFetched(s: State, t: string)
    requires t != ""
    requires s == State(map[], map[], map[], map[], map[], map[], map[])
    ensures FixStopsEarly(s, Some([Str(t)]), None, None) == None
  {
    var pending := PendingTitles([Str(t)], s.normMap, s.titlesRedirectMap, s.titlesRedirectMap.Keys);
    assert Requested(Some([Str(t)]), None, s.normMap, s.titlesRedirectMap, s.pageidsRedirectMap,
                     s.titlesRedirectMap.Keys, s.pageidsRedirectMap.Keys) == Ok(Some((Some(pending), None))) by {
      assert Canonical(s.normMap, s.titlesRedirectMap, [Str(t)][0]) == Str(t);
      assert Str(t) in pending;
    }
  }

  /** How `fix_redirects` ends before its queries, if it does: nothing left to fetch, or
      an error other than KeyError. */
  function FixStopsEarly(s: State, titles: Option<seq<Json>>, pageids: Option<seq<Json>>, revids: Option<seq<int>>): (r: Option<Outcome>)
    ensures r == Some(NothingToFetch) <==>
      Requested(titles, pageids, s.normMap, s.titlesRedirectMap, s.pageidsRedirectMap,
                s.titlesRedirectMap.Keys, s.pageidsRedirectMap.Keys) == Ok(None)
    ensures r.Some? ==> r.value == NothingToFetch || (r.value.Raised? && !r.value.error.KeyError?)
  {
    var req := Requested(titles, pageids, s.normMap, s.titlesRedirectMap, s.pageidsRedirectMap,
                         s.titlesRedirectMap.Keys, s.pageidsRedirectMap.Keys);
    if req.Err? then Some(Raised(req.error))
    else if req.value.None? then Some(NothingToFetch)
    else if !Api.XorGiven(req.value.value.0.Some?, req.value.value.1.Some?, revids.Some?) then
      Some(Raised(ValueError(Str(Api.XorMessage))))
    else None
  }

  /** The reverse map `get_redirects` builds from the fetched lists. */
  function AliasTargets(batches: seq<seq<Json>>): JMap {
    ReverseRedirects(FetchedOrder(batches), MergedFetched(batches))
  }

  /** The reverse map's keys in the order `get_redirects` iterates over them. */
  function AliasOrder(batches: seq<seq<Json>>): (ks: seq<Json>)
    ensures forall k :: k in ks <==> k in AliasTargets(batches)
  {
    KeyOrder(ReversePairs(FetchedOrder(batches), MergedFetched(batches)));
    Dedupe(Firsts(ReversePairs(FetchedOrder(batches), MergedFetched(batches))))
  }

  /** `get_redirects`' dict comprehension over the reverse map, relabelled by `ids`. */
  function AliasesRelabelled(batches: seq<seq<Json>>, ids: JMap): (r: Result<seq<(Json, Json)>>)
    ensures r.Err? ==> r.error.KeyError? && r.error.key !in ids
  {
    RelabelPairs(AliasOrder(batches), AliasTargets(batches), ids, false)
  }

  /** `get_redirects`' dict comprehension over the collected lists, relabelled by `ids`. */
  function ListsRelabelled(batches: seq<seq<Json>>, ids: JMap): (r: Result<seq<(Json, seq<Json>)>>)
    ensures r.Err? ==> r.error.KeyError? && r.error.key !in ids
  {
    RelabelLists(FetchedOrder(batches), MergedFetched(batches), ids)
  }

  /** The part of `get_redirects` after its queries: the fetched lists are collected, every
      alias is redirected to its page, the aliases' ids recorded, and then both page-id
      maps are relabelled; an alias or collected page without an id raises KeyError. */
  function RecordFetched(s: State, batches: seq<seq<Json>>): (r: (State, Outcome))
    ensures r.0.collectedTitleRedirects == s.collectedTitleRedirects + MergedFetched(batches)
    ensures r.0.titlesRedirectMap == s.titlesRedirectMap + AliasTargets(batches)
    ensures r.0.idMap == s.idMap + FromPairs(Collect(batches, BatchAliasIdPairs))
    ensures var pid := AliasesRelabelled(batches, r.0.idMap);
      var lists := ListsRelabelled(batches, r.0.idMap);
      && (pid.Err? ==> r.1 == Raised(pid.error) && r.0.pageidsRedirectMap == s.pageidsRedirectMap
                       && r.0.collectedPageidRedirects == s.collectedPageidRedirects)
      && (pid.Ok? ==> r.0.pageidsRedirectMap == s.pageidsRedirectMap + FromPairs(pid.value))
      && (pid.Ok? && lists.Err? ==> r.1 == Raised(lists.error) && r.0.collectedPageidRedirects == s.collectedPageidRedirects)
      && (pid.Ok? && lists.Ok? ==> r.1 == Updated && r.0.collectedPageidRedirects == s.collectedPageidRedirects + FromPairs(lists.value))
    ensures r.0.normMap == s.normMap && r.0.revidMap == s.revidMap
    ensures r.1 == Updated || (r.1.Raised? && r.1.error.KeyError? && r.1.error.key !in r.0.idMap)
    ensures Grown(s, r.0)
  {
    var f := MergedFetched(batches);
    var ids := s.idMap + FromPairs(Collect(batches, BatchAliasIdPairs));
    var t := s.(collectedTitleRedirects := s.collectedTitleRedirects + f,
                titlesRedirectMap := s.titlesRedirectMap + AliasTargets(batches),
                idMap := ids);
    var pidPairs := AliasesRelabelled(batches, ids);
    if pidPairs.Err? then (t, Raised(pidPairs.error))
    else
      var t' := t.(pageidsRedirectMap := s.pageidsRedirectMap + FromPairs(pidPairs.value));
      var pidLists := ListsRelabelled(batches, ids);
      if pidLists.Err? then (t', Raised(pidLists.error))
      else (t'.(collectedPageidRedirects := s.collectedPageidRedirects + FromPairs(pidLists.value)), Updated)
  }

  /** When `get_redirects` completes, every alias and every collected page has an id, and
      that id keys the page-id redirect map and the collected page-id lists respectively. */
  lemma FetchedRelabelsAll(s: State, batches: seq<seq<Json>>)
    ensures var r := RecordFetched(s, batches);
      r.1 == Updated ==>
        && (forall x :: x in AliasTargets(batches) ==> x in r.0.idMap && r.0.idMap[x] in r.0.pageidsRedirectMap)
        && (forall k :: k in MergedFetched(batches) ==> k in r.0.idMap && r.0.idMap[k] in r.0.collectedPageidRedirects)
  {
    var f := MergedFetched(batches);
    var ids := s.idMap + FromPairs(Collect(batches, BatchAliasIdPairs));
    var pidPairs := RelabelPairs(AliasOrder(batches), AliasTargets(batches), ids, false);
    if pidPairs.Ok? {
      RelabelledKeys(AliasOrder(batches), AliasTargets(batches), ids, false, pidPairs.value);
      var pidLists := RelabelLists(FetchedOrder(batches), f, ids);
      if pidLists.Ok? {
        RelabelledListKeys(FetchedOrder(batches), f, ids, pidLists.value);
      }
    }
  }

  /** When `get_redirects` completes, the id of alias `order[j]` maps, in the page-id
      redirect map, to the id of the page it redirects to, for the last alias in
      iteration order with that id. */
  lemma FetchedAliasIds(s: State, batches: seq<seq<Json>>, j: nat)
    requires RecordFetched(s, batches).1 == Updated
    requires LastWithId(AliasOrder(batches), RecordFetched(s, batches).0.idMap, false, j)
    ensures var r := RecordFetched(s, batches);
      var x := AliasOrder(batches)[j];
      && IdOf(r.0.idMap, x, false) in r.0.pageidsRedirectMap
      && r.0.pageidsRedirectMap[IdOf(r.0.idMap, x, false)] == IdOf(r.0.idMap, AliasTargets(batches)[x], false)
  {
    var ids := s.idMap + FromPairs(Collect(batches, BatchAliasIdPairs));
    var pidPairs := RelabelPairs(AliasOrder(batches), AliasTargets(batches), ids, false);
    assert pidPairs.Ok?;
    RelabelledLast(AliasOrder(batches), AliasTargets(batches), ids, false, pidPairs.value, j);
  }

  /** When `get_redirects` completes, the id of collected page `order[j]` maps, in the
      collected page-id lists, to the ids of its collected list, for the last page in
      iteration order with that id. */
  lemma FetchedListIds(s: State, batches: seq<seq<Json>>, j: nat)
    requires RecordFetched(s, batches).1 == Updated
    requires LastWithId(FetchedOrder(batches), RecordFetched(s, batches).0.idMap, false, j)
    ensures var r := RecordFetched(s, batches);
      var k := FetchedOrder(batches)[j];
      && IdOf(r.0.idMap, k, false) in r.0.collectedPageidRedirects
      && r.0.collectedPageidRedirects[IdOf(r.0.idMap, k, false)] == IdsOf(r.0.idMap, MergedFetched(batches)[k])
  {
    var ids := s.idMap + FromPairs(Collect(batches, BatchAliasIdPairs));
    var pidLists := RelabelLists(FetchedOrder(batches), MergedFetched(batches), ids);
    assert pidLists.Ok?;
    RelabelledListLast(FetchedOrder(batches), MergedFetched(batches), ids, pidLists.value, j);
  }

  /** Every key of the relabelled list dict is the id of a key it was built from. */
  lemma RelabelledListKeys(order: seq<Json>, f: ListMap, ids: JMap, pairs: seq<(Json, seq<Json>)>)
    requires forall k :: k in order ==> k in f
    requires RelabelLists(order, f, ids) == Ok(pairs)
    ensures forall k :: k in order ==> k in ids && ids[k] in FromPairs(pairs)
  {
    forall k | k in order
      ensures ids[k] in FromPairs(pairs)
    {
      var j :| 0 <= j < |order| && order[j] == k;
      assert pairs[j] in pairs;
    }
  }

  /** `get_redirects` on the maps `s`: the references are filtered as in `fix_redirects` but
      against the collected lists, and nothing changes when none are left; otherwise
      `fix_redirects` runs on what is left first (its queries returning `fixFetched` and
      `fixFollowUp`) and whatever it raises escapes; then `batches` holds the pages each
      `prop=redirects` query returns. */
  function GetRedirectsOn(s: State, titles: Option<seq<Json>>, pageids: Option<seq<Json>>, revids: Option<seq<int>>,
                          fixFetched: seq<Json>, fixFollowUp: seq<Json>, batches: seq<seq<Json>>): (r: (State, Outcome))
    ensures r.1 == NothingToFetch ==> r.0 == s
    ensures r.1 == NothingToFetch <==>
      Requested(titles, pageids, s.normMap, s.titlesRedirectMap, s.pageidsRedirectMap,
                s.collectedTitleRedirects.Keys, s.collectedPageidRedirects.Keys) == Ok(None)
    ensures var req := Requested(titles, pageids, s.normMap, s.titlesRedirectMap, s.pageidsRedirectMap,
                                 s.collectedTitleRedirects.Keys, s.collectedPageidRedirects.Keys);
      req.Err? ==> r == (s, Raised(req.error))
    ensures var req := Requested(titles, pageids, s.normMap, s.titlesRedirectMap, s.pageidsRedirectMap,
                                 s.collectedTitleRedirects.Keys, s.collectedPageidRedirects.Keys);
      req.Ok? && req.value.Some? ==>
        var fixed := FixRedirectsOn(s, req.value.value.0, req.value.value.1, revids, fixFetched, fixFollowUp);
        var xor := Api.XorGiven(req.value.value.0.Some?, req.value.value.1.Some?, revids.Some?);
        && Grown(s, fixed.0)
        && (fixed.1.Raised? ==> r == fixed)
        && (!fixed.1.Raised? && !xor ==> r == (fixed.0, Raised(ValueError(Str(Api.XorMessage)))))
        && (!fixed.1.Raised? && xor ==> r == RecordFetched(fixed.0, batches))
    ensures Grown(s, r.0)
  {
    var req := Requested(titles, pageids, s.normMap, s.titlesRedirectMap, s.pageidsRedirectMap,
                         s.collectedTitleRedirects.Keys, s.collectedPageidRedirects.Keys);
    if req.Err? then (s, Raised(req.error))
    else if req.value.None? then (s, NothingToFetch)
    else
      var fixed := FixRedirectsOn(s, req.value.value.0, req.value.value.1, revids, fixFetched, fixFollowUp);
      if fixed.1.Raised? then fixed
      else if !Api.XorGiven(req.value.value.0.Some?, req.value.value.1.Some?, revids.Some?) then
        (fixed.0, Raised(ValueError(Str(Api.XorMessage))))
      else
        GrownTransitive(s, fixed.0, RecordFetched(fixed.0, batches).0);
        RecordFetched(fixed.0, batches)
  }

  lemma GrownTransitive(s: State, t: State, u: State)
    requires Grown(s, t) && Grown(t, u)
    ensures Grown(s, u)
  {}

  class PageMaps {
    var titlesRedirectMap: JMap
    var pageidsRedirectMap: JMap
    var normMap: JMap
    var idMap: JMap
    var revidMap: JMap
    var collectedTitleRedirects: ListMap
    var collectedPageidRedirects: ListMap

    /** `__init__`: the instance holds the seven maps it is given. */
    constructor(titlesRedirectMap: JMap, pageidsRedirectMap: JMap, normMap: JMap, idMap: JMap,
                revidMap: JMap, collectedTitleRedirects: ListMap, collectedPageidRedirects: ListMap)
      ensures Maps() == State(titlesRedirectMap, pageidsRedirectMap, normMap, idMap, revidMap,
                              collectedTitleRedirects, collectedPageidRedirects)
    {
      this.titlesRedirectMap := titlesRedirectMap;
      this.pageidsRedirectMap := pageidsRedirectMap;
      this.normMap := normMap;
      this.idMap := idMap;
      this.revidMap := revidMap;
      this.collectedTitleRedirects := collectedTitleRedirects;
      this.collectedPageidRedirects := collectedPageidRedirects;
    }

    function Maps(): State
      reads this
    {
      State(titlesRedirectMap, pageidsRedirectMap, normMap, idMap, revidMap,
            collectedTitleRedirects, collectedPageidRedirects)
    }

    method Store(t: State)
      modifies this
      ensures Maps() == t
    {
      titlesRedirectMap := t.titlesRedirectMap;
      pageidsRedirectMap := t.pageidsRedirectMap;
      normMap := t.normMap;
      idMap := t.idMap;
      revidMap := t.revidMap;
      collectedTitleRedirects := t.collectedTitleRedirects;
      collectedPageidRedirects := t.collectedPageidRedirects;
    }

    /** `return_maps`. */
    function ReturnMaps(): Saved
      reads this
    {
      Saved(titlesRedirectMap, pageidsRedirectMap, normMap, idMap, collectedTitleRedirects, collectedPageidRedirects)
    }

    /** `load_maps`, given the unpickled tuple: what `return_maps` saved comes back in the
        same fields, and `revid_map`, which the tuple does not hold, is kept. */
    method LoadMaps(saved: Saved)
      modifies this
      ensures ReturnMaps() == saved
      ensures revidMap == old(revidMap)
    {
      titlesRedirectMap := saved.titlesRedirectMap;
      pageidsRedirectMap := saved.pageidsRedirectMap;
      normMap := saved.normMap;
      idMap := saved.idMap;
      collectedTitleRedirects := saved.collectedTitleRedirects;
      collectedPageidRedirects := saved.collectedPageidRedirects;
    }

    /** `fix_redirects`: the maps become what `FixRedirectsOn` gives for the old maps. */
    method FixRedirects(titles: Option<seq<Json>>, pageids: Option<seq<Json>>, revids: Option<seq<int>>,
                        fetched: seq<Json>, followUp: seq<Json>) returns (outcome: Outcome)
      modifies this
      ensures (Maps(), outcome) == FixRedirectsOn(old(Maps()), titles, pageids, revids, fetched, followUp)
    {
      var r := FixRedirectsOn(Maps(), titles, pageids, revids, fetched, followUp);
      Store(r.0);
      outcome := r.1;
    }

    /** `get_redirects`: the maps become what `GetRedirectsOn` gives for the old maps. */
    method GetRedirects(titles: Option<seq<Json>>, pageids: Option<seq<Json>>, revids: Option<seq<int>>,
                        fixFetched: seq<Json>, fixFollowUp: seq<Json>, batches: seq<seq<Json>>)
      returns (outcome: Outcome)
      modifies this
      ensures (Maps(), outcome) == GetRedirectsOn(old(Maps()), titles, pageids, revids, fixFetched, fixFollowUp, batches)
    {
      var r := GetRedirectsOn(Maps(), titles, pageids, revids, fixFetched, fixFollowUp, batches);
      Store(r.0);
      outcome := r.1;
    }
  }
}
