/** The reducers of src/wikitools/redirects.py that turn fetched pages into redirect,
    normalisation and id maps (`parse_redirects`, `parse_fetched_redirects`), and the
    reverse alias map built from collected redirects. A dict built by successive
    updates is modelled by its list of update pairs: lookups read `FromPairs` of it. */
module Redirects {
  import opened Wrappers
  import opened JsonValues
  import opened Collections

  // ---------------------------------------------------------------------------
  // parse_redirects: one debug-mode portion of a `redirects` query at a time

  function Query(portion: Json): Json {
    Field(portion, "query")
  }

  function RedirectEntries(portion: Json): seq<Json> {
    ListAt(Query(portion), "redirects")
  }

  function NormalizedEntries(portion: Json): seq<Json> {
    ListAt(Query(portion), "normalized")
  }

  function PagesIn(portion: Json): seq<Json> {
    ListAt(Query(portion), "pages")
  }

  /** `{x['from']: x['to'] for x in entries}`. */
  function FromToPairs(entries: seq<Json>): (ps: seq<(Json, Json)>)
    ensures |ps| == |entries|
    ensures forall i :: 0 <= i < |entries| ==> ps[i] == (Field(entries[i], "from"), Field(entries[i], "to"))
  {
    seq(|entries|, i requires 0 <= i < |entries| => (Field(entries[i], "from"), Field(entries[i], "to")))
  }

  /** A page the API flags as missing is recorded as a redirect to None. */
  function MissingPair(page: Json): seq<(Json, Json)> {
    if Has(page, "missing") then [(Field(page, "title"), Null)] else []
  }

  /** A page that exists records its id, -1 when the answer has none. */
  function FoundIdPair(page: Json): seq<(Json, Json)> {
    if !Has(page, "missing") then [(Field(page, "title"), GetOr(page, "pageid", Int(-1)))] else []
  }

  /** The two `redirects.update` calls for one portion. */
  function RedirectPairs(portion: Json): seq<(Json, Json)> {
    FromToPairs(RedirectEntries(portion)) + Collect(PagesIn(portion), MissingPair)
  }

  function NormPairs(portion: Json): seq<(Json, Json)> {
    FromToPairs(NormalizedEntries(portion))
  }

  function IdPairs(portion: Json): seq<(Json, Json)> {
    Collect(PagesIn(portion), FoundIdPair)
  }

  /** `parse_redirects`: folds the portions into the redirect, normalisation and id
      maps, later portions overwriting earlier ones. */
  method ParseRedirects(portions: seq<Json>)
    returns (redirects: map<Json, Json>, norms: map<Json, Json>, ids: map<Json, Json>)
    ensures redirects == FromPairs(Collect(portions, RedirectPairs))
    ensures norms == FromPairs(Collect(portions, NormPairs))
    ensures ids == FromPairs(Collect(portions, IdPairs))
  {
    redirects, norms, ids := map[], map[], map[];
    for i := 0 to |portions|
      invariant redirects == FromPairs(Collect(portions[..i], RedirectPairs))
      invariant norms == FromPairs(Collect(portions[..i], NormPairs))
      invariant ids == FromPairs(Collect(portions[..i], IdPairs))
    {
      var page := portions[i];
      SnocPrefix(portions, i);
      var fromTo := FromToPairs(RedirectEntries(page));
      var missing := Collect(PagesIn(page), MissingPair);
      ParseStep(portions[..i], page, redirects, norms, ids);
      redirects := redirects + FromPairs(fromTo);
      redirects := redirects + FromPairs(missing);
      norms := norms + FromPairs(NormPairs(page));
      ids := ids + FromPairs(IdPairs(page));
    }
    assert portions[..|portions|] == portions;
  }

  /** One portion's worth of `update` calls. */
  lemma ParseStep(done: seq<Json>, page: Json, redirects: map<Json, Json>, norms: map<Json, Json>, ids: map<Json, Json>)
    requires redirects == FromPairs(Collect(done, RedirectPairs))
    requires norms == FromPairs(Collect(done, NormPairs))
    requires ids == FromPairs(Collect(done, IdPairs))
    ensures redirects + FromPairs(FromToPairs(RedirectEntries(page))) + FromPairs(Collect(PagesIn(page), MissingPair))
         == FromPairs(Collect(done + [page], RedirectPairs))
    ensures norms + FromPairs(NormPairs(page)) == FromPairs(Collect(done + [page], NormPairs))
    ensures ids + FromPairs(IdPairs(page)) == FromPairs(Collect(done + [page], IdPairs))
  {
    var fromTo := FromToPairs(RedirectEntries(page));
    var missing := Collect(PagesIn(page), MissingPair);
    FromPairsCollectSnoc(done, page, RedirectPairs);
    FromPairsAppend(fromTo, missing);
    MapUnionAssoc(redirects, FromPairs(fromTo), FromPairs(missing));
    FromPairsCollectSnoc(done, page, NormPairs);
    FromPairsCollectSnoc(done, page, IdPairs);
  }

  /** Some redirect entry of the portions has 'from' `k`. */
  predicate RedirectedFrom(portions: seq<Json>, k: Json) {
    exists x :: x in Collect(portions, RedirectEntries) && Field(x, "from") == k
  }

  /** Some page of the portions is missing and has title `k`. */
  predicate MissingTitle(portions: seq<Json>, k: Json) {
    exists l :: l in Collect(portions, PagesIn) && Has(l, "missing") && Field(l, "title") == k
  }

  /** The redirect map of `parse_redirects` holds exactly the 'from' titles of the redirect
      entries and the titles of missing pages. */
  lemma ParsedRedirectKeys(portions: seq<Json>)
    ensures forall k :: k in FromPairs(Collect(portions, RedirectPairs)) <==>
      RedirectedFrom(portions, k) || MissingTitle(portions, k)
  {
    forall k
      ensures k in FromPairs(Collect(portions, RedirectPairs)) <==>
        RedirectedFrom(portions, k) || MissingTitle(portions, k)
    {
      ParsedRedirectKey(portions, k);
    }
  }

  lemma ParsedRedirectKey(portions: seq<Json>, k: Json)
    ensures k in FromPairs(Collect(portions, RedirectPairs)) <==>
      RedirectedFrom(portions, k) || MissingTitle(portions, k)
  {
    var rp := Collect(portions, RedirectPairs);
    if k in FromPairs(rp) {
      FromPairsValue(rp, k);
      RedirectPairOrigin(portions, (k, FromPairs(rp)[k]));
    }
    if RedirectedFrom(portions, k) {
      var x :| x in Collect(portions, RedirectEntries) && Field(x, "from") == k;
      RedirectEntryPair(portions, x);
    } else if MissingTitle(portions, k) {
      var l :| l in Collect(portions, PagesIn) && Has(l, "missing") && Field(l, "title") == k;
      MissingPagePair(portions, l);
    }
  }

  /** Each key of that map goes to None or to a 'to' some redirect entry gives for it. */
  lemma ParsedRedirectValues(portions: seq<Json>)
    ensures var r := FromPairs(Collect(portions, RedirectPairs));
      forall k :: k in r ==>
        r[k] == Null ||
        exists x :: x in Collect(portions, RedirectEntries) && Field(x, "from") == k && Field(x, "to") == r[k]
  {
    var rp := Collect(portions, RedirectPairs);
    var r := FromPairs(rp);
    forall k | k in r
      ensures r[k] == Null ||
            exists x :: x in Collect(portions, RedirectEntries) && Field(x, "from") == k && Field(x, "to") == r[k]
    {
      FromPairsValue(rp, k);
      RedirectPairOrigin(portions, (k, r[k]));
    }
  }

  /** The id map of `parse_redirects` holds exactly the titles of the pages that exist,
      each with the id given by such a page, or -1 when it gives none. */
  lemma ParsedIdsMeaning(portions: seq<Json>)
    ensures var ids := FromPairs(Collect(portions, IdPairs));
      && (forall k :: k in ids <==>
            exists l :: l in Collect(portions, PagesIn) && !Has(l, "missing") && Field(l, "title") == k)
      && (forall k :: k in ids ==>
            exists l :: l in Collect(portions, PagesIn) && !Has(l, "missing") && Field(l, "title") == k
                      && ids[k] == GetOr(l, "pageid", Int(-1)))
  {
    var ip := Collect(portions, IdPairs);
    var ids := FromPairs(ip);
    forall k
      ensures k in ids <==> exists l :: l in Collect(portions, PagesIn) && !Has(l, "missing") && Field(l, "title") == k
    {
      if k in ids {
        FromPairsValue(ip, k);
        IdPairOrigin(portions, (k, ids[k]));
      }
      if exists l :: l in Collect(portions, PagesIn) && !Has(l, "missing") && Field(l, "title") == k {
        var l :| l in Collect(portions, PagesIn) && !Has(l, "missing") && Field(l, "title") == k;
        FoundPagePair(portions, l);
      }
    }
    forall k | k in ids
      ensures exists l :: l in Collect(portions, PagesIn) && !Has(l, "missing") && Field(l, "title") == k
                      && ids[k] == GetOr(l, "pageid", Int(-1))
    {
      FromPairsValue(ip, k);
      IdPairOrigin(portions, (k, ids[k]));
    }
  }

  lemma RedirectPairOrigin(portions: seq<Json>, p: (Json, Json))
    requires p in Collect(portions, RedirectPairs)
    ensures (exists x :: x in Collect(portions, RedirectEntries) && (Field(x, "from"), Field(x, "to")) == p)
         || (exists l :: l in Collect(portions, PagesIn) && Has(l, "missing") && (Field(l, "title"), Null) == p)
  {
    CollectMember(portions, RedirectPairs, p);
    var i :| 0 <= i < |portions| && p in RedirectPairs(portions[i]);
    var fromTo := FromToPairs(RedirectEntries(portions[i]));
    if p in fromTo {
      var j :| 0 <= j < |fromTo| && fromTo[j] == p;
      var x := RedirectEntries(portions[i])[j];
      CollectMember(portions, RedirectEntries, x);
    } else {
      CollectMember(PagesIn(portions[i]), MissingPair, p);
      var j :| 0 <= j < |PagesIn(portions[i])| && p in MissingPair(PagesIn(portions[i])[j]);
      var l := PagesIn(portions[i])[j];
      CollectMember(portions, PagesIn, l);
    }
  }

  lemma RedirectEntryPair(portions: seq<Json>, x: Json)
    requires x in Collect(portions, RedirectEntries)
    ensures (Field(x, "from"), Field(x, "to")) in Collect(portions, RedirectPairs)
  {
    CollectMember(portions, RedirectEntries, x);
    var i :| 0 <= i < |portions| && x in RedirectEntries(portions[i]);
    var j :| 0 <= j < |RedirectEntries(portions[i])| && RedirectEntries(portions[i])[j] == x;
    assert FromToPairs(RedirectEntries(portions[i]))[j] == (Field(x, "from"), Field(x, "to"));
    CollectMember(portions, RedirectPairs, (Field(x, "from"), Field(x, "to")));
  }

  lemma MissingPagePair(portions: seq<Json>, l: Json)
    requires l in Collect(portions, PagesIn) && Has(l, "missing")
    ensures (Field(l, "title"), Null) in Collect(portions, RedirectPairs)
  {
    CollectMember(portions, PagesIn, l);
    var i :| 0 <= i < |portions| && l in PagesIn(portions[i]);
    var j :| 0 <= j < |PagesIn(portions[i])| && PagesIn(portions[i])[j] == l;
    CollectMember(PagesIn(portions[i]), MissingPair, (Field(l, "title"), Null));
    CollectMember(portions, RedirectPairs, (Field(l, "title"), Null));
  }

  lemma IdPairOrigin(portions: seq<Json>, p: (Json, Json))
    requires p in Collect(portions, IdPairs)
    ensures exists l :: l in Collect(portions, PagesIn) && !Has(l, "missing") && FoundIdPair(l) == [p]
  {
    CollectMember(portions, IdPairs, p);
    var i :| 0 <= i < |portions| && p in IdPairs(portions[i]);
    CollectMember(PagesIn(portions[i]), FoundIdPair, p);
    var j :| 0 <= j < |PagesIn(portions[i])| && p in FoundIdPair(PagesIn(portions[i])[j]);
    var l := PagesIn(portions[i])[j];
    CollectMember(portions, PagesIn, l);
  }

  lemma FoundPagePair(portions: seq<Json>, l: Json)
    requires l in Collect(portions, PagesIn) && !Has(l, "missing")
    ensures FoundIdPair(l)[0] in Collect(portions, IdPairs)
  {
    CollectMember(portions, PagesIn, l);
    var i :| 0 <= i < |portions| && l in PagesIn(portions[i]);
    var j :| 0 <= j < |PagesIn(portions[i])| && PagesIn(portions[i])[j] == l;
    CollectMember(PagesIn(portions[i]), FoundIdPair, FoundIdPair(l)[0]);
    CollectMember(portions, IdPairs, FoundIdPair(l)[0]);
  }

  // ---------------------------------------------------------------------------
  // parse_fetched_redirects: the pages of a `prop=redirects` query

  predicate Found(page: Json) {
    !Has(page, "missing")
  }

  /** The titles of the redirects that point at a page. */
  function RedirectTitles(page: Json): (ts: seq<Json>)
    ensures |ts| == |ListAt(page, "redirects")|
  {
    var rs := ListAt(page, "redirects");
    seq(|rs|, i requires 0 <= i < |rs| => Field(rs[i], "title"))
  }

  function FoundTitle(page: Json): seq<Json> {
    if Found(page) then [Field(page, "title")] else []
  }

  /** The titles of the pages that exist, in order, repeats kept. */
  function FoundTitles(pages: seq<Json>): seq<Json> {
    Collect(pages, FoundTitle)
  }

  /** The redirect titles of every existing page titled k, in the order the pages come. */
  function AliasesOf(pages: seq<Json>, k: Json): seq<Json>
  {
    if pages == [] then []
    else
      var last := pages[|pages| - 1];
      AliasesOf(pages[..|pages| - 1], k) + (if Found(last) && Field(last, "title") == k then RedirectTitles(last) else [])
  }

  /** What `parse_fetched_redirects` means: each existing page title maps to itself
      followed by the titles of all redirects reported for it. */
  function FetchedMap(pages: seq<Json>): (f: map<Json, seq<Json>>)
    ensures f.Keys == set k | k in FoundTitles(pages)
    ensures forall k :: k in f ==> f[k] != [] && f[k][0] == k
  {
    map k | k in FoundTitles(pages) :: [k] + AliasesOf(pages, k)
  }

  /** The ids recorded for the redirects of an existing page. */
  function AliasIdPairs(page: Json): seq<(Json, Json)> {
    if Found(page) then
      var rs := ListAt(page, "redirects");
      seq(|rs|, i requires 0 <= i < |rs| => (Field(rs[i], "title"), GetOr(rs[i], "pageid", Int(-1))))
    else []
  }

  lemma AliasesSnoc(pages: seq<Json>, page: Json, t: Json)
    ensures AliasesOf(pages + [page], t) ==
      AliasesOf(pages, t) + (if Found(page) && Field(page, "title") == t then RedirectTitles(page) else [])
  {
    assert (pages + [page])[..|pages|] == pages;
  }

  /** Appending one page changes at most its own title's entry. */
  lemma FetchedStep(pages: seq<Json>, page: Json)
    ensures var f := FetchedMap(pages);
      var k := Field(page, "title");
      FetchedMap(pages + [page]) ==
        if !Found(page) then f
        else if k in f then f[k := f[k] + RedirectTitles(page)]
        else f[k := [k] + RedirectTitles(page)]
  {
    CollectSnoc(pages, page, FoundTitle);
    if Found(page) {
      FetchedStepFound(pages, page);
    } else {
      FetchedStepMissing(pages, page);
    }
  }

  lemma FetchedStepMissing(pages: seq<Json>, page: Json)
    requires !Found(page)
    requires FoundTitles(pages + [page]) == FoundTitles(pages) + FoundTitle(page)
    ensures FetchedMap(pages + [page]) == FetchedMap(pages)
  {
    var f, g := FetchedMap(pages), FetchedMap(pages + [page]);
    assert FoundTitles(pages + [page]) == FoundTitles(pages);
    forall t | t in f
      ensures g[t] == f[t]
    {
      AliasesSnoc(pages, page, t);
    }
  }

  lemma FetchedStepFound(pages: seq<Json>, page: Json)
    requires Found(page)
    requires FoundTitles(pages + [page]) == FoundTitles(pages) + FoundTitle(page)
    ensures var f := FetchedMap(pages);
      var k := Field(page, "title");
      FetchedMap(pages + [page]) ==
        if k in f then f[k := f[k] + RedirectTitles(page)]
        else f[k := [k] + RedirectTitles(page)]
  {
    var f, g := FetchedMap(pages), FetchedMap(pages + [page]);
    var k := Field(page, "title");
    var v := if k in f then f[k] + RedirectTitles(page) else [k] + RedirectTitles(page);
    var h := f[k := v];
    forall t | t in h
      ensures t in g && g[t] == h[t]
    {
      FetchedKeyStep(pages, page, t);
      FetchedEntryStep(pages, page, t);
    }
    forall t | t in g
      ensures t in h
    {
      FetchedKeyStep(pages, page, t);
    }
    MapsAgree(g, h);
  }

  /** A found page adds its title to the fetched titles. */
  lemma FetchedKeyStep(pages: seq<Json>, page: Json, t: Json)
    requires Found(page)
    requires FoundTitles(pages + [page]) == FoundTitles(pages) + FoundTitle(page)
    ensures t in FetchedMap(pages + [page]) <==> t in FetchedMap(pages) || t == Field(page, "title")
  {
    assert FoundTitle(page) == [Field(page, "title")];
    assert t in FoundTitles(pages) + [Field(page, "title")] <==> t in FoundTitles(pages) || t == Field(page, "title");
  }

  /** The entry of one title after a found page is appended. */
  lemma FetchedEntryStep(pages: seq<Json>, page: Json, t: Json)
    requires Found(page)
    requires t in FetchedMap(pages + [page])
    ensures var f := FetchedMap(pages);
      var k := Field(page, "title");
      FetchedMap(pages + [page])[t] ==
        if t != k then f[t]
        else if k in f then f[k] + RedirectTitles(page)
        else [k] + RedirectTitles(page)
  {
    AliasesSnoc(pages, page, t);
    var k := Field(page, "title");
    CollectSnoc(pages, page, FoundTitle);
    if t == k && k !in FetchedMap(pages) {
      NoAliasesWithoutPage(pages, k);
    }
  }

  /** A title that no existing page has collects no redirect titles. */
  lemma {:induction false} NoAliasesWithoutPage(pages: seq<Json>, k: Json)
    requires k !in FoundTitles(pages)
    ensures AliasesOf(pages, k) == []
  {
    if pages != [] {
      var init := pages[..|pages| - 1];
      CollectSnoc(init, pages[|pages| - 1], FoundTitle);
      assert pages == init + [pages[|pages| - 1]];
      NoAliasesWithoutPage(init, k);
    }
  }

  /** `parse_fetched_redirects`: skips missing pages; the first time a title is seen its
      list starts with the title itself, later times extend it. */
  method ParseFetchedRedirects(pages: seq<Json>) returns (f: map<Json, seq<Json>>, ids: map<Json, Json>)
    ensures f == FetchedMap(pages)
    ensures ids == FromPairs(Collect(pages, AliasIdPairs))
  {
    f, ids := map[], map[];
    for i := 0 to |pages|
      invariant f == FetchedMap(pages[..i])
      invariant ids == FromPairs(Collect(pages[..i], AliasIdPairs))
    {
      var page := pages[i];
      assert pages[..i + 1] == pages[..i] + [page];
      FetchedStep(pages[..i], page);
      CollectSnoc(pages[..i], page, AliasIdPairs);
      FromPairsAppend(Collect(pages[..i], AliasIdPairs), AliasIdPairs(page));
      if Has(page, "missing") {
        assert AliasIdPairs(page) == [];
        assert Collect(pages[..i], AliasIdPairs) + [] == Collect(pages[..i], AliasIdPairs);
        continue;
      }
      var k := Field(page, "title");
      var v := RedirectTitles(page);
      if k in f {
        f := f[k := f[k] + v];
      } else {
        f := f[k := [k] + v];
      }
      ids := ids + FromPairs(AliasIdPairs(page));
    }
    assert pages[..|pages|] == pages;
  }

  // ---------------------------------------------------------------------------
  // The reverse alias map: `{x: k for k, v in f.items() for x in v}`

  /** The pairs `(x, k)` for every k in `keys` (the dict's iteration order) and every x in f[k]. */
  function ReversePairs(keys: seq<Json>, f: map<Json, seq<Json>>): seq<(Json, Json)>
    requires forall k :: k in keys ==> k in f
  {
    if keys == [] then []
    else
      var k := keys[|keys| - 1];
      ReversePairs(keys[..|keys| - 1], f) + Tagged(f[k], k)
  }

  /** The reverse map sends an alias to a key whose list holds it. */
  function ReverseRedirects(keys: seq<Json>, f: map<Json, seq<Json>>): map<Json, Json>
    requires forall k :: k in keys ==> k in f
  {
    FromPairs(ReversePairs(keys, f))
  }

  lemma {:induction false} ReversePairsMember(keys: seq<Json>, f: map<Json, seq<Json>>, x: Json, k: Json)
    requires forall k :: k in keys ==> k in f
    ensures (x, k) in ReversePairs(keys, f) <==> k in keys && x in f[k]
  {
    if keys != [] {
      var init := keys[..|keys| - 1];
      var last := keys[|keys| - 1];
      ReversePairsMember(init, f, x, k);
      TaggedMember(f[last], last, x, k);
      assert k in keys <==> k in init || k == last;
    }
  }

  /** Every alias of every key is in the reverse map, nothing else is, and each alias maps
      to a key whose list holds it; so an alias listed under one key only maps to that
      key, and in particular a key that heads its own list and appears in no other maps
      to itself. */
  lemma ReverseMeaning(keys: seq<Json>, f: map<Json, seq<Json>>)
    requires forall k :: k in keys ==> k in f
    ensures var rev := ReverseRedirects(keys, f);
      && (forall x :: x in rev <==> exists k :: k in keys && x in f[k])
      && (forall x :: x in rev ==> rev[x] in keys && x in f[rev[x]])
      && (forall x, k :: k in keys && x in f[k] && (forall k' :: k' in keys && x in f[k'] ==> k' == k) ==> rev[x] == k)
  {
    var ps := ReversePairs(keys, f);
    var rev := FromPairs(ps);
    forall x
      ensures x in rev <==> exists k :: k in keys && x in f[k]
    {
      if x in rev {
        FromPairsValue(ps, x);
        ReversePairsMember(keys, f, x, rev[x]);
      }
      if exists k :: k in keys && x in f[k] {
        var k :| k in keys && x in f[k];
        ReversePairsMember(keys, f, x, k);
      }
    }
    forall x | x in rev
      ensures rev[x] in keys && x in f[rev[x]]
    {
      FromPairsValue(ps, x);
      ReversePairsMember(keys, f, x, rev[x]);
    }
  }

  /** An alias listed under several keys maps to the last of them in the dict's order:
      the comprehension assigns it once per key, and the last assignment stays. */
  lemma {:induction false} ReverseLast(keys: seq<Json>, f: map<Json, seq<Json>>, x: Json, i: nat)
    requires forall k :: k in keys ==> k in f
    requires i < |keys| && x in f[keys[i]]
    requires forall j :: i < j < |keys| ==> x !in f[keys[j]]
    ensures x in ReverseRedirects(keys, f) && ReverseRedirects(keys, f)[x] == keys[i]
  {
    var init := keys[..|keys| - 1];
    var last := keys[|keys| - 1];
    var tagged := Tagged(f[last], last);
    assert ReversePairs(keys, f) == ReversePairs(init, f) + tagged;
    FromPairsAppend(ReversePairs(init, f), tagged);
    var t := FromPairs(tagged);
    if i == |keys| - 1 {
      TaggedMember(f[last], last, x, last);
      FromPairsValue(tagged, x);
      TaggedMember(f[last], last, x, t[x]);
    } else {
      if x in t {
        FromPairsValue(tagged, x);
        TaggedMember(f[last], last, x, t[x]);
      }
      ReverseLast(init, f, x, i);
    }
  }
}
