/** src/wikitools/revisions.py: the reducers that turn the pages of a revisions query
    into dicts (`parse_revision`, `parse_revisions`, `parse_revisions_data`,
    `parse_revisions_content`), and the query building, keying and projection around
    them in `get_revision`, `get_revisions`, `get_revisions_data` and
    `get_revisions_content`. What `query_async` gives back for each query, and the
    clock, are arguments. Dicts are kept as their items in iteration order. */
module Revisions {
  import opened Wrappers
  import opened JsonValues
  import opened Collections
  import Tools
  import Api

  /** `(page['pageid'], page['title'])`, the key the reducers file a page under. */
  type PageKey = (Json, Json)

  // ---------------------------------------------------------------------------
  // Walking the awaited pages

  /** The entries each element contributes, in order, or the error of the first
      element that raises. */
  function AllEntries<E>(xs: seq<Json>, f: Json -> Result<seq<E>>): (r: Result<seq<E>>)
    ensures r.Ok? <==> forall i :: 0 <= i < |xs| ==> f(xs[i]).Ok?
    ensures r.Ok? ==> r.value == Collect(xs, EntriesOf(f))
    ensures r.Err? ==> exists i :: 0 <= i < |xs| && f(xs[i]) == Err(r.error) && forall j :: 0 <= j < i ==> f(xs[j]).Ok?
  {
    if xs == [] then Ok([])
    else
      var init := AllEntries(xs[..|xs| - 1], f);
      assert forall i :: 0 <= i < |xs| - 1 ==> xs[..|xs| - 1][i] == xs[i];
      if init.Err? then Err(init.error)
      else
        var e := f(xs[|xs| - 1]);
        if e.Err? then Err(e.error) else Ok(init.value + e.value)
  }

  /** The entries of an element that does not raise. */
  function EntriesOf<E>(f: Json -> Result<seq<E>>): Json -> seq<E> {
    x => if f(x).Ok? then f(x).value else []
  }

  /** A loop that stops at the first element that raises ends with that element's error. */
  lemma FirstFailure<E>(xs: seq<Json>, f: Json -> Result<seq<E>>, i: nat)
    requires i < |xs| && f(xs[i]).Err? && PrefixOk(xs, f, i)
    ensures AllEntries(xs, f) == Err(f(xs[i]).error)
  {
  }

  /** The first i elements do not raise. */
  predicate PrefixOk<E>(xs: seq<Json>, f: Json -> Result<seq<E>>, i: nat) {
    forall j :: 0 <= j < i && j < |xs| ==> f(xs[j]).Ok?
  }

  /** At the end of the loop every element was read without raising. */
  lemma AllOk<E>(xs: seq<Json>, f: Json -> Result<seq<E>>)
    requires PrefixOk(xs, f, |xs|)
    ensures AllEntries(xs, f) == Ok(Collect(xs[..|xs|], EntriesOf(f)))
  {
    assert xs[..|xs|] == xs;
  }

  /** The key of a page; `pageid` is read before `title`. */
  function KeyOf(page: Json): (r: Result<PageKey>)
    ensures r.Ok? <==> Has(page, "pageid") && Has(page, "title")
    ensures r.Ok? ==> r.value == (page.fields["pageid"], page.fields["title"])
    ensures r.Err? ==> r.error.KeyError?
  {
    var pageid :- Index(page, "pageid");
    var title :- Index(page, "title");
    Ok((pageid, title))
  }

  // ---------------------------------------------------------------------------
  // parse_revision

  /** The entry `rev_info[key] = page['revisions'][0]` makes. Python evaluates the
      right-hand side first, so a page without revisions raises before its key is read. */
  function FirstRevision(page: Json): (r: Result<seq<(PageKey, Json)>>)
    ensures r.Ok? <==> Has(page, "revisions") && ListAt(page, "revisions") != [] && KeyOf(page).Ok?
    ensures r.Ok? ==> r.value == [(KeyOf(page).value, ListAt(page, "revisions")[0])]
    ensures !Has(page, "revisions") ==> r == Err(KeyError(Str("revisions")))
  {
    var revs :- Index(page, "revisions");
    var first :- if revs.Arr? && revs.items != [] then Ok(revs.items[0]) else Err(IndexError("list index out of range"));
    var key :- KeyOf(page);
    Ok([(key, first)])
  }

  /** What `parse_revision` returns for the awaited result of one query. */
  function RevisionInfo(data: Result<Json>): Result<seq<(PageKey, Json)>> {
    var x :- data;
    var pages :- Iterable(x);
    var entries :- AllEntries(pages, FirstRevision);
    Ok(DictItems(entries))
  }

  /** `parse_revision`: for each page in turn, file its first revision under its key. */
  method ParseRevision(data: Result<Json>) returns (r: Result<seq<(PageKey, Json)>>)
    ensures r == RevisionInfo(data)
  {
    var x :- data;
    var pages :- Iterable(x);
    var revInfo: seq<(PageKey, Json)> := [];
    for i := 0 to |pages|
      invariant PrefixOk(pages, FirstRevision, i)
      invariant revInfo == DictItems(Collect(pages[..i], EntriesOf(FirstRevision)))
    {
      var entry := FirstRevision(pages[i]);
      if entry.Err? {
        FirstFailure(pages, FirstRevision, i);
        return Err(entry.error);
      }
      AssignStep(pages, FirstRevision, i);
      revInfo := AssignEntry(revInfo, entry.value[0].0, entry.value[0].1);
    }
    AllOk(pages, FirstRevision);
    r := Ok(revInfo);
  }

  /** One more element that contributes one entry: one more assignment. */
  lemma AssignStep<K(!new), V(!new)>(xs: seq<Json>, f: Json -> Result<seq<(K, V)>>, i: nat)
    requires i < |xs| && f(xs[i]).Ok? && |f(xs[i]).value| == 1 && PrefixOk(xs, f, i)
    ensures PrefixOk(xs, f, i + 1)
    ensures var e := f(xs[i]).value[0];
      DictItems(Collect(xs[..i + 1], EntriesOf(f))) == AssignEntry(DictItems(Collect(xs[..i], EntriesOf(f))), e.0, e.1)
  {
    var seen := Collect(xs[..i], EntriesOf(f));
    CollectStep(xs, EntriesOf(f), i);
    DictItemsSnoc(seen, f(xs[i]).value);
    assert (seen + f(xs[i]).value)[..|seen|] == seen;
  }

  /** The entries of the first i + 1 elements. */
  lemma CollectStep<B>(xs: seq<Json>, g: Json -> seq<B>, i: nat)
    requires i < |xs|
    ensures Collect(xs[..i + 1], g) == Collect(xs[..i], g) + g(xs[i])
  {
    assert xs[..i + 1] == xs[..i] + [xs[i]];
    CollectSnoc(xs[..i], xs[i], g);
  }

  /** Each page of a successful parse is filed under `(pageid, title)`; the last page
      with a given key decides its value, the first revision of that page; the keys
      come in the order the pages first named them. */
  lemma {:induction false} RevisionInfoMeaning(pages: seq<Json>, i: nat)
    requires RevisionInfo(Ok(Arr(pages))).Ok? && i < |pages|
    requires forall j :: i < j < |pages| ==> KeyOf(pages[j]) != KeyOf(pages[i])
    ensures var d := FromPairs(RevisionInfo(Ok(Arr(pages))).value);
      && KeyOf(pages[i]).Ok?
      && KeyOf(pages[i]).value in d
      && d[KeyOf(pages[i]).value] == ListAt(pages[i], "revisions")[0]
  {
    var entries := AllEntries(pages, FirstRevision).value;
    SingleEntries(pages, FirstRevision);
    assert entries[i] == (KeyOf(pages[i]).value, ListAt(pages[i], "revisions")[0]);
    FromPairsLast(entries, i);
    DictItemsAgree(entries);
  }

  /** When each element contributes exactly one entry, the entries line up with the elements. */
  lemma {:induction false} SingleEntries<E>(xs: seq<Json>, f: Json -> Result<seq<E>>)
    requires forall i :: 0 <= i < |xs| ==> f(xs[i]).Ok? && |f(xs[i]).value| == 1
    ensures |Collect(xs, EntriesOf(f))| == |xs|
    ensures forall i :: 0 <= i < |xs| ==> Collect(xs, EntriesOf(f))[i] == f(xs[i]).value[0]
  {
    if xs != [] {
      var init := xs[..|xs| - 1];
      SingleEntries(init, f);
      assert forall i :: 0 <= i < |init| ==> init[i] == xs[i];
    }
  }

  // ---------------------------------------------------------------------------
  // parse_revisions

  /** What one page adds: its revisions (none when the page has no `revisions`) under
      its key. */
  function PageRevisions(page: Json): (r: Result<seq<(PageKey, seq<Json>)>>)
    ensures r.Ok? <==> KeyOf(page).Ok?
    ensures r.Ok? ==> r.value == [(KeyOf(page).value, ListAt(page, "revisions"))]
  {
    var key :- KeyOf(page);
    Ok([(key, ListAt(page, "revisions"))])
  }

  /** What `parse_revisions` returns for the awaited result of one query. */
  function RevisionsOf(data: Result<Json>): Result<seq<(PageKey, seq<Json>)>> {
    var x :- data;
    var pages :- Iterable(x);
    var entries :- AllEntries(pages, PageRevisions);
    Ok(GroupPairs(entries))
  }

  /** `parse_revisions`: the first page with a key files its revisions under it, later
      pages with the same key extend that list. */
  method ParseRevisions(data: Result<Json>) returns (r: Result<seq<(PageKey, seq<Json>)>>)
    ensures r == RevisionsOf(data)
  {
    var x :- data;
    var pages :- Iterable(x);
    var revisions: seq<(PageKey, seq<Json>)> := [];
    for i := 0 to |pages|
      invariant PrefixOk(pages, PageRevisions, i)
      invariant revisions == GroupPairs(Collect(pages[..i], EntriesOf(PageRevisions)))
    {
      var entry := PageRevisions(pages[i]);
      if entry.Err? {
        FirstFailure(pages, PageRevisions, i);
        return Err(entry.error);
      }
      ExtendStep(pages, PageRevisions, i);
      revisions := ExtendEntry(revisions, entry.value[0].0, entry.value[0].1);
    }
    AllOk(pages, PageRevisions);
    r := Ok(revisions);
  }

  /** One more page: one more `extend` or first assignment. */
  lemma ExtendStep<K(!new), V>(xs: seq<Json>, f: Json -> Result<seq<(K, seq<V>)>>, i: nat)
    requires i < |xs| && f(xs[i]).Ok? && |f(xs[i]).value| == 1 && PrefixOk(xs, f, i)
    ensures PrefixOk(xs, f, i + 1)
    ensures var e := f(xs[i]).value[0];
      GroupPairs(Collect(xs[..i + 1], EntriesOf(f))) == ExtendEntry(GroupPairs(Collect(xs[..i], EntriesOf(f))), e.0, e.1)
  {
    var seen := Collect(xs[..i], EntriesOf(f));
    CollectStep(xs, EntriesOf(f), i);
    assert f(xs[i]).value == [f(xs[i]).value[0]];
    GroupPairsSnoc(seen, f(xs[i]).value[0]);
  }

  /** `[key]` for a page that has one. */
  function KeyList(page: Json): seq<PageKey> {
    if KeyOf(page).Ok? then [KeyOf(page).value] else []
  }

  /** The revisions of the pages filed under `k`, concatenated in page order. */
  function RevisionsUnder(pages: seq<Json>, k: PageKey): seq<Json> {
    if pages == [] then []
    else
      var last := pages[|pages| - 1];
      RevisionsUnder(pages[..|pages| - 1], k) + (if KeyOf(last) == Ok(k) then ListAt(last, "revisions") else [])
  }

  /** A successful `parse_revisions` lists each page key once, in the order the pages
      first name it, with the revisions of all pages under that key concatenated in
      page order. */
  lemma RevisionsOfMeaning(pages: seq<Json>)
    requires RevisionsOf(Ok(Arr(pages))).Ok?
    ensures var g := RevisionsOf(Ok(Arr(pages))).value;
      && Firsts(g) == Dedupe(Collect(pages, KeyList))
      && forall i :: 0 <= i < |g| ==> g[i].1 == RevisionsUnder(pages, g[i].0)
  {
    var entries := AllEntries(pages, PageRevisions).value;
    GroupPairsMeaning(entries);
    PageEntriesLineUp(pages);
  }

  /** The entries `parse_revisions` reads: their keys are the pages' keys and the lists
      under a key are the revisions under it. */
  lemma {:induction false} PageEntriesLineUp(pages: seq<Json>)
    requires PrefixOk(pages, PageRevisions, |pages|)
    ensures var entries := Collect(pages, EntriesOf(PageRevisions));
      && Firsts(entries) == Collect(pages, KeyList)
      && forall k :: ValuesOf(entries, k) == RevisionsUnder(pages, k)
  {
    if pages != [] {
      var init := pages[..|pages| - 1];
      var last := pages[|pages| - 1];
      assert PrefixOk(init, PageRevisions, |init|) by {
        forall j | 0 <= j < |init| ensures PageRevisions(init[j]).Ok? {
          assert init[j] == pages[j];
        }
      }
      PageEntriesLineUp(init);
      var e0 := Collect(init, EntriesOf(PageRevisions));
      var e := Collect(pages, EntriesOf(PageRevisions));
      assert PageRevisions(last).Ok?;
      assert e == e0 + PageRevisions(last).value;
      FirstsAppend(e0, PageRevisions(last).value);
      forall k
        ensures ValuesOf(e, k) == RevisionsUnder(pages, k)
      {
        assert e[..|e| - 1] == e0;
      }
    }
  }

  // ---------------------------------------------------------------------------
  // parse_revisions_data and parse_revisions_content

  /** `x['revid']: {k: v for k, v in x.items() if k != 'revid'}`: the record of a
      revision under its id, without the id. */
  function RevisionRecord(x: Json): (r: Result<seq<(Json, Json)>>)
    ensures r.Ok? <==> Has(x, "revid")
    ensures r.Err? ==> r.error == KeyError(Str("revid"))
    ensures r.Ok? ==> |r.value| == 1 && r.value[0].0 == x.fields["revid"]
    ensures r.Ok? ==> var rec := r.value[0].1;
      && rec.Obj?
      && rec.fields.Keys == x.fields.Keys - {"revid"}
      && forall k :: k in rec.fields ==> rec.fields[k] == x.fields[k]
  {
    var revid :- Index(x, "revid");
    Ok([(revid, Obj(map k | k in x.fields && k != "revid" :: x.fields[k]))])
  }

  /** `x['revid']: x['slots']['main']['content']`; the id is read first. */
  function RevisionContent(x: Json): (r: Result<seq<(Json, Json)>>)
    ensures r.Ok? <==> Has(x, "revid") && Has(x, "slots") && Has(x.fields["slots"], "main") &&
                       Has(x.fields["slots"].fields["main"], "content")
    ensures r.Err? ==> r.error.KeyError?
    ensures r.Ok? ==> r.value == [(x.fields["revid"], x.fields["slots"].fields["main"].fields["content"])]
  {
    var revid :- Index(x, "revid");
    var slots :- Index(x, "slots");
    var main :- Index(slots, "main");
    var content :- Index(main, "content");
    Ok([(revid, content)])
  }

  /** The entries of every revision of a page, read with `f`, in order. */
  function RevisionEntries(f: Json -> Result<seq<(Json, Json)>>): Json -> Result<seq<(Json, Json)>> {
    page =>
      var revs :- Index(page, "revisions");
      var xs :- Iterable(revs);
      AllEntries(xs, f)
  }

  /** The dict comprehension over `page['revisions']`: a later revision with the same
      id wins. */
  function PageDicts(f: Json -> Result<seq<(Json, Json)>>): Json -> Result<seq<(Json, Json)>> {
    page =>
      var e :- RevisionEntries(f)(page);
      Ok(DictItems(e))
  }

  /** What `parse_revisions_data` (with `RevisionRecord`) and `parse_revisions_content`
      (with `RevisionContent`) return for the awaited result of one query. */
  function RevidDict(data: Result<Json>, f: Json -> Result<seq<(Json, Json)>>): Result<seq<(Json, Json)>> {
    var x :- data;
    var pages :- Iterable(x);
    var batches :- AllEntries(pages, PageDicts(f));
    Ok(DictItems(batches))
  }

  /** The loop both reducers run: each page's comprehension, then `update`. */
  method ParseByRevid(data: Result<Json>, f: Json -> Result<seq<(Json, Json)>>) returns (r: Result<seq<(Json, Json)>>)
    ensures r == RevidDict(data, f)
  {
    var x :- data;
    var pages :- Iterable(x);
    var d: seq<(Json, Json)> := [];
    for i := 0 to |pages|
      invariant PrefixOk(pages, PageDicts(f), i)
      invariant d == DictItems(Collect(pages[..i], EntriesOf(PageDicts(f))))
    {
      var batch := PageDicts(f)(pages[i]);
      if batch.Err? {
        FirstFailure(pages, PageDicts(f), i);
        return Err(batch.error);
      }
      ghost var seen := Collect(pages[..i], EntriesOf(PageDicts(f)));
      UpdateStep(pages, PageDicts(f), i);
      d := Update(d, seen, batch.value);
    }
    AllOk(pages, PageDicts(f));
    r := Ok(d);
  }

  /** `d.update(items)` on the dict that the assignments `seen` built: every item
      assigned in turn. */
  method Update<K(==,!new), V(!new)>(d: seq<(K, V)>, ghost seen: seq<(K, V)>, items: seq<(K, V)>) returns (r: seq<(K, V)>)
    requires d == DictItems(seen)
    ensures r == DictItems(seen + items)
  {
    r := d;
    assert seen + items[..0] == seen;
    for j := 0 to |items|
      invariant r == DictItems(seen + items[..j])
    {
      AssignNext(seen, items, j);
      r := AssignEntry(r, items[j].0, items[j].1);
    }
    assert items[..|items|] == items;
  }

  /** The dict after item `j` of the update is the one before it with that item assigned. */
  lemma AssignNext<K(!new), V(!new)>(seen: seq<(K, V)>, items: seq<(K, V)>, j: nat)
    requires j < |items|
    ensures DictItems(seen + items[..j + 1]) == AssignEntry(DictItems(seen + items[..j]), items[j].0, items[j].1)
  {
    var y := seen + items[..j + 1];
    DictItemsLast(y);
    assert y[..|y| - 1] == seen + items[..j];
    assert y[|y| - 1] == items[j];
  }

  /** One more page that does not raise. */
  lemma UpdateStep<E>(xs: seq<Json>, f: Json -> Result<seq<E>>, i: nat)
    requires i < |xs| && f(xs[i]).Ok? && PrefixOk(xs, f, i)
    ensures PrefixOk(xs, f, i + 1)
    ensures Collect(xs[..i + 1], EntriesOf(f)) == Collect(xs[..i], EntriesOf(f)) + f(xs[i]).value
  {
    CollectStep(xs, EntriesOf(f), i);
  }

  /** `parse_revisions_data`. */
  method ParseRevisionsData(data: Result<Json>) returns (r: Result<seq<(Json, Json)>>)
    ensures r == RevidDict(data, RevisionRecord)
  {
    r := ParseByRevid(data, RevisionRecord);
  }

  /** `parse_revisions_content`. */
  method ParseRevisionsContent(data: Result<Json>) returns (r: Result<seq<(Json, Json)>>)
    ensures r == RevidDict(data, RevisionContent)
  {
    r := ParseByRevid(data, RevisionContent);
  }

  /** Updating page by page with each page's comprehension gives the dict that assigning
      every revision's entry in order gives: the ids in the order they first appear,
      each with the entry of its last revision. */
  lemma RevidDictMeaning(pages: seq<Json>, f: Json -> Result<seq<(Json, Json)>>)
    requires RevidDict(Ok(Arr(pages)), f).Ok?
    ensures var d := RevidDict(Ok(Arr(pages)), f).value;
      var all := Collect(pages, EntriesOf(RevisionEntries(f)));
      && Firsts(d) == Dedupe(Firsts(all))
      && FromPairs(d) == FromPairs(all)
  {
    var all := Collect(pages, EntriesOf(RevisionEntries(f)));
    var batches := AllEntries(pages, PageDicts(f));
    assert Iterable(Arr(pages)) == Ok(pages);
    assert RevidDict(Ok(Arr(pages)), f).value == DictItems(batches.value);
    assert batches.value == Collect(pages, EntriesOf(PageDicts(f)));
    PageDictsFlatten(pages, f);
    DictItemsKeys(all);
    DictItemsAgree(all);
  }

  lemma {:induction false} PageDictsFlatten(pages: seq<Json>, f: Json -> Result<seq<(Json, Json)>>)
    requires PrefixOk(pages, PageDicts(f), |pages|)
    ensures DictItems(Collect(pages, EntriesOf(PageDicts(f)))) == DictItems(Collect(pages, EntriesOf(RevisionEntries(f))))
  {
    if pages != [] {
      var init := pages[..|pages| - 1];
      var last := pages[|pages| - 1];
      assert PrefixOk(init, PageDicts(f), |init|) by {
        forall j | 0 <= j < |init| ensures PageDicts(f)(init[j]).Ok? {
          assert init[j] == pages[j];
        }
      }
      PageDictsFlatten(init, f);
      var a := Collect(init, EntriesOf(PageDicts(f)));
      var b := Collect(init, EntriesOf(RevisionEntries(f)));
      var e := RevisionEntries(f)(last).value;
      assert Collect(pages, EntriesOf(PageDicts(f))) == a + DictItems(e);
      assert Collect(pages, EntriesOf(RevisionEntries(f))) == b + e;
      calc {
        DictItems(a + DictItems(e));
        { DictItemsSuffix(a, e); }
        DictItems(a + e);
        { DictItemsPrefix(a, e); }
        DictItems(DictItems(a) + e);
        DictItems(DictItems(b) + e);
        { DictItemsPrefix(b, e); }
        DictItems(b + e);
      }
    }
  }

  // ---------------------------------------------------------------------------
  // Keying the gathered results

  /** `k[1]` (the title) or `k[0]` (the page id) of a page key. */
  function Project(k: PageKey, byTitle: bool): Json {
    if byTitle then k.1 else k.0
  }

  /** One dict's items re-keyed. */
  function Rekey<V>(d: seq<(PageKey, V)>, byTitle: bool): (r: seq<(Json, V)>)
    ensures |r| == |d| && forall i :: 0 <= i < |d| ==> r[i] == (Project(d[i].0, byTitle), d[i].1)
  {
    seq(|d|, i requires 0 <= i < |d| => (Project(d[i].0, byTitle), d[i].1))
  }

  /** The re-keyed items of all the dicts, in order. */
  function Rekeyed<V>(data: seq<seq<(PageKey, V)>>, byTitle: bool): seq<(Json, V)> {
    Flatten(seq(|data|, i requires 0 <= i < |data| => Rekey(data[i], byTitle)))
  }

  /** `{k[ix]: v for d in data for k, v in d.items()}`. */
  function Keyed<V(!new)>(data: seq<seq<(PageKey, V)>>, byTitle: bool): (r: seq<(Json, V)>)
    ensures NoDups(Firsts(r))
  {
    DictItems(Rekeyed(data, byTitle))
  }

  lemma RekeyedMember<V>(data: seq<seq<(PageKey, V)>>, byTitle: bool, p: (Json, V))
    ensures p in Rekeyed(data, byTitle) <==>
      exists i, j :: 0 <= i < |data| && 0 <= j < |data[i]| && p == (Project(data[i][j].0, byTitle), data[i][j].1)
  {
    var rekeyed := seq(|data|, i requires 0 <= i < |data| => Rekey(data[i], byTitle));
    FlattenMember(rekeyed, p);
    if p in Rekeyed(data, byTitle) {
      var i :| 0 <= i < |rekeyed| && p in rekeyed[i];
      var j :| 0 <= j < |rekeyed[i]| && rekeyed[i][j] == p;
    }
    if exists i, j :: 0 <= i < |data| && 0 <= j < |data[i]| && p == (Project(data[i][j].0, byTitle), data[i][j].1) {
      var i, j :| 0 <= i < |data| && 0 <= j < |data[i]| && p == (Project(data[i][j].0, byTitle), data[i][j].1);
      assert rekeyed[i][j] == p;
    }
  }

  /** The keyed dict holds exactly the titles (or page ids) of the pages the queries
      returned, each once. */
  lemma KeyedKeys<V(!new)>(data: seq<seq<(PageKey, V)>>, byTitle: bool, t: Json)
    ensures t in Firsts(Keyed(data, byTitle)) <==>
      exists i, j :: 0 <= i < |data| && 0 <= j < |data[i]| && Project(data[i][j].0, byTitle) == t
  {
    var flat := Rekeyed(data, byTitle);
    DictItemsKeys(flat);
    if t in Firsts(flat) {
      var n :| 0 <= n < |flat| && Firsts(flat)[n] == t;
      RekeyedMember(data, byTitle, flat[n]);
    }
    if exists i, j :: 0 <= i < |data| && 0 <= j < |data[i]| && Project(data[i][j].0, byTitle) == t {
      var i, j :| 0 <= i < |data| && 0 <= j < |data[i]| && Project(data[i][j].0, byTitle) == t;
      var p := (t, data[i][j].1);
      RekeyedMember(data, byTitle, p);
      var n :| 0 <= n < |flat| && flat[n] == p;
      assert Firsts(flat)[n] == t;
    }
  }

  /** Each key's value is the value of one of the pages that key names. */
  lemma KeyedValue<V(!new)>(data: seq<seq<(PageKey, V)>>, byTitle: bool, t: Json)
    requires t in FromPairs(Keyed(data, byTitle))
    ensures exists i, j ::
      && 0 <= i < |data| && 0 <= j < |data[i]|
      && Project(data[i][j].0, byTitle) == t && data[i][j].1 == FromPairs(Keyed(data, byTitle))[t]
  {
    var flat := Rekeyed(data, byTitle);
    DictItemsAgree(flat);
    FromPairsValue(flat, t);
    var n :| 0 <= n < |flat| && flat[n] == (t, FromPairs(flat)[t]);
    RekeyedMember(data, byTitle, flat[n]);
  }

  // ---------------------------------------------------------------------------
  // return_props

  /** `{k: g(v) for k, v in items}` for a `g` that may raise: the first value that
      raises ends the comprehension. */
  function MapValues(items: seq<(Json, Json)>, g: Json -> Result<Json>): (r: Result<seq<(Json, Json)>>)
    ensures r.Ok? <==> forall i :: 0 <= i < |items| ==> g(items[i].1).Ok?
    ensures r.Ok? ==>
      && |r.value| == |items|
      && forall i :: 0 <= i < |items| ==> r.value[i] == (items[i].0, g(items[i].1).value)
    ensures r.Err? ==> exists i :: 0 <= i < |items| && g(items[i].1) == Err(r.error)
  {
    if items == [] then Ok([])
    else
      var v :- g(items[0].1);
      var rest := MapValues(items[1..], g);
      if rest.Err? then
        var i :| 0 <= i < |items[1..]| && g(items[1..][i].1) == Err(rest.error);
        assert g(items[i + 1].1) == Err(rest.error);
        Err(rest.error)
      else
        Ok([(items[0].0, v)] + rest.value)
  }

  /** The error is that of the first value that raises. */
  lemma {:induction false} MapValuesFirstError(items: seq<(Json, Json)>, g: Json -> Result<Json>, i: nat)
    requires i < |items| && g(items[i].1).Err?
    requires forall j :: 0 <= j < i ==> g(items[j].1).Ok?
    ensures MapValues(items, g) == Err(g(items[i].1).error)
  {
    if i > 0 {
      MapValuesFirstError(items[1..], g, i - 1);
    }
  }

  /** The property names of `return_props`, as the keys they are compared with. */
  function Names(props: seq<string>): (r: seq<Json>)
    ensures forall k :: k in r <==> exists p :: p in props && k == Str(p)
  {
    var r := seq(|props|, i requires 0 <= i < |props| => Str(props[i]));
    assert forall i :: 0 <= i < |props| ==> r[i] == Str(props[i]);
    r
  }

  /** `{f: x for f, x in v.items() if f in props}`: the fields of a revision that are
      named in `props`. */
  function KeepFields(v: Json, props: seq<string>): (r: Result<Json>)
    ensures r.Ok? <==> v.Obj?
    ensures r.Err? ==> r.error.AttributeError?
    ensures r.Ok? ==>
      && r.value.Obj?
      && r.value.fields.Keys == v.fields.Keys * (set p | p in props)
      && forall f :: f in r.value.fields ==> r.value.fields[f] == v.fields[f]
  {
    if v.Obj? then Ok(Obj(map f | f in v.fields && f in props :: v.fields[f]))
    else Err(AttributeError("object has no attribute 'items'"))
  }

  /** The `return_props` projection as evidently intended: no projection when it is empty,
      each revision reduced to its one named property when it names one, and to the
      fields it names when it names several. */
  function ReturnProps(items: seq<(Json, Json)>, returnProps: Option<seq<string>>): (r: Result<seq<(Json, Json)>>)
    ensures returnProps.None? || returnProps.value == [] ==> r == Ok(items)
    ensures returnProps.Some? && |returnProps.value| == 1 ==>
      var p := returnProps.value[0];
      && (r.Ok? <==> forall i :: 0 <= i < |items| ==> Has(items[i].1, p))
      && (r.Err? ==> r.error == KeyError(Str(p)))
      && (r.Ok? ==>
            && Firsts(r.value) == Firsts(items)
            && forall i :: 0 <= i < |items| ==> r.value[i].1 == items[i].1.fields[p])
    ensures returnProps.Some? && |returnProps.value| > 1 ==>
      && (r.Ok? <==> forall i :: 0 <= i < |items| ==> items[i].1.Obj?)
      && (r.Ok? ==>
            && Firsts(r.value) == Firsts(items)
            && forall i :: 0 <= i < |items| ==>
              && r.value[i].1.Obj?
              && r.value[i].1.fields.Keys == items[i].1.fields.Keys * (set p | p in returnProps.value)
              && forall f :: f in r.value[i].1.fields ==> r.value[i].1.fields[f] == items[i].1.fields[f])
  {
    if returnProps.None? || returnProps.value == [] then Ok(items)
    else if |returnProps.value| == 1 then
      var p := returnProps.value[0];
      MapValues(items, v => Index(v, p))
    else
      var props := returnProps.value;
      MapValues(items, v => KeepFields(v, props))
  }

  /** The projection as written: with several properties it keeps the articles whose
      title (or page id) is one of the property names, and leaves the revisions whole. */
  function ReturnPropsAsWritten(items: seq<(Json, Json)>, returnProps: Option<seq<string>>): (r: Result<seq<(Json, Json)>>)
    ensures returnProps.Some? && |returnProps.value| > 1 ==>
      r.Ok? && forall kv :: kv in r.value <==> kv in items && kv.0 in Names(returnProps.value)
  {
    if returnProps.Some? && |returnProps.value| > 1 then
      var names := Names(returnProps.value);
      Ok(Filter(items, (kv: (Json, Json)) => kv.0 in names))
    else ReturnProps(items, returnProps)
  }

  /** As written, several properties drop every article not named like a property:
      keyed by page id (integers, never equal to a name) nothing is left. */
  lemma AsWrittenDropsArticles(items: seq<(Json, Json)>, props: seq<string>)
    requires |props| > 1
    requires forall i :: 0 <= i < |items| ==> items[i].0 !in Names(props)
    ensures ReturnPropsAsWritten(items, Some(props)).Ok?
    ensures forall kv :: kv !in ReturnPropsAsWritten(items, Some(props)).value
  {
  }

  /** The revision of the example below. */
  function ExampleRevision(): Json {
    Obj(map["timestamp" := Str("2024-01-01T00:00:00Z"), "revid" := Int(1), "comment" := Str("")])
  }

  /** One article, its revision, and `return_props=['timestamp', 'revid']`: as written the
      article is dropped. */
  lemma AsWrittenLosesRevision()
    ensures ReturnPropsAsWritten([(Str("Foo"), ExampleRevision())], Some(["timestamp", "revid"])) == Ok([])
  {
    assert Str("Foo") !in Names(["timestamp", "revid"]);
  }

  /** The intended projection keeps the article, with both named fields. */
  lemma IntendedKeepsRevision()
    ensures ReturnProps([(Str("Foo"), ExampleRevision())], Some(["timestamp", "revid"])) ==
      Ok([(Str("Foo"), Obj(map["timestamp" := Str("2024-01-01T00:00:00Z"), "revid" := Int(1)]))])
  {
    var props := ["timestamp", "revid"];
    var kept := KeepFields(ExampleRevision(), props).value;
    assert kept.fields.Keys == {"timestamp", "revid"};
    assert kept.fields == map["timestamp" := Str("2024-01-01T00:00:00Z"), "revid" := Int(1)];
    var r := ReturnProps([(Str("Foo"), ExampleRevision())], Some(props));
    assert r.Ok? && |r.value| == 1 && r.value[0] == (Str("Foo"), kept);
    assert kept == Obj(map["timestamp" := Str("2024-01-01T00:00:00Z"), "revid" := Int(1)]);
    assert r.value == [(Str("Foo"), kept)];
  }

  // ---------------------------------------------------------------------------
  // Query building

  /** The parameter that names one reference. */
  function RefKey(refs: Api.Refs): string {
    if refs.Titles? then "titles" else "pageids"
  }

  /** The i-th reference, as the value of `RefKey(refs)`. */
  function RefValue(refs: Api.Refs, i: nat): Json
    requires i < Api.RefCount(refs)
  {
    match refs
    case Titles(t) => Str(t[i])
    case PageIds(p) => Int(p[i])
  }

  /** `[{**{key: x}, **r} for x in refs]`: one query per reference; a parameter of `r`
      with the same name would override the reference. */
  function PerReference(refs: Api.Refs, r: Api.Params): (qs: seq<Api.Params>)
    ensures |qs| == Api.RefCount(refs)
    ensures forall i :: 0 <= i < |qs| ==>
      && qs[i].Keys == r.Keys + {RefKey(refs)}
      && (forall k :: k in r ==> qs[i][k] == r[k])
      && (RefKey(refs) !in r ==> Sets(qs[i], RefKey(refs), RefValue(refs, i)))
  {
    seq(Api.RefCount(refs), i requires 0 <= i < Api.RefCount(refs) => map[RefKey(refs) := RefValue(refs, i)] + r)
  }

  /** The query `q` sets parameter `k` to `v`. */
  predicate Sets(q: Api.Params, k: string, v: Json) {
    k in q && q[k] == v
  }

  /** The parameters `get_revision` shares across its queries. */
  function RevisionParams(date: string, props: seq<string>): Api.Params {
    map["prop" := Str("revisions"), "rvdir" := Str("older"), "rvstart" := Str(date),
        "rvlimit" := Int(1), "rvslots" := Str("main"), "rvprop" := Str(Join(props, "|"))]
  }

  /** `get_revision`'s queries: one per title or page id, each asking for the one
      revision at or before `date`. */
  function RevisionQueries(refs: Api.Refs, date: string, props: seq<string>): (qs: seq<Api.Params>)
    ensures |qs| == Api.RefCount(refs)
    ensures forall i :: 0 <= i < |qs| ==>
      && Sets(qs[i], RefKey(refs), RefValue(refs, i))
      && Sets(qs[i], "rvlimit", Int(1))
      && Sets(qs[i], "rvdir", Str("older"))
      && Sets(qs[i], "rvstart", Str(date))
      && Sets(qs[i], "rvprop", Str(Join(props, "|")))
  {
    RevisionParamsSet(refs, date, props);
    PerReference(refs, RevisionParams(date, props))
  }

  lemma RevisionParamsSet(refs: Api.Refs, date: string, props: seq<string>)
    ensures var p := RevisionParams(date, props);
      && RefKey(refs) !in p
      && Sets(p, "rvlimit", Int(1)) && Sets(p, "rvdir", Str("older"))
      && Sets(p, "rvstart", Str(date)) && Sets(p, "rvprop", Str(Join(props, "|")))
  {
  }

  /** The parameters `get_revisions` shares across its queries. */
  function RevisionsParams(start: string, stop: string, props: seq<string>): Api.Params {
    map["prop" := Str("revisions"), "rvdir" := Str("newer"), "rvstart" := Str(start),
        "rvend" := Str(stop), "rvlimit" := Str("max"), "rvslots" := Str("main"),
        "rvprop" := Str(Join(props, "|"))]
  }

  /** `get_revisions`' queries: one per title or page id, each asking for every revision
      from `start` to `stop`, oldest first. */
  function RevisionsQueries(refs: Api.Refs, start: string, stop: string, props: seq<string>): (qs: seq<Api.Params>)
    ensures |qs| == Api.RefCount(refs)
    ensures forall i :: 0 <= i < |qs| ==>
      && Sets(qs[i], RefKey(refs), RefValue(refs, i))
      && Sets(qs[i], "rvlimit", Str("max"))
      && Sets(qs[i], "rvdir", Str("newer"))
      && Sets(qs[i], "rvstart", Str(start))
      && Sets(qs[i], "rvend", Str(stop))
  {
    RevisionsParamsSet(refs, start, stop, props);
    PerReference(refs, RevisionsParams(start, stop, props))
  }

  lemma RevisionsParamsSet(refs: Api.Refs, start: string, stop: string, props: seq<string>)
    ensures var p := RevisionsParams(start, stop, props);
      && RefKey(refs) !in p
      && Sets(p, "rvlimit", Str("max")) && Sets(p, "rvdir", Str("newer"))
      && Sets(p, "rvstart", Str(start)) && Sets(p, "rvend", Str(stop))
  {
  }

  // ---------------------------------------------------------------------------
  // get_revision and get_revisions

  const ExactlyOneMessage := "Must specify exactly one of title or pageid"

  /** `if not x:` for an optional string argument. */
  predicate Given(x: Option<string>) {
    x.Some? && x.value != ""
  }

  /** `get_revision`. `now` stands for `datetime.datetime.now().isoformat()`, and
      `awaited` for what awaiting `query_async` (without continuation) gives for a query. */
  function GetRevisionRun(titles: Option<seq<string>>, pageids: Option<seq<int>>, date: Option<string>,
                          props: seq<string>, returnProps: Option<seq<string>>, now: string,
                          awaited: Api.Params -> Result<Json>): (r: Result<seq<(Json, Json)>>)
    ensures !Api.OneRefKind(titles, pageids) ==> r == Err(ValueError(Str(ExactlyOneMessage)))
  {
    if !Api.OneRefKind(titles, pageids) then Err(ValueError(Str(ExactlyOneMessage)))
    else
      var refs := Api.RefsOf(titles, pageids);
      var queries := RevisionQueries(refs, if Given(date) then date.value else now, props);
      var data :- Api.Gathered(Api.IterateAsyncQuery(queries, q => RevisionInfo(awaited(q))));
      ReturnProps(Keyed(data, refs.Titles?), returnProps)
  }

  /** An item of a successful `parse_revision` is the first revision of one of the pages,
      filed under that page's key. */
  lemma RevisionInfoFrom(pages: seq<Json>, j: nat)
    requires RevisionInfo(Ok(Arr(pages))).Ok? && j < |RevisionInfo(Ok(Arr(pages))).value|
    ensures var kv := RevisionInfo(Ok(Arr(pages))).value[j];
      exists page :: page in pages && KeyOf(page) == Ok(kv.0) && ListAt(page, "revisions") != [] &&
        kv.1 == ListAt(page, "revisions")[0]
  {
    var entries := AllEntries(pages, FirstRevision).value;
    assert RevisionInfo(Ok(Arr(pages))).value == DictItems(entries);
    var kv := DictItems(entries)[j];
    DictItemsFrom(entries, j);
    CollectMember(pages, EntriesOf(FirstRevision), kv);
    var i :| 0 <= i < |pages| && kv in EntriesOf(FirstRevision)(pages[i]);
    var page := pages[i];
    FirstRevisionEntry(page, kv);
    assert page in pages;
  }

  /** The one entry a page contributes is its key and its first revision. */
  lemma FirstRevisionEntry(page: Json, kv: (PageKey, Json))
    requires kv in EntriesOf(FirstRevision)(page)
    ensures KeyOf(page) == Ok(kv.0) && ListAt(page, "revisions") != [] && kv.1 == ListAt(page, "revisions")[0]
  {
    var r := FirstRevision(page);
    assert EntriesOf(FirstRevision)(page) == if r.Ok? then r.value else [];
    assert r.Ok?;
    assert kv == r.value[0];
  }

  /** Every value `get_revision` returns (with no `return_props`) is the first revision
      the API listed for a page whose title (or page id) is the value's key, in the
      answer to one of the queries. */
  lemma GetRevisionSource(titles: Option<seq<string>>, pageids: Option<seq<int>>, date: Option<string>,
                          props: seq<string>, now: string, awaited: Api.Params -> Result<Json>, t: Json)
    requires GetRevisionRun(titles, pageids, date, props, None, now, awaited).Ok?
    requires t in FromPairs(GetRevisionRun(titles, pageids, date, props, None, now, awaited).value)
    ensures Api.OneRefKind(titles, pageids)
    ensures var refs := Api.RefsOf(titles, pageids);
      var queries := RevisionQueries(refs, if Given(date) then date.value else now, props);
      var v := FromPairs(GetRevisionRun(titles, pageids, date, props, None, now, awaited).value)[t];
      exists i, pages, page ::
        && 0 <= i < |queries| && awaited(queries[i]) == Ok(Arr(pages)) && page in pages
        && KeyOf(page).Ok? && Project(KeyOf(page).value, refs.Titles?) == t
        && ListAt(page, "revisions") != [] && v == ListAt(page, "revisions")[0]
  {
    var refs := Api.RefsOf(titles, pageids);
    var queries := RevisionQueries(refs, if Given(date) then date.value else now, props);
    var data: seq<seq<(PageKey, Json)>> := Api.Gathered(Api.IterateAsyncQuery(queries, q => RevisionInfo(awaited(q)))).value;
    assert GetRevisionRun(titles, pageids, date, props, None, now, awaited) == Ok(Keyed(data, refs.Titles?));
    KeyedRevisionFrom(queries, awaited, data, refs.Titles?, t);
  }

  /** The same, for any queries whose answers parse to `data`. */
  lemma KeyedRevisionFrom(queries: seq<Api.Params>, awaited: Api.Params -> Result<Json>,
                          data: seq<seq<(PageKey, Json)>>, byTitle: bool, t: Json)
    requires |data| == |queries| && forall i :: 0 <= i < |queries| ==> RevisionInfo(awaited(queries[i])) == Ok(data[i])
    requires t in FromPairs(Keyed(data, byTitle))
    ensures exists i, pages, page ::
        && 0 <= i < |queries| && awaited(queries[i]) == Ok(Arr(pages)) && page in pages
        && KeyOf(page).Ok? && Project(KeyOf(page).value, byTitle) == t
        && ListAt(page, "revisions") != [] && FromPairs(Keyed(data, byTitle))[t] == ListAt(page, "revisions")[0]
  {
    KeyedValue(data, byTitle, t);
    var i: int, j: int :| && 0 <= i < |data| && 0 <= j < |data[i]|
      && Project(data[i][j].0, byTitle) == t && data[i][j].1 == FromPairs(Keyed(data, byTitle))[t];
    var pages := awaited(queries[i]).value.items;
    assert RevisionInfo(Ok(Arr(pages))) == Ok(data[i]);
    RevisionInfoFrom(pages, j);
  }

  /** `get_revisions` with the defaults it evidently means: `stop` is now and `start`
      thirty days before `stop`. `monthBefore` stands for subtracting thirty days, and
      `awaited` for what awaiting `query_async` (with continuation) gives for a query. */
  function GetRevisionsRun(titles: Option<seq<string>>, pageids: Option<seq<int>>,
                           start: Option<string>, stop: Option<string>, props: seq<string>,
                           now: string, monthBefore: string -> string,
                           awaited: Api.Params -> Result<Json>): (r: Result<seq<(Json, seq<Json>)>>)
    ensures !Api.OneRefKind(titles, pageids) ==> r == Err(ValueError(Str(ExactlyOneMessage)))
  {
    if !Api.OneRefKind(titles, pageids) then Err(ValueError(Str(ExactlyOneMessage)))
    else
      var refs := Api.RefsOf(titles, pageids);
      var queries := RevisionsQueries(refs, StartOf(start, stop, now, monthBefore), StopOf(stop, now), props);
      var data :- Api.Gathered(Api.IterateAsyncQuery(queries, q => RevisionsOf(awaited(q))));
      Ok(Keyed(data, refs.Titles?))
  }

  /** The end of the range: `stop`, or now. */
  function StopOf(stop: Option<string>, now: string): string {
    if Given(stop) then stop.value else now
  }

  /** The start of the range: `start`, or thirty days before its end. */
  function StartOf(start: Option<string>, stop: Option<string>, now: string, monthBefore: string -> string): string {
    if Given(start) then start.value else monthBefore(StopOf(stop, now))
  }

  /** Without `stop`, the range ends now; without `start`, it begins thirty days before
      its end. */
  lemma RangeDefaults(start: Option<string>, stop: Option<string>, now: string, monthBefore: string -> string)
    ensures !Given(stop) ==> StopOf(stop, now) == now
    ensures !Given(start) && !Given(stop) ==> StartOf(start, stop, now, monthBefore) == monthBefore(now)
    ensures !Given(start) && Given(stop) ==> StartOf(start, stop, now, monthBefore) == monthBefore(stop.value)
  {
  }

  /** `get_revisions` as written: the module imports `datetime` and calls
      `datetime.now()` on it, which raises AttributeError, and `timedelta` is never
      imported, which raises NameError; both defaults fail. */
  function GetRevisionsRunAsWritten(titles: Option<seq<string>>, pageids: Option<seq<int>>,
                                    start: Option<string>, stop: Option<string>, props: seq<string>,
                                    awaited: Api.Params -> Result<Json>): (r: Result<seq<(Json, seq<Json>)>>)
    ensures Api.OneRefKind(titles, pageids) && !Given(stop) ==> r.Err? && r.error.AttributeError?
    ensures Api.OneRefKind(titles, pageids) && Given(stop) && !Given(start) ==> r == Err(NameError("timedelta"))
  {
    if !Api.OneRefKind(titles, pageids) then Err(ValueError(Str(ExactlyOneMessage)))
    else if !Given(stop) then Err(AttributeError("module 'datetime' has no attribute 'now'"))
    else if !Given(start) then Err(NameError("timedelta"))
    else GetRevisionsRun(titles, pageids, start, stop, props, stop.value, s => s, awaited)
  }

  /** As written, asking for the last month of one title's revisions raises; with the
      intended defaults the same call succeeds when every query's answer parses. */
  lemma DefaultsAsWrittenRaise(now: string, monthBefore: string -> string)
    ensures GetRevisionsRunAsWritten(Some(["Foo"]), None, None, None, ["ids"], q => Ok(Arr([]))).Err?
    ensures GetRevisionsRun(Some(["Foo"]), None, None, None, ["ids"], now, monthBefore, q => Ok(Arr([]))).Ok?
  {
    assert RevisionsOf(Ok(Arr([]))) == Ok([]);
  }

  // ---------------------------------------------------------------------------
  // get_revisions_data and get_revisions_content

  /** The `revids` argument: one id, wrapped into a list, or a list of ids. */
  datatype Revids = OneRevid(id: int) | RevidList(ids: seq<int>)

  function RevidsList(revids: Revids): seq<int> {
    match revids
    case OneRevid(id) => [id]
    case RevidList(ids) => ids
  }

  /** `list(chunks(sorted(set(revids)), 50))`. */
  function RevidBatches(revids: Revids): seq<seq<int>> {
    Tools.Chunks(SortedSet(RevidsList(revids)), 50)
  }

  /** Every distinct id is asked for exactly once: the batches hold one to fifty ids, and
      read in order they list the distinct ids in ascending order. */
  lemma RevidBatchesCover(revids: Revids)
    ensures var batches := RevidBatches(revids);
      && StrictlyIncreasing(Flatten(batches))
      && (forall x :: x in Flatten(batches) <==> x in RevidsList(revids))
      && forall i :: 0 <= i < |batches| ==> 1 <= |batches[i]| <= 50
  {
    var batches := RevidBatches(revids);
    Tools.ChunksConcat(SortedSet(RevidsList(revids)), 50);
    forall i | 0 <= i < |batches|
      ensures 1 <= |batches[i]| <= 50
    {
      Tools.ChunkSizes(SortedSet(RevidsList(revids)), 50, i);
    }
  }

  /** One query per batch, naming the batch's ids joined by `|`. */
  function RevidQueries(revids: Revids, rvprop: string): (qs: seq<Api.Params>)
    ensures |qs| == |RevidBatches(revids)|
    ensures forall i :: 0 <= i < |qs| ==>
      && Sets(qs[i], "revids", Str(Join(Api.Strs(RevidBatches(revids)[i]), "|")))
      && Sets(qs[i], "prop", Str("revisions"))
      && Sets(qs[i], "rvprop", Str(rvprop))
  {
    var batches := RevidBatches(revids);
    seq(|batches|, i requires 0 <= i < |batches| =>
      map["revids" := Str(Join(Api.Strs(batches[i]), "|")), "prop" := Str("revisions"),
          "rvslots" := Str("main"), "rvprop" := Str(rvprop)])
  }

  /** `{k: v for d in data for k, v in d.items()}` over the gathered per-query dicts. */
  function Merged(data: seq<seq<(Json, Json)>>): (r: seq<(Json, Json)>)
    ensures NoDups(Firsts(r))
  {
    DictItems(Flatten(data))
  }

  /** `get_revisions_data`: each revision's record without its id, under its id. */
  function GetRevisionsDataRun(revids: Revids, props: seq<string>, awaited: Api.Params -> Result<Json>): Result<seq<(Json, Json)>> {
    var queries := RevidQueries(revids, Join(props, "|"));
    var data :- Api.Gathered(Api.IterateAsyncQuery(queries, q => RevidDict(awaited(q), RevisionRecord)));
    Ok(Merged(data))
  }

  /** `get_revisions_content`: each revision's main-slot content, under its id. */
  function GetRevisionsContentRun(revids: Revids, awaited: Api.Params -> Result<Json>): Result<seq<(Json, Json)>> {
    var queries := RevidQueries(revids, "ids|content");
    var data :- Api.Gathered(Api.IterateAsyncQuery(queries, q => RevidDict(awaited(q), RevisionContent)));
    Ok(Merged(data))
  }

  /** The merged dict holds each id of the per-query dicts once, with the value of its
      last occurrence. */
  lemma MergedMeaning(data: seq<seq<(Json, Json)>>, k: Json)
    ensures k in FromPairs(Merged(data)) <==> exists i, j :: 0 <= i < |data| && 0 <= j < |data[i]| && data[i][j].0 == k
    ensures k in FromPairs(Merged(data)) ==>
      exists i, j :: 0 <= i < |data| && 0 <= j < |data[i]| && data[i][j] == (k, FromPairs(Merged(data))[k])
  {
    var flat := Flatten(data);
    DictItemsAgree(flat);
    if k in FromPairs(flat) {
      FromPairsValue(flat, k);
      var n :| 0 <= n < |flat| && flat[n] == (k, FromPairs(flat)[k]);
      FlattenMember(data, flat[n]);
      var i :| 0 <= i < |data| && flat[n] in data[i];
      var j :| 0 <= j < |data[i]| && data[i][j] == flat[n];
    }
    if exists i, j :: 0 <= i < |data| && 0 <= j < |data[i]| && data[i][j].0 == k {
      var i, j :| 0 <= i < |data| && 0 <= j < |data[i]| && data[i][j].0 == k;
      FlattenMember(data, data[i][j]);
      assert data[i][j] in flat;
    }
  }
}
