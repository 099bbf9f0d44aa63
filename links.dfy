/** src/wikitools/links.py: the `parse_links` reducer and `get_links`, which walks the
    references in batches whose size shrinks after a failed batch and grows back after
    a successful one. The answers of the API, and whether a batch's request fails, are
    inputs: one `Attempt` per pass of the batch loop. */
module Links {
  import opened Wrappers
  import opened JsonValues
  import opened Collections
  import opened Redirects
  import Api
  import Revisions
  import Tools

  type JMap = map<Json, Json>

  /** The `(pageid, title)` key of a page record. */
  type PageKey = (Json, Json)

  /** What `get_links` raises unless exactly one of `titles` and `pageids` is given. */
  const TitlesXorPageids := "Must specify exactly one of titles or pageids"

  // ---------------------------------------------------------------------------
  // parse_links for `links` and `linkshere`: the stream holds debug portions, or pages

  /** An element that is neither a portion (`query`) nor a page (`title`): it resets
      the list of links to None. */
  predicate Dead(x: Json) {
    !Has(x, "query") && !Has(x, "title")
  }

  /** What an element adds to the list of links: a portion its pages, a page itself. */
  function LinkItems(x: Json): seq<Json> {
    if Has(x, "query") then PagesIn(x) else [x]
  }

  /** `{x['title']: x.get('pageid', -1) for x in pages}` of a portion: every page,
      missing or not. */
  function LinkIdPairs(x: Json): (ps: seq<(Json, Json)>)
    ensures |ps| == if Has(x, "query") then |PagesIn(x)| else 0
  {
    if Has(x, "query") then
      var pages := PagesIn(x);
      seq(|pages|, i requires 0 <= i < |pages| => (Field(pages[i], "title"), GetOr(pages[i], "pageid", Int(-1))))
    else []
  }

  /** What `None.extend(..)` and `None.append(..)` raise. */
  const NoExtendMessage := "'NoneType' object has no attribute 'extend'"
  const NoAppendMessage := "'NoneType' object has no attribute 'append'"

  /** One element's effect on the list: a dead element sets it to None; anything else
      appended to or extended onto None raises AttributeError. */
  function LinkStep(acc: Result<Option<seq<Json>>>, x: Json): Result<Option<seq<Json>>> {
    if acc.Err? then acc
    else if Dead(x) then Ok(None)
    else if acc.value.None? then
      Err(AttributeError(if Has(x, "query") then NoExtendMessage
                         else NoAppendMessage))
    else Ok(Some(acc.value.value + LinkItems(x)))
  }

  /** The list of links after the elements of `data`, taken in order. */
  function LinkFold(data: seq<Json>): Result<Option<seq<Json>>> {
    if data == [] then Ok(Some([]))
    else LinkStep(LinkFold(data[..|data| - 1]), data[|data| - 1])
  }

  /** Some element is dead. */
  predicate HasDead(data: seq<Json>) {
    exists i :: 0 <= i < |data| && Dead(data[i])
  }

  /** Some element that is not dead comes after a dead one. */
  predicate Revived(data: seq<Json>) {
    exists i, j :: 0 <= i < j < |data| && Dead(data[i]) && !Dead(data[j])
  }

  /** The list is every portion's pages and every page, in order, when no element is
      dead; None when dead elements come only at the end; and AttributeError when a
      live element follows a dead one. */
  lemma {:induction false} LinkFoldMeaning(data: seq<Json>)
    ensures LinkFold(data).Err? <==> Revived(data)
    ensures LinkFold(data).Err? ==> LinkFold(data).error.AttributeError?
    ensures LinkFold(data) == Ok(None) <==> HasDead(data) && !Revived(data)
    ensures !HasDead(data) ==> LinkFold(data) == Ok(Some(Collect(data, LinkItems)))
  {
    if data != [] {
      var init, x := data[..|data| - 1], data[|data| - 1];
      LinkFoldMeaning(init);
      assert forall i :: 0 <= i < |init| ==> data[i] == init[i];
      if Revived(init) {
        var i, j :| 0 <= i < j < |init| && Dead(init[i]) && !Dead(init[j]);
        assert Dead(data[i]) && !Dead(data[j]);
      }
      if HasDead(init) {
        var i :| 0 <= i < |init| && Dead(init[i]);
        assert Dead(data[i]);
      }
      if Revived(data) && !Revived(init) {
        var i, j :| 0 <= i < j < |data| && Dead(data[i]) && !Dead(data[j]);
        assert j == |data| - 1;
        assert HasDead(init);
      }
      if HasDead(data) && !HasDead(init) {
        assert Dead(x);
      }
    }
  }

  /** Once AttributeError is raised, the rest of the stream does not matter. */
  lemma {:induction false} LinkFoldErrSticks(data: seq<Json>, i: nat)
    requires i <= |data|
    requires LinkFold(data[..i]).Err?
    ensures LinkFold(data) == LinkFold(data[..i])
    decreases |data| - i
  {
    if i < |data| {
      assert data[..i + 1][..i] == data[..i];
      LinkFoldErrSticks(data, i + 1);
    } else {
      assert data[..i] == data;
    }
  }

  /** What `parse_links` returns for `links` and `linkshere`. */
  datatype LinkBatch = LinkBatch(links: Option<seq<Json>>, redirects: JMap, norms: JMap, ids: JMap)

  /** The reading of `parse_links` for `links` and `linkshere`. */
  function LinkBatchOf(data: seq<Json>): Result<LinkBatch> {
    var links := LinkFold(data);
    if links.Err? then Err(links.error)
    else Ok(LinkBatch(links.value, FromPairs(Collect(data, RedirectPairs)),
                      FromPairs(Collect(data, NormPairs)), FromPairs(Collect(data, LinkIdPairs))))
  }

  /** `parse_links` for `links` and `linkshere`: the list grows by each portion's pages
      or each page, the redirect, normalisation and id maps are updated from each
      portion, and a dead element resets the list to None. */
  method ParseLinkPages(data: seq<Json>) returns (r: Result<LinkBatch>)
    ensures r == LinkBatchOf(data)
  {
    var links: Option<seq<Json>> := Some([]);
    var redirects: JMap, norms: JMap, ids: JMap := map[], map[], map[];
    for i := 0 to |data|
      invariant LinkFold(data[..i]) == Ok(links)
      invariant redirects == FromPairs(Collect(data[..i], RedirectPairs))
      invariant norms == FromPairs(Collect(data[..i], NormPairs))
      invariant ids == FromPairs(Collect(data[..i], LinkIdPairs))
    {
      var page := data[i];
      LinkFoldStep(data, i);
      LinkRedirectsStep(data, i);
      LinkNormsStep(data, i);
      LinkIdsStep(data, i);
      if !Has(page, "query") {
        if Has(page, "title") {
          if links.None? {
            LinkFoldErrSticks(data, i + 1);
            return Err(AttributeError(NoAppendMessage));
          }
          links := Some(links.value + [page]);
        } else {
          links := None;
        }
      } else {
        if links.None? {
          LinkFoldErrSticks(data, i + 1);
          return Err(AttributeError(NoExtendMessage));
        }
        links := Some(links.value + PagesIn(page));
        redirects := redirects + FromPairs(FromToPairs(RedirectEntries(page)));
        redirects := redirects + FromPairs(Collect(PagesIn(page), MissingPair));
        norms := norms + FromPairs(NormPairs(page));
        ids := ids + FromPairs(LinkIdPairs(page));
      }
    }
    assert data[..|data|] == data;
    return Ok(LinkBatch(links, redirects, norms, ids));
  }

  /** One more element of the stream: its effect on the list of links. */
  lemma LinkFoldStep(data: seq<Json>, i: nat)
    requires i < |data|
    ensures LinkFold(data[..i + 1]) == LinkStep(LinkFold(data[..i]), data[i])
  {
    assert data[..i + 1][..i] == data[..i];
  }

  /** The redirect updates of one element: a page or a dead element changes nothing. */
  lemma LinkRedirectsStep(data: seq<Json>, i: nat)
    requires i < |data|
    ensures var redirects := FromPairs(Collect(data[..i], RedirectPairs));
      var page := data[i];
      FromPairs(Collect(data[..i + 1], RedirectPairs)) ==
        if Has(page, "query") then
          redirects + FromPairs(FromToPairs(RedirectEntries(page))) + FromPairs(Collect(PagesIn(page), MissingPair))
        else redirects
  {
    var page := data[i];
    assert data[..i + 1] == data[..i] + [page];
    var fromTo := FromToPairs(RedirectEntries(page));
    var missing := Collect(PagesIn(page), MissingPair);
    FromPairsCollectSnoc(data[..i], page, RedirectPairs);
    if Has(page, "query") {
      FromPairsAppend(fromTo, missing);
      MapUnionAssoc(FromPairs(Collect(data[..i], RedirectPairs)), FromPairs(fromTo), FromPairs(missing));
    } else {
      assert RedirectPairs(page) == [];
    }
  }

  /** The normalisation updates of one element, likewise. */
  lemma LinkNormsStep(data: seq<Json>, i: nat)
    requires i < |data|
    ensures FromPairs(Collect(data[..i + 1], NormPairs)) ==
      if Has(data[i], "query") then FromPairs(Collect(data[..i], NormPairs)) + FromPairs(NormPairs(data[i]))
      else FromPairs(Collect(data[..i], NormPairs))
  {
    assert data[..i + 1] == data[..i] + [data[i]];
    FromPairsCollectSnoc(data[..i], data[i], NormPairs);
    if !Has(data[i], "query") {
      assert NormPairs(data[i]) == [];
    }
  }

  /** The id updates of one element, likewise. */
  lemma LinkIdsStep(data: seq<Json>, i: nat)
    requires i < |data|
    ensures FromPairs(Collect(data[..i + 1], LinkIdPairs)) ==
      if Has(data[i], "query") then FromPairs(Collect(data[..i], LinkIdPairs)) + FromPairs(LinkIdPairs(data[i]))
      else FromPairs(Collect(data[..i], LinkIdPairs))
  {
    assert data[..i + 1] == data[..i] + [data[i]];
    FromPairsCollectSnoc(data[..i], data[i], LinkIdPairs);
    if !Has(data[i], "query") {
      assert LinkIdPairs(data[i]) == [];
    }
  }

  // ---------------------------------------------------------------------------
  // parse_links for the other properties: pages keyed by (pageid, title)

  /** Every page of the stream has a `pageid` and a `title`. */
  predicate AllKeyed(data: seq<Json>) {
    forall i :: 0 <= i < |data| ==> Revisions.KeyOf(data[i]).Ok?
  }

  /** The KeyError that `(page['pageid'], page['title'])` raises at the first page
      lacking one of them, or None when every page has both. */
  function FirstKeyError(data: seq<Json>): (r: Option<Error>)
    ensures r.None? <==> AllKeyed(data)
    ensures r.Some? ==> r.value.KeyError?
  {
    if data == [] then None
    else
      var key := Revisions.KeyOf(data[0]);
      assert forall i :: 1 <= i < |data| ==> data[i] == data[1..][i - 1];
      if key.Err? then Some(key.error) else FirstKeyError(data[1..])
  }

  /** When page `i` is the first without both fields, its KeyError is the one raised. */
  lemma {:induction false} FirstKeyErrorAt(data: seq<Json>, i: nat)
    requires i < |data| && Revisions.KeyOf(data[i]).Err?
    requires forall j :: 0 <= j < i ==> Revisions.KeyOf(data[j]).Ok?
    ensures FirstKeyError(data) == Some(Revisions.KeyOf(data[i]).error)
    decreases i
  {
    if i > 0 {
      assert forall j :: 0 <= j < i - 1 ==> data[1..][j] == data[j + 1];
      FirstKeyErrorAt(data[1..], i - 1);
    }
  }

  /** `{(page['pageid'], page['title']): page.get(prop, [])}` for each page in turn. */
  function PropEntries(data: seq<Json>, prop: string): (es: seq<(PageKey, seq<Json>)>)
    requires AllKeyed(data)
    ensures |es| == |data|
    ensures forall i :: 0 <= i < |data| ==>
      es[i] == ((data[i].fields["pageid"], data[i].fields["title"]), ListAt(data[i], prop))
  {
    seq(|data|, i requires 0 <= i < |data| => (Revisions.KeyOf(data[i]).value, ListAt(data[i], prop)))
  }

  /** Each language link as a `(lang, [title])` entry. */
  function LangEntries(v: seq<Json>): (es: seq<(Json, seq<Json>)>)
    ensures |es| == |v|
    ensures forall i :: 0 <= i < |v| ==> es[i] == (Field(v[i], "lang"), [Field(v[i], "title")])
  {
    seq(|v|, i requires 0 <= i < |v| => (Field(v[i], "lang"), [Field(v[i], "title")]))
  }

  /** A value of the links dicts: the pages of a `links`/`linkshere` query (or None),
      the records of another property, or language links grouped by language. */
  datatype LinkValue =
    | PageList(pages: Option<seq<Json>>)
    | Records(items: seq<Json>)
    | ByLang(langs: seq<(Json, seq<Json>)>)

  /** The reading of `parse_links` for a property other than `links`/`linkshere`, when
      every page has its key. */
  function KeyedLinks(data: seq<Json>, prop: string): seq<(PageKey, LinkValue)>
    requires AllKeyed(data)
  {
    var g := GroupPairs(PropEntries(data, prop));
    if prop == "langlinks" then
      seq(|g|, i requires 0 <= i < |g| => (g[i].0, ByLang(GroupPairs(LangEntries(g[i].1)))))
    else
      seq(|g|, i requires 0 <= i < |g| => (g[i].0, Records(g[i].1)))
  }

  /** One more keyed page extends the grouped dict of the pages before it by its entry. */
  lemma GroupPropStep(data: seq<Json>, prop: string, i: nat)
    requires i < |data| && AllKeyed(data[..i]) && Revisions.KeyOf(data[i]).Ok?
    ensures AllKeyed(data[..i + 1])
    ensures GroupPairs(PropEntries(data[..i + 1], prop)) ==
      ExtendEntry(GroupPairs(PropEntries(data[..i], prop)), Revisions.KeyOf(data[i]).value, ListAt(data[i], prop))
  {
    var page, d := data[i], data[..i + 1];
    assert d == data[..i] + [page];
    forall j | 0 <= j < i + 1
      ensures Revisions.KeyOf(d[j]).Ok?
    {
      if j < i {
        assert d[j] == data[..i][j];
      }
    }
    var es := PropEntries(data[..i], prop);
    assert PropEntries(data[..i + 1], prop) == es + [(Revisions.KeyOf(page).value, ListAt(page, prop))];
    GroupPairsSnoc(es, (Revisions.KeyOf(page).value, ListAt(page, prop)));
  }

  /** The first loop of `parse_links` for the other properties: a repeated page key
      extends its list, and the first page without `pageid` or `title` raises KeyError. */
  method GroupPropLinks(data: seq<Json>, prop: string) returns (r: Result<seq<(PageKey, seq<Json>)>>)
    ensures r.Ok? <==> AllKeyed(data)
    ensures r.Ok? ==> r.value == GroupPairs(PropEntries(data, prop))
    ensures r.Err? ==> FirstKeyError(data) == Some(r.error)
  {
    var links := [];
    for i := 0 to |data|
      invariant AllKeyed(data[..i])
      invariant links == GroupPairs(PropEntries(data[..i], prop))
    {
      var page := data[i];
      var key := Revisions.KeyOf(page);
      if key.Err? {
        assert forall j :: 0 <= j < i ==> data[..i][j] == data[j];
        FirstKeyErrorAt(data, i);
        return Err(key.error);
      }
      GroupPropStep(data, prop, i);
      links := ExtendEntry(links, key.value, ListAt(page, prop));
    }
    assert data[..|data|] == data;
    return Ok(links);
  }

  /** The inner loop for `langlinks`: one page's links grouped by language. */
  method GroupByLang(v: seq<Json>) returns (byLang: seq<(Json, seq<Json>)>)
    ensures byLang == GroupPairs(LangEntries(v))
  {
    byLang := [];
    for b := 0 to |v|
      invariant byLang == GroupPairs(LangEntries(v[..b]))
    {
      var l := v[b];
      assert LangEntries(v[..b + 1])[..b] == LangEntries(v[..b]);
      byLang := ExtendEntry(byLang, Field(l, "lang"), [Field(l, "title")]);
    }
    assert v[..|v|] == v;
  }

  /** The `langlinks` reading, entry by entry. */
  lemma LangLinksAt(data: seq<Json>, prop: string, links: seq<(PageKey, seq<Json>)>, r: seq<(PageKey, LinkValue)>)
    requires prop == "langlinks" && AllKeyed(data) && links == GroupPairs(PropEntries(data, prop))
    requires |r| == |links|
    requires forall j :: 0 <= j < |r| ==> r[j] == (links[j].0, ByLang(GroupPairs(LangEntries(links[j].1))))
    ensures r == KeyedLinks(data, prop)
  {
  }

  /** `parse_links` for the other properties: a repeated page key extends its list;
      for `langlinks` each page's links are then grouped by language. A page without
      `pageid` or `title` raises KeyError. */
  method ParseKeyedLinks(data: seq<Json>, prop: string) returns (r: Result<seq<(PageKey, LinkValue)>>)
    ensures r.Ok? <==> AllKeyed(data)
    ensures r.Ok? ==> r.value == KeyedLinks(data, prop)
    ensures r.Err? ==> FirstKeyError(data) == Some(r.error)
  {
    var grouped := GroupPropLinks(data, prop);
    if grouped.Err? {
      return Err(grouped.error);
    }
    var links := grouped.value;
    if prop == "langlinks" {
      ghost var want := seq(|links|, j requires 0 <= j < |links| => (links[j].0, ByLang(GroupPairs(LangEntries(links[j].1)))));
      var entries := [];
      for a := 0 to |links|
        invariant entries == want[..a]
      {
        var byLang := GroupByLang(links[a].1);
        SnocPrefix(want, a);
        entries := entries + [(links[a].0, ByLang(byLang))];
      }
      assert entries == want;
      LangLinksAt(data, prop, links, entries);
      r := Ok(entries);
    } else {
      r := Ok(seq(|links|, i requires 0 <= i < |links| => (links[i].0, Records(links[i].1))));
    }
  }

  /** Each page key appears once, in order of first arrival, with the lists of all
      pages carrying it concatenated in arrival order; for `langlinks` every page key
      appears, with its links' titles grouped by language in order. */
  lemma KeyedLinksMeaning(data: seq<Json>, prop: string)
    requires AllKeyed(data)
    ensures var r := KeyedLinks(data, prop);
      && Firsts(r) == Dedupe(Firsts(PropEntries(data, prop)))
      && (prop != "langlinks" ==> forall i :: 0 <= i < |r| ==>
            r[i].1 == Records(ValuesOf(PropEntries(data, prop), r[i].0)))
      && (prop == "langlinks" ==> forall i :: 0 <= i < |r| ==>
            var v := ValuesOf(PropEntries(data, prop), r[i].0);
            && r[i].1.ByLang?
            && Firsts(r[i].1.langs) == Dedupe(Firsts(LangEntries(v)))
            && forall j :: 0 <= j < |r[i].1.langs| ==> r[i].1.langs[j].1 == ValuesOf(LangEntries(v), r[i].1.langs[j].0))
  {
    var es := PropEntries(data, prop);
    var g := GroupPairs(es);
    var r := KeyedLinks(data, prop);
    GroupPairsMeaning(es);
    assert Firsts(r) == Firsts(g);
    if prop == "langlinks" {
      forall i | 0 <= i < |r|
        ensures var v := ValuesOf(es, r[i].0);
          Firsts(r[i].1.langs) == Dedupe(Firsts(LangEntries(v)))
          && forall j :: 0 <= j < |r[i].1.langs| ==> r[i].1.langs[j].1 == ValuesOf(LangEntries(v), r[i].1.langs[j].0)
      {
        assert g[i].1 == ValuesOf(es, g[i].0);
        GroupPairsMeaning(LangEntries(g[i].1));
      }
    }
  }

  /** What `parse_links` returns: the tuple for `links`/`linkshere`, a dict otherwise. */
  datatype Parsed = Listed(batch: LinkBatch) | Keyed(entries: seq<(PageKey, LinkValue)>)

  /** The reading of `parse_links(data, prop)`. */
  function ParsedLinks(data: seq<Json>, prop: string): Result<Parsed> {
    if prop == "links" || prop == "linkshere" then
      var b := LinkBatchOf(data);
      if b.Err? then Err(b.error) else Ok(Listed(b.value))
    else
      match FirstKeyError(data)
      case Some(e) => Err(e)
      case None => Ok(Keyed(KeyedLinks(data, prop)))
  }

  /** `parse_links`: a `links`/`linkshere` stream raises AttributeError exactly when a
      live element follows a dead one; for another property the stream raises KeyError
      exactly when some page lacks `pageid` or `title`. */
  method ParseLinks(data: seq<Json>, prop: string) returns (r: Result<Parsed>)
    ensures r == ParsedLinks(data, prop)
    ensures prop == "links" || prop == "linkshere" ==> (r.Err? <==> Revived(data)) && (r.Err? ==> r.error.AttributeError?)
    ensures prop != "links" && prop != "linkshere" ==> (r.Err? <==> !AllKeyed(data)) && (r.Err? ==> r.error.KeyError?)
  {
    if prop == "links" || prop == "linkshere" {
      var b := ParseLinkPages(data);
      LinkFoldMeaning(data);
      if b.Err? {
        return Err(b.error);
      }
      return Ok(Listed(b.value));
    }
    var entries := ParseKeyedLinks(data, prop);
    if entries.Err? {
      return Err(entries.error);
    }
    return Ok(Keyed(entries.value));
  }

  /** A page without `pageid` (a title that does not exist, under `formatversion=2`)
      makes `parse_links` raise `KeyError('pageid')` for any property but
      `links`/`linkshere`, when the pages before it have both fields. */
  lemma MissingPageRaises(data: seq<Json>, prop: string, i: nat)
    requires prop != "links" && prop != "linkshere"
    requires i < |data| && !Has(data[i], "pageid")
    requires forall j :: 0 <= j < i ==> Has(data[j], "pageid") && Has(data[j], "title")
    ensures ParsedLinks(data, prop) == Err(KeyError(Str("pageid")))
  {
    FirstKeyErrorAt(data, i);
  }
  // ---------------------------------------------------------------------------
  // get_links: arguments, modes and parameters

  /** The `mode` argument: one name (`'all'` standing for the five modes) or a list. */
  datatype ModeArg = OneMode(name: string) | ModeList(names: seq<string>)

  /** The `namespaces` argument: `'all'` or a list of namespace numbers. */
  datatype NsArg = AllNamespaces | Namespaces(ids: seq<int>)

  /** An entry of `modedict`; `nsParam` is present for the two generator modes. */
  datatype ModeInfo = ModeInfo(pg: string, pval: string, nsParam: Option<string>, limit: string)

  /** The modes `mode` stands for. */
  function Modes(mode: ModeArg): (ms: seq<string>)
    ensures mode == OneMode("all") ==> ms == ["out", "in", "lang", "interwiki", "ext"]
    ensures mode.OneMode? && mode.name != "all" ==> ms == [mode.name]
    ensures mode.ModeList? ==> ms == mode.names
  {
    match mode
    case OneMode(name) => if name == "all" then ["out", "in", "lang", "interwiki", "ext"] else [name]
    case ModeList(names) => names
  }

  /** `modedict[m]`, None for a name it lacks. */
  function ModeDict(m: string): (r: Option<ModeInfo>)
    ensures r.Some? <==> m in {"out", "in", "lang", "interwiki", "ext"}
    ensures r.Some? ==> (r.value.nsParam.Some? <==> m == "out" || m == "in")
    ensures r.Some? ==> (r.value.pg == "generator" <==> m == "out" || m == "in")
  {
    if m == "out" then Some(ModeInfo("generator", "links", Some("gplnamespace"), "gpllimit"))
    else if m == "in" then Some(ModeInfo("generator", "linkshere", Some("glhnamespace"), "glhlimit"))
    else if m == "lang" then Some(ModeInfo("prop", "langlinks", None, "lllimit"))
    else if m == "interwiki" then Some(ModeInfo("prop", "iwlinks", None, "iwlimit"))
    else if m == "ext" then Some(ModeInfo("prop", "extlinks", None, "ellimit"))
    else None
  }

  /** The namespace parameter: `'*'` for all namespaces, else the numbers pipe-joined. */
  function NsValue(ns: NsArg): string {
    match ns
    case AllNamespaces => "*"
    case Namespaces(ids) => Join(Api.Strs(ids), "|")
  }

  /** The query parameters of a mode. */
  function ModeParams(info: ModeInfo, ns: string, updateMaps: bool): Api.Params {
    var p := map[info.pg := Str(info.pval), info.limit := Str("max"), "redirects" := Bool(updateMaps)];
    if info.nsParam.Some? then p[info.nsParam.value := Str(ns)]
    else p
  }

  // ---------------------------------------------------------------------------
  // The batch size

  /** Where the batch loop stands: the index of the next reference and the batch size. */
  datatype Cursor = Cursor(n: nat, size: nat)

  /** After a successful batch: double up to 100, snap 101 to 199 up to 200. */
  function Grow(b: nat): nat {
    if b <= 100 then 2 * b else if b < 200 then 200 else b
  }

  /** After a failed batch, as written: `batchsize // 2`, which reaches 0. */
  function ShrinkAsWritten(b: nat): nat {
    b / 2
  }

  /** After a failed batch, with the floor at 1 the halving evidently needs. */
  function Shrink(b: nat): nat {
    if b / 2 == 0 then 1 else b / 2
  }

  /** The loop's step as written: success moves on by the size just used. */
  function AdvanceAsWritten(c: Cursor, ok: bool): Cursor {
    if ok then Cursor(c.n + c.size, Grow(c.size)) else Cursor(c.n, ShrinkAsWritten(c.size))
  }

  /** The loop's step with the floor at 1. */
  function Advance(c: Cursor, ok: bool): (d: Cursor)
    ensures ok ==> d.n == c.n + c.size
    ensures !ok ==> d.n == c.n && d.size == (if c.size <= 1 then 1 else c.size / 2)
  {
    if ok then Cursor(c.n + c.size, Grow(c.size)) else Cursor(c.n, Shrink(c.size))
  }

  /** As written, one failure at size 1 leaves size 0, and from then on neither a
      failure nor a success moves the loop: `n` never reaches the end. */
  lemma StallsAsWritten(n: nat)
    ensures AdvanceAsWritten(Cursor(n, 1), false) == Cursor(n, 0)
    ensures forall ok :: AdvanceAsWritten(Cursor(n, 0), ok) == Cursor(n, 0)
  {
  }

  /** With the floor, a size between 1 and 200 stays between 1 and 200, and a success
      always moves the loop on. */
  lemma SizeStaysInRange(c: Cursor, ok: bool)
    requires 1 <= c.size <= 200
    ensures 1 <= Advance(c, ok).size <= 200
    ensures ok ==> Advance(c, ok).n > c.n
  {
  }

  /** From any size between 1 and 200, eight successes in a row bring it back to 200. */
  lemma {:induction false} BackToCeiling(c: Cursor, k: nat)
    requires 1 <= c.size <= 200
    requires k >= 8
    ensures Successes(c, k).size == 200
  {
    SuccessesGrow(c, k);
    Pow2AtLeast(k);
  }

  /** The cursor after `k` successes in a row. */
  function Successes(c: Cursor, k: nat): Cursor {
    if k == 0 then c else Advance(Successes(c, k - 1), true)
  }

  lemma {:induction false} SuccessesGrow(c: Cursor, k: nat)
    requires 1 <= c.size <= 200
    ensures 1 <= Successes(c, k).size <= 200
    ensures Successes(c, k).size == 200 || Successes(c, k).size >= c.size * Pow2(k)
  {
    if k > 0 {
      SuccessesGrow(c, k - 1);
    }
  }

  function Pow2(k: nat): nat {
    if k == 0 then 1 else 2 * Pow2(k - 1)
  }

  lemma {:induction false} Pow2AtLeast(k: nat)
    requires k >= 8
    ensures Pow2(k) >= 256
  {
    if k > 8 {
      Pow2AtLeast(k - 1);
    } else {
      assert Pow2(8) == 256 by {
        assert Pow2(4) == 16;
      }
    }
  }

  // ---------------------------------------------------------------------------
  // get_links: the batch loop of one mode

  /** `xs[n:n+batchsize]`, clipped at the end as a Python slice is. */
  function Slice<T>(xs: seq<T>, c: Cursor): (b: seq<T>)
    ensures |b| <= c.size
  {
    if c.n >= |xs| then [] else xs[c.n..if c.n + c.size <= |xs| then c.n + c.size else |xs|]
  }

  /** `b_titles` and `b_pageids`. */
  function BatchArgs(refs: Api.Refs, c: Cursor): (Option<seq<string>>, Option<seq<int>>) {
    match refs
    case Titles(t) => (Some(Slice(t, c)), None)
    case PageIds(p) => (None, Some(Slice(p, c)))
  }

  /** One pass of the loop as the network answers it: the batch's requests fail, or
      every query of the batch is answered with the list `respond` gives for it (the
      pages, or the portions when `debug` is on). */
  datatype Attempt = Refused | Answered(respond: Api.Params -> seq<Json>)

  /** What the batch loop of one mode works with. */
  datatype Job = Job(refs: Api.Refs, info: ModeInfo, params: Api.Params, updateMaps: bool, process: Api.Processor)

  /** `m in ['out', 'in']`: generator queries, one reference each. */
  predicate Generator(job: Job) {
    job.info.nsParam.Some?
  }

  /** The caller's `redirect_map`, `norm_map` and `id_map`, which `get_links` updates. */
  datatype Maps3 = Maps3(redirectMap: JMap, normMap: JMap, idMap: JMap)

  datatype ModeState = ModeState(cursor: Cursor, links: map<Json, LinkValue>, maps: Maps3)

  /** `norm_map=norm_map, titles_redirect_map=redirect_map`: the maps as they are when
      the batch is planned; `pageids_redirect_map` keeps its default, an empty dict. */
  function ListerMapsOf(maps: Maps3): Api.ListerMaps {
    Api.ListerMaps(maps.normMap, maps.redirectMap, map[])
  }

  /** The `try` block: plan the batch and parse every query's answer; None when
      anything in it raises, which `except Exception` catches. */
  function TryBatch(job: Job, c: Cursor, maps: Maps3, attempt: Attempt): Option<(Api.Plan, seq<Parsed>)> {
    if attempt.Refused? then None
    else
      var args := BatchArgs(job.refs, c);
      var plan := Api.QueryLister(args.0, args.1, None, Generator(job), job.process, ListerMapsOf(maps), job.params);
      if plan.Err? then None
      else
        var data := Api.IterateAsyncQuery(plan.value.queries, q => ParsedLinks(attempt.respond(q), job.info.pval));
        if exists i :: 0 <= i < |data| && data[i].Err? then None
        else Some((plan.value, seq(|data|, i requires 0 <= i < |data| => data[i].value)))
  }

  /** `x[key]` of a query: its pipe-joined batch. */
  function QueryKey(q: Api.Params, key: string): Json {
    if key in q then q[key] else Null
  }

  /** `x[0]` of a parsed `links`/`linkshere` answer. */
  function LinksOf(p: Parsed): Option<seq<Json>> {
    if p.Listed? then p.batch.links else None
  }

  /** `zip(data_keys, [x[0] for x in data])`. */
  function GeneratorLinks(plan: Api.Plan, parsed: seq<Parsed>): seq<(Json, LinkValue)> {
    var n := if |plan.queries| <= |parsed| then |plan.queries| else |parsed|;
    seq(n, i requires 0 <= i < n => (QueryKey(plan.queries[i], plan.key), PageList(LinksOf(parsed[i]))))
  }

  /** `k[ix]` of a `(pageid, title)` key: the page id for 0, the title for 1 (and for
      -1, which counts from the end). */
  function KeyAt(key: PageKey, ix: int): Json {
    if ix == 0 then key.0 else key.1
  }

  /** The same part of a page record: its `pageid` for 0, its `title` otherwise. */
  function PageRef(page: Json, ix: int): Json {
    Field(page, if ix == 0 then "pageid" else "title")
  }

  /** The items `(k[ix], val)` of one parsed dict. */
  function KeyedBy(p: Parsed, ix: int): (r: seq<(Json, LinkValue)>)
    ensures forall x :: x in r <==> p.Keyed? && exists e :: e in p.entries && x == (KeyAt(e.0, ix), e.1)
  {
    if p.Keyed? then
      var r := seq(|p.entries|, i requires 0 <= i < |p.entries| => (KeyAt(p.entries[i].0, ix), p.entries[i].1));
      assert forall e :: e in p.entries ==> (KeyAt(e.0, ix), e.1) in r by {
        forall e | e in p.entries
          ensures (KeyAt(e.0, ix), e.1) in r
        {
          var i :| 0 <= i < |p.entries| && p.entries[i] == e;
          assert r[i] == (KeyAt(e.0, ix), e.1);
        }
      }
      r
    else []
  }

  /** `{k[ix]: val for d in data for k, val in d.items()}`. */
  function PropLinks(parsed: seq<Parsed>, ix: int): seq<(Json, LinkValue)> {
    if parsed == [] then [] else PropLinks(parsed[..|parsed| - 1], ix) + KeyedBy(parsed[|parsed| - 1], ix)
  }

  /** An item of the comprehension comes from one of the parsed dicts, and every item
      of every parsed dict is in it. */
  lemma {:induction false} PropLinksMember(parsed: seq<Parsed>, ix: int, x: (Json, LinkValue))
    ensures x in PropLinks(parsed, ix) <==> exists i :: 0 <= i < |parsed| && x in KeyedBy(parsed[i], ix)
  {
    if parsed != [] {
      var init := parsed[..|parsed| - 1];
      PropLinksMember(init, ix, x);
      assert forall i :: 0 <= i < |init| ==> init[i] == parsed[i];
    }
  }

  /** The three `update` calls for each parsed answer, in order. */
  function MergeMaps(m: Maps3, parsed: seq<Parsed>): Maps3 {
    if parsed == [] then m
    else
      var m' := MergeMaps(m, parsed[..|parsed| - 1]);
      var x := parsed[|parsed| - 1];
      if x.Listed? then Maps3(m'.redirectMap + x.batch.redirects, m'.normMap + x.batch.norms, m'.idMap + x.batch.ids)
      else m'
  }

  /** The keys whose links came back as None: pages that do not exist. */
  function MissingKeys(b: map<Json, LinkValue>): set<Json> {
    set k | k in b && b[k] == PageList(None)
  }

  /** `b_links`: zipped from the query keys in generator modes, keyed by `k[ix]` in the
      others. */
  function BatchLinks(job: Job, plan: Api.Plan, parsed: seq<Parsed>): map<Json, LinkValue> {
    if Generator(job) then FromPairs(GeneratorLinks(plan, parsed)) else FromPairs(PropLinks(parsed, plan.ix))
  }

  /** What a successful batch does: the batch's links join the mode's links; in
      generator modes with `update_maps` the maps take the parsed updates, and then every
      key whose links are None becomes a redirect to None with id -1; otherwise the maps
      are left alone. The cursor moves on by the batch size and the size grows. */
  function ApplyBatch(job: Job, st: ModeState, plan: Api.Plan, parsed: seq<Parsed>): (r: ModeState)
    ensures r.cursor == Advance(st.cursor, true)
    ensures r.links == st.links + BatchLinks(job, plan, parsed)
    ensures Generator(job) && job.updateMaps ==>
      var m := MergeMaps(st.maps, parsed);
      var missing := MissingKeys(BatchLinks(job, plan, parsed));
      && r.maps.normMap == m.normMap
      && r.maps.redirectMap.Keys == m.redirectMap.Keys + missing
      && r.maps.idMap.Keys == m.idMap.Keys + missing
      && (forall k :: k in r.maps.redirectMap ==> r.maps.redirectMap[k] == if k in missing then Null else m.redirectMap[k])
      && (forall k :: k in r.maps.idMap ==> r.maps.idMap[k] == if k in missing then Int(-1) else m.idMap[k])
    ensures !(Generator(job) && job.updateMaps) ==> r.maps == st.maps
  {
    var b := BatchLinks(job, plan, parsed);
    var maps :=
      if Generator(job) && job.updateMaps then
        var m := MergeMaps(st.maps, parsed);
        var missing := MissingKeys(b);
        Maps3(m.redirectMap + map x | x in missing :: Null, m.normMap, m.idMap + map x | x in missing :: Int(-1))
      else st.maps;
    ModeState(Advance(st.cursor, true), st.links + b, maps)
  }

  /** One pass of the loop: a failed batch halves the size and keeps the position. */
  function Step(job: Job, st: ModeState, attempt: Attempt): ModeState {
    var tried := TryBatch(job, st.cursor, st.maps, attempt);
    if tried.None? then st.(cursor := Advance(st.cursor, false))
    else ApplyBatch(job, st, tried.value.0, tried.value.1)
  }

  /** The loop `while n < size`, one attempt per pass, until the references are done
      or the attempts run out; gives the final state and the attempts left. */
  function RunMode(job: Job, st: ModeState, attempts: seq<Attempt>): (ModeState, seq<Attempt>)
    decreases |attempts|
  {
    if st.cursor.n >= Api.RefCount(job.refs) || attempts == [] then (st, attempts)
    else RunMode(job, Step(job, st, attempts[0]), attempts[1..])
  }

  /** The `update` calls for each parsed answer in turn. */
  method MergeAll(m: Maps3, parsed: seq<Parsed>) returns (maps: Maps3)
    ensures maps == MergeMaps(m, parsed)
  {
    maps := m;
    for j := 0 to |parsed|
      invariant maps == MergeMaps(m, parsed[..j])
    {
      var x := parsed[j];
      assert parsed[..j + 1][..j] == parsed[..j];
      if x.Listed? {
        maps := Maps3(maps.redirectMap + x.batch.redirects, maps.normMap + x.batch.norms, maps.idMap + x.batch.ids);
      }
    }
    assert parsed[..|parsed|] == parsed;
  }

  /** The body of a successful pass: the batch's links, the map updates, the cursor. */
  method ApplyBatchStep(job: Job, st: ModeState, plan: Api.Plan, parsed: seq<Parsed>) returns (r: ModeState)
    ensures r == ApplyBatch(job, st, plan, parsed)
  {
    var maps := st.maps;
    var b: map<Json, LinkValue>;
    if Generator(job) {
      b := FromPairs(GeneratorLinks(plan, parsed));
      assert b == BatchLinks(job, plan, parsed);
      if job.updateMaps {
        maps := MergeAll(maps, parsed);
        var missing := MissingKeys(b);
        var m := maps;
        maps := maps.(redirectMap := maps.redirectMap + map x | x in missing :: Null);
        maps := maps.(idMap := maps.idMap + map x | x in missing :: Int(-1));
        assert maps == Maps3(m.redirectMap + map x | x in missing :: Null, m.normMap, m.idMap + map x | x in missing :: Int(-1));
      }
    } else {
      b := FromPairs(PropLinks(parsed, plan.ix));
    }
    var batchsize := st.cursor.size;
    if batchsize <= 100 {
      batchsize := batchsize * 2;
    } else if batchsize < 200 {
      batchsize := 200;
    }
    assert batchsize == Grow(st.cursor.size);
    r := ModeState(Cursor(st.cursor.n + st.cursor.size, batchsize), st.links + b, maps);
  }

  /** The batch loop of `get_links` for one mode. */
  method RunBatches(job: Job, st0: ModeState, attempts: seq<Attempt>) returns (st: ModeState, rest: seq<Attempt>)
    ensures (st, rest) == RunMode(job, st0, attempts)
  {
    st, rest := st0, attempts;
    while st.cursor.n < Api.RefCount(job.refs) && rest != []
      invariant RunMode(job, st, rest) == RunMode(job, st0, attempts)
      decreases |rest|
    {
      var tried := TryBatch(job, st.cursor, st.maps, rest[0]);
      if tried.None? {
        st := st.(cursor := Cursor(st.cursor.n, Shrink(st.cursor.size)));
      } else {
        st := ApplyBatchStep(job, st, tried.value.0, tried.value.1);
      }
      rest := rest[1..];
    }
  }

  /** The mode's links only gain keys, and the size stays between 1 and 200 when it
      starts there. */
  lemma {:induction false} RunModeGrows(job: Job, st: ModeState, attempts: seq<Attempt>)
    requires 1 <= st.cursor.size <= 200
    ensures var r := RunMode(job, st, attempts).0;
      st.links.Keys <= r.links.Keys && 1 <= r.cursor.size <= 200 && st.cursor.n <= r.cursor.n
    decreases |attempts|
  {
    if st.cursor.n < Api.RefCount(job.refs) && attempts != [] {
      var next := Step(job, st, attempts[0]);
      SizeStaysInRange(st.cursor, TryBatch(job, st.cursor, st.maps, attempts[0]).Some?);
      RunModeGrows(job, next, attempts[1..]);
    }
  }

  /** The loop stops only when every reference has been covered or the attempts ran
      out. */
  lemma {:induction false} RunModeStops(job: Job, st: ModeState, attempts: seq<Attempt>)
    ensures var (r, rest) := RunMode(job, st, attempts);
      r.cursor.n >= Api.RefCount(job.refs) || rest == []
    decreases |attempts|
  {
    if st.cursor.n < Api.RefCount(job.refs) && attempts != [] {
      RunModeStops(job, Step(job, st, attempts[0]), attempts[1..]);
    }
  }

  /** One of the three maps the answers update: 0 the redirects, 1 the normalisations,
      2 the ids. */
  function Part(m: Maps3, which: nat): JMap {
    if which == 0 then m.redirectMap else if which == 1 then m.normMap else m.idMap
  }

  /** The same part of one parsed answer. */
  function BatchPart(b: LinkBatch, which: nat): JMap {
    if which == 0 then b.redirects else if which == 1 then b.norms else b.ids
  }

  /** After the `update` calls, a key that answer `i` sets and no later answer sets has
      answer `i`'s value. */
  lemma {:induction false} MergeMapsLast(m: Maps3, parsed: seq<Parsed>, which: nat, i: nat, k: Json)
    requires i < |parsed| && parsed[i].Listed? && k in BatchPart(parsed[i].batch, which)
    requires forall j :: i < j < |parsed| && parsed[j].Listed? ==> k !in BatchPart(parsed[j].batch, which)
    ensures k in Part(MergeMaps(m, parsed), which)
    ensures Part(MergeMaps(m, parsed), which)[k] == BatchPart(parsed[i].batch, which)[k]
  {
    var init := parsed[..|parsed| - 1];
    if i < |init| {
      assert forall j :: i < j < |init| ==> init[j] == parsed[j];
      MergeMapsLast(m, init, which, i, k);
    }
  }

  /** A key that no answer sets keeps its old value, or stays absent. */
  lemma {:induction false} MergeMapsUnset(m: Maps3, parsed: seq<Parsed>, which: nat, k: Json)
    requires forall i :: 0 <= i < |parsed| && parsed[i].Listed? ==> k !in BatchPart(parsed[i].batch, which)
    ensures k in Part(MergeMaps(m, parsed), which) <==> k in Part(m, which)
    ensures k in Part(m, which) ==> Part(MergeMaps(m, parsed), which)[k] == Part(m, which)[k]
  {
    if parsed != [] {
      var init := parsed[..|parsed| - 1];
      assert forall i :: 0 <= i < |init| ==> init[i] == parsed[i];
      MergeMapsUnset(m, init, which, k);
    }
  }

  /** The keys of the parsed dict of one answer are the `(pageid, title)` keys of its
      pages. */
  lemma KeyedLinksFirsts(data: seq<Json>, prop: string)
    requires AllKeyed(data)
    ensures Firsts(KeyedLinks(data, prop)) == Dedupe(Firsts(PropEntries(data, prop)))
  {
    GroupPairsMeaning(PropEntries(data, prop));
  }

  /** An entry of one answer's parsed dict is keyed by the key of one of its pages. */
  lemma KeyedLinksEntryPage(data: seq<Json>, prop: string, e: (PageKey, LinkValue))
    requires AllKeyed(data) && e in KeyedLinks(data, prop)
    ensures exists j :: 0 <= j < |data| && PropEntries(data, prop)[j].0 == e.0
  {
    var r := KeyedLinks(data, prop);
    var es := PropEntries(data, prop);
    KeyedLinksFirsts(data, prop);
    var a :| 0 <= a < |r| && r[a] == e;
    assert Firsts(r)[a] == e.0;
    assert e.0 in Firsts(es);
    var b :| 0 <= b < |es| && Firsts(es)[b] == e.0;
  }

  /** The key of every page of one answer keys an entry of its parsed dict. */
  lemma KeyedLinksPageEntry(data: seq<Json>, prop: string, j: nat)
    requires AllKeyed(data) && j < |data|
    ensures exists e :: e in KeyedLinks(data, prop) && e.0 == PropEntries(data, prop)[j].0
  {
    var r := KeyedLinks(data, prop);
    var es := PropEntries(data, prop);
    KeyedLinksFirsts(data, prop);
    assert Firsts(es)[j] == es[j].0;
    assert es[j].0 in Firsts(r);
    var a :| 0 <= a < |r| && Firsts(r)[a] == es[j].0;
    assert r[a] in r;
  }

  /** `k[ix]` picks out of the parsed dict of one answer the title (or page id) of every
      page, and nothing else. */
  lemma KeyedLinksKeys(data: seq<Json>, prop: string, ix: int, k: Json)
    requires AllKeyed(data)
    ensures (exists e :: e in KeyedLinks(data, prop) && KeyAt(e.0, ix) == k) <==>
      exists j :: 0 <= j < |data| && PageRef(data[j], ix) == k
  {
    var es := PropEntries(data, prop);
    if e :| e in KeyedLinks(data, prop) && KeyAt(e.0, ix) == k {
      KeyedLinksEntryPage(data, prop, e);
      var j :| 0 <= j < |data| && es[j].0 == e.0;
      assert PageRef(data[j], ix) == k;
    }
    if j :| 0 <= j < |data| && PageRef(data[j], ix) == k {
      KeyedLinksPageEntry(data, prop, j);
      var e :| e in KeyedLinks(data, prop) && e.0 == es[j].0;
      assert KeyAt(e.0, ix) == k;
    }
  }

  /** A key of the batch's dict is the title (or page id) of a page of some answer. */
  lemma PropLinksKeyPage(parsed: seq<Parsed>, ix: int, datas: seq<seq<Json>>, prop: string, k: Json)
    requires |parsed| == |datas|
    requires forall i :: 0 <= i < |parsed| ==> AllKeyed(datas[i]) && parsed[i] == Keyed(KeyedLinks(datas[i], prop))
    requires k in FromPairs(PropLinks(parsed, ix))
    ensures exists i, j :: 0 <= i < |datas| && 0 <= j < |datas[i]| && PageRef(datas[i][j], ix) == k
  {
    var ps := PropLinks(parsed, ix);
    var x :| x in ps && x.0 == k;
    PropLinksMember(parsed, ix, x);
    var i :| 0 <= i < |parsed| && x in KeyedBy(parsed[i], ix);
    var e :| e in parsed[i].entries && x == (KeyAt(e.0, ix), e.1);
    KeyedLinksKeys(datas[i], prop, ix, k);
    var j :| 0 <= j < |datas[i]| && PageRef(datas[i][j], ix) == k;
  }

  /** The title (or page id) of a page of any answer is a key of the batch's dict. */
  lemma PropLinksPageKey(parsed: seq<Parsed>, ix: int, datas: seq<seq<Json>>, prop: string, i: nat, j: nat)
    requires |parsed| == |datas|
    requires forall i :: 0 <= i < |parsed| ==> AllKeyed(datas[i]) && parsed[i] == Keyed(KeyedLinks(datas[i], prop))
    requires i < |datas| && j < |datas[i]|
    ensures PageRef(datas[i][j], ix) in FromPairs(PropLinks(parsed, ix))
  {
    var k := PageRef(datas[i][j], ix);
    KeyedLinksKeys(datas[i], prop, ix, k);
    var e :| e in parsed[i].entries && KeyAt(e.0, ix) == k;
    var x := (KeyAt(e.0, ix), e.1);
    assert x in KeyedBy(parsed[i], ix);
    PropLinksMember(parsed, ix, x);
  }

  /** Across the parsed dicts of several answers, `k[ix]` picks out the title (or page
      id) of every page of every answer, and nothing else. */
  lemma PropLinksKeys(parsed: seq<Parsed>, ix: int, datas: seq<seq<Json>>, prop: string, k: Json)
    requires |parsed| == |datas|
    requires forall i :: 0 <= i < |parsed| ==> AllKeyed(datas[i]) && parsed[i] == Keyed(KeyedLinks(datas[i], prop))
    ensures k in FromPairs(PropLinks(parsed, ix)) <==>
      exists i, j :: 0 <= i < |datas| && 0 <= j < |datas[i]| && PageRef(datas[i][j], ix) == k
  {
    if k in FromPairs(PropLinks(parsed, ix)) {
      PropLinksKeyPage(parsed, ix, datas, prop, k);
    }
    if i, j :| 0 <= i < |datas| && 0 <= j < |datas[i]| && PageRef(datas[i][j], ix) == k {
      PropLinksPageKey(parsed, ix, datas, prop, i, j);
    }
  }

  /** A batch that succeeds has one parsed answer per query, each the reading of
      `parse_links` of what the network gave for that query. */
  lemma TryBatchParsed(job: Job, c: Cursor, maps: Maps3, attempt: Attempt)
    requires TryBatch(job, c, maps, attempt).Some?
    ensures var (plan, parsed) := TryBatch(job, c, maps, attempt).value;
      && attempt.Answered?
      && |parsed| == |plan.queries|
      && forall i :: 0 <= i < |parsed| ==> ParsedLinks(attempt.respond(plan.queries[i]), job.info.pval) == Ok(parsed[i])
  {
  }

  /** A batch that succeeds was planned from its slice of references after
      `process_articles` ran over it with the maps as they are before the pass: the
      `norm_map` and `redirect_map` that earlier passes updated, and an empty page-id
      map. Each distinct processed reference is in one query of at most the batch size. */
  lemma TryBatchPlan(job: Job, c: Cursor, maps: Maps3, attempt: Attempt)
    requires TryBatch(job, c, maps, attempt).Some?
    ensures var plan := TryBatch(job, c, maps, attempt).value.0;
      var processed := match job.refs
        case Titles(t) => Dedupe(job.process.titles(Slice(t, c), maps.normMap, maps.redirectMap))
        case PageIds(p) => Api.Strs(Dedupe(job.process.pageids(Slice(p, c), map[])));
      var batches := Tools.Chunks(processed, Api.BatchSize(Generator(job)));
      && plan.key == (if job.refs.Titles? then "titles" else "pageids")
      && |plan.queries| == |batches|
      && forall i :: 0 <= i < |batches| ==> plan.queries[i] == Api.QueryArgs(plan.key, batches[i], job.params)
  {
  }

  /** In a mode other than `out`/`in`, a batch that succeeds has parsed every answer
      into the dict of its pages, and the batch's links are keyed by exactly the titles
      (or page ids) of the pages of all its answers. */
  lemma PropBatchLinks(job: Job, c: Cursor, maps: Maps3, attempt: Attempt, k: Json)
    requires !Generator(job) && job.info.pval != "links" && job.info.pval != "linkshere"
    requires TryBatch(job, c, maps, attempt).Some?
    ensures var (plan, parsed) := TryBatch(job, c, maps, attempt).value;
      && attempt.Answered?
      && |parsed| == |plan.queries|
      && (forall i :: 0 <= i < |parsed| ==>
            AllKeyed(attempt.respond(plan.queries[i])) &&
            parsed[i] == Keyed(KeyedLinks(attempt.respond(plan.queries[i]), job.info.pval)))
      && (k in BatchLinks(job, plan, parsed) <==>
            exists i, j :: 0 <= i < |parsed| && 0 <= j < |attempt.respond(plan.queries[i])| &&
              PageRef(attempt.respond(plan.queries[i])[j], plan.ix) == k)
  {
    var (plan, parsed) := TryBatch(job, c, maps, attempt).value;
    TryBatchParsed(job, c, maps, attempt);
    var datas := seq(|parsed|, i requires 0 <= i < |parsed| => attempt.respond(plan.queries[i]));
    forall i | 0 <= i < |parsed|
      ensures AllKeyed(datas[i]) && parsed[i] == Keyed(KeyedLinks(datas[i], job.info.pval))
    {
      assert ParsedLinks(datas[i], job.info.pval) == Ok(parsed[i]);
    }
    PropLinksKeys(parsed, plan.ix, datas, job.info.pval, k);
  }

  /** The mode's links keep every key they have gained, whatever the later passes do. */
  lemma {:induction false} RunModeKeys(job: Job, st: ModeState, attempts: seq<Attempt>)
    ensures st.links.Keys <= RunMode(job, st, attempts).0.links.Keys
    decreases |attempts|
  {
    if st.cursor.n < Api.RefCount(job.refs) && attempts != [] {
      RunModeKeys(job, Step(job, st, attempts[0]), attempts[1..]);
    }
  }

  /** A pass whose batch succeeds adds the batch's links to the mode's links, and every
      key of them is still there when the loop ends: every reference of a successful
      batch is in what `get_links` returns for the mode. */
  lemma RunModeKeepsBatch(job: Job, st: ModeState, attempts: seq<Attempt>)
    requires st.cursor.n < Api.RefCount(job.refs) && attempts != []
    requires TryBatch(job, st.cursor, st.maps, attempts[0]).Some?
    ensures var (plan, parsed) := TryBatch(job, st.cursor, st.maps, attempts[0]).value;
      && Step(job, st, attempts[0]).links == st.links + BatchLinks(job, plan, parsed)
      && BatchLinks(job, plan, parsed).Keys <= RunMode(job, st, attempts).0.links.Keys
  {
    RunModeKeys(job, Step(job, st, attempts[0]), attempts[1..]);
  }

  /** The `try` block as written passes `args=` to `iterate_async_query`, which has no
      such parameter (it is `f_args`): once `querylister` returns, the call raises
      TypeError before any request is sent. */
  function TryBatchAsWritten(job: Job, c: Cursor, maps: Maps3): (r: Result<(Api.Plan, seq<Parsed>)>)
    ensures r.Err? && (r.error.TypeError? || r.error.ValueError?)
  {
    var args := BatchArgs(job.refs, c);
    var plan :- Api.QueryLister(args.0, args.1, None, Generator(job), job.process, ListerMapsOf(maps), job.params);
    Err(TypeError(Api.ArgsKeywordMessage))
  }

  /** The batch loop as written: every pass goes to the `except` branch. */
  function RunModeAsWritten(job: Job, st: ModeState, attempts: seq<Attempt>): (ModeState, seq<Attempt>)
    decreases |attempts|
  {
    if st.cursor.n >= Api.RefCount(job.refs) || attempts == [] then (st, attempts)
    else
      var next := match TryBatchAsWritten(job, st.cursor, st.maps)
        case Err(_) => st.(cursor := AdvanceAsWritten(st.cursor, false))
        case Ok((plan, parsed)) => ApplyBatch(job, st, plan, parsed);
      RunModeAsWritten(job, next, attempts[1..])
  }

  /** As written, a mode with references left never moves on: however the network
      answers, every attempt is spent, no reference is covered and no link is added. */
  lemma {:induction false} ArgsNeverAdvance(job: Job, st: ModeState, attempts: seq<Attempt>)
    requires st.cursor.n < Api.RefCount(job.refs)
    ensures var (r, rest) := RunModeAsWritten(job, st, attempts);
      r.cursor.n == st.cursor.n && r.links == st.links && r.maps == st.maps && rest == []
    decreases |attempts|
  {
    if attempts != [] {
      ArgsNeverAdvance(job, st.(cursor := AdvanceAsWritten(st.cursor, false)), attempts[1..]);
    }
  }

  // ---------------------------------------------------------------------------
  // get_links: the modes

  /** How a run of `get_links` ends: it returns, raises, or the attempts ran out before
      the loop was done. */
  datatype LinksOut = Single(links: map<Json, LinkValue>) | ByMode(byMode: map<string, map<Json, LinkValue>>)
  datatype LinksEnd = Returned(out: LinksOut) | Raised(error: Error) | OutOfAttempts

  /** The state carried from one mode to the next: the batch size is not reset. */
  datatype Progress = Progress(returnDict: map<string, map<Json, LinkValue>>, maps: Maps3, size: nat, attempts: seq<Attempt>)

  datatype Halt = Finished | Threw(error: Error) | Exhausted

  /** `for m in mode`: an unknown mode raises KeyError when reached. */
  function RunModes(modes: seq<string>, refs: Api.Refs, ns: string, updateMaps: bool, process: Api.Processor,
                    p: Progress): (r: (Halt, Progress))
    ensures r.0.Finished? ==> r.1.returnDict.Keys == p.returnDict.Keys + set m | m in modes
    ensures r.0.Threw? ==> r.0.error.KeyError? && exists m :: m in modes && ModeDict(m).None?
    decreases |modes|
  {
    if modes == [] then (Finished, p)
    else
      var m := modes[0];
      var info := ModeDict(m);
      if info.None? then (Threw(KeyError(Str(m))), p)
      else
        var job := Job(refs, info.value, ModeParams(info.value, ns, updateMaps), updateMaps, process);
        var run := RunMode(job, ModeState(Cursor(0, p.size), map[], p.maps), p.attempts);
        if run.0.cursor.n < Api.RefCount(refs) then (Exhausted, p.(maps := run.0.maps, attempts := run.1))
        else
          var r := RunModes(modes[1..], refs, ns, updateMaps, process,
                            Progress(p.returnDict[m := run.0.links], run.0.maps, run.0.cursor.size, run.1));
          assert forall x :: x in modes <==> x == m || x in modes[1..];
          r
  }

  /** The reading of `get_links`: the run's end and the caller's maps afterwards. */
  function GetLinksRun(mode: ModeArg, titles: Option<seq<string>>, pageids: Option<seq<int>>, maps: Maps3,
                       ns: NsArg, updateMaps: bool, batchsize: nat, process: Api.Processor,
                       attempts: seq<Attempt>): (r: (Result<LinksEnd>, Maps3))
    ensures (r.0.Err? && r.0.error.ValueError?) <==> !Api.OneRefKind(titles, pageids)
    ensures !Api.OneRefKind(titles, pageids) ==> r.1 == maps
  {
    if !Api.OneRefKind(titles, pageids) then
      (Err(ValueError(Str(TitlesXorPageids))), maps)
    else
      var refs := Api.RefsOf(titles, pageids);
      var modes := Modes(mode);
      var (halt, p) := RunModes(modes, refs, NsValue(ns), updateMaps, process,
                                Progress(map[], maps, batchsize, attempts));
      match halt
      case Threw(e) => (Err(e), p.maps)
      case Exhausted => (Ok(OutOfAttempts), p.maps)
      case Finished =>
        // with no modes the dict is empty, so `mode[0]` is reached only when there is one
        if modes != [] && |p.returnDict| == 1 then
          (Ok(Returned(Single(p.returnDict[modes[0]]))), p.maps)
        else (Ok(Returned(ByMode(p.returnDict))), p.maps)
  }

  /** A KeyError from `get_links` names a mode `modedict` lacks. */
  lemma GetLinksUnknownMode(mode: ModeArg, titles: Option<seq<string>>, pageids: Option<seq<int>>, maps: Maps3,
                            ns: NsArg, updateMaps: bool, batchsize: nat, process: Api.Processor, attempts: seq<Attempt>)
    ensures var r := GetLinksRun(mode, titles, pageids, maps, ns, updateMaps, batchsize, process, attempts).0;
      r.Err? && r.error.KeyError? ==> exists m :: m in Modes(mode) && ModeDict(m).None?
  {
  }

  /** What `get_links` returns: a single mapping exactly when one distinct mode was asked
      for, and otherwise the mapping by mode, with every mode asked for as a key. */
  lemma GetLinksReturned(mode: ModeArg, titles: Option<seq<string>>, pageids: Option<seq<int>>, maps: Maps3,
                         ns: NsArg, updateMaps: bool, batchsize: nat, process: Api.Processor, attempts: seq<Attempt>)
    ensures var r := GetLinksRun(mode, titles, pageids, maps, ns, updateMaps, batchsize, process, attempts).0;
      && (r.Ok? && r.value.Returned? ==> (r.value.out.Single? <==> |set m | m in Modes(mode)| == 1))
      && (r.Ok? && r.value.Returned? && r.value.out.ByMode? ==> r.value.out.byMode.Keys == set m | m in Modes(mode))
  {
    if Api.OneRefKind(titles, pageids) {
      var modes := Modes(mode);
      var run := RunModes(modes, Api.RefsOf(titles, pageids), NsValue(ns), updateMaps, process,
                          Progress(map[], maps, batchsize, attempts));
      if run.0.Finished? {
        ReturnedShape(modes, run.1.returnDict);
      }
    }
  }

  /** A dict keyed by the modes asked for has one key exactly when one distinct mode was
      asked for, and then it is the first. */
  lemma ReturnedShape<V>(modes: seq<string>, d: map<string, V>)
    requires d.Keys == set m | m in modes
    ensures (modes != [] && |d| == 1) <==> |set m | m in modes| == 1
    ensures modes != [] ==> modes[0] in d
  {
    assert |d| == |d.Keys|;
    if modes != [] {
      assert modes[0] in d.Keys;
    }
  }

  /** The loop over the modes. */
  method RunAllModes(modes: seq<string>, refs: Api.Refs, ns: string, updateMaps: bool, process: Api.Processor,
                     p0: Progress) returns (halt: Halt, p: Progress)
    ensures (halt, p) == RunModes(modes, refs, ns, updateMaps, process, p0)
  {
    p := p0;
    for i := 0 to |modes|
      invariant RunModes(modes[i..], refs, ns, updateMaps, process, p) == RunModes(modes, refs, ns, updateMaps, process, p0)
    {
      var m := modes[i];
      var info := ModeDict(m);
      if info.None? {
        return Threw(KeyError(Str(m))), p;
      }
      var job := Job(refs, info.value, ModeParams(info.value, ns, updateMaps), updateMaps, process);
      var st, rest := RunBatches(job, ModeState(Cursor(0, p.size), map[], p.maps), p.attempts);
      if st.cursor.n < Api.RefCount(refs) {
        return Exhausted, p.(maps := st.maps, attempts := rest);
      }
      p := Progress(p.returnDict[m := st.links], st.maps, st.cursor.size, rest);
      assert modes[i..][1..] == modes[i + 1..];
    }
    assert modes[|modes|..] == [];
    halt := Finished;
  }

  /** `get_links`: the modes in turn, each walking the references in batches; the
      caller's maps are threaded through and returned. */
  method GetLinks(mode: ModeArg, titles: Option<seq<string>>, pageids: Option<seq<int>>, maps0: Maps3,
                  ns: NsArg, updateMaps: bool, batchsize: nat, process: Api.Processor,
                  attempts: seq<Attempt>) returns (end: Result<LinksEnd>, maps: Maps3)
    ensures (end, maps) == GetLinksRun(mode, titles, pageids, maps0, ns, updateMaps, batchsize, process, attempts)
  {
    if !Api.OneRefKind(titles, pageids) {
      return Err(ValueError(Str(TitlesXorPageids))), maps0;
    }
    var refs := Api.RefsOf(titles, pageids);
    var modes := Modes(mode);
    var halt, p := RunAllModes(modes, refs, NsValue(ns), updateMaps, process, Progress(map[], maps0, batchsize, attempts));
    maps := p.maps;
    match halt
    case Threw(e) => end := Err(e);
    case Exhausted => end := Ok(OutOfAttempts);
    case Finished =>
      if modes != [] && |p.returnDict| == 1 {
        end := Ok(Returned(Single(p.returnDict[modes[0]])));
      } else {
        end := Ok(Returned(ByMode(p.returnDict)));
      }
  }
}
