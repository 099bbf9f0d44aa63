/** src/wikitools/dumps.py: the retry policy of `download_table`, the reshaping of
    article date ranges into hourly tables in `get_datelangartdict`, the filtering of
    work already done in `check_rows`, and the reverse redirect map the clickstream
    reader builds. HTTP responses, data frames and timestamps are given as values. */
module Dumps {
  import opened Wrappers
  import opened JsonValues
  import opened Collections

  // ---------------------------------------------------------------------------
  // download_table

  /** An HTTP response: its status code and body. */
  datatype Response = Response(status: int, content: seq<bv8>)

  /** Requests stop after this many responses that are neither 200 nor 404. */
  const MaxFailures := 5

  /** A response that is neither a success nor a 404, after which the request is retried. */
  predicate Retried(respond: nat -> Response, j: nat) {
    respond(j).status != 200 && respond(j).status != 404
  }

  /** The index of the last request made, counting from request `n`: the first one
      answered 200 or 404, or the fifth failure. `respond(j)` is the response to the
      `j`-th request. */
  function LastRequest(respond: nat -> Response, n: nat): (last: nat)
    requires n < MaxFailures
    ensures n <= last < MaxFailures
    ensures forall j :: n <= j < last ==> Retried(respond, j)
    ensures last < MaxFailures - 1 ==> !Retried(respond, last)
    decreases MaxFailures - n
  {
    if !Retried(respond, n) || n == MaxFailures - 1 then n else LastRequest(respond, n + 1)
  }

  /** Requests that were all retried do not change which request is the last. */
  lemma {:induction false} LastRequestAfterRetries(respond: nat -> Response, n: nat)
    requires n < MaxFailures
    requires forall j :: 0 <= j < n ==> Retried(respond, j)
    ensures LastRequest(respond, 0) == LastRequest(respond, n)
  {
    if n > 0 {
      LastRequestAfterRetries(respond, n - 1);
    }
  }

  /** What `download_table` returns: the body of the response that answered 200, and
      only when `ret` is set; None after a 404 or five failures. */
  function Downloaded(respond: nat -> Response, ret: bool): (r: Option<seq<bv8>>)
    ensures r.Some? <==> ret && respond(LastRequest(respond, 0)).status == 200
    ensures r.Some? ==> r.value == respond(LastRequest(respond, 0)).content
  {
    var last := LastRequest(respond, 0);
    if ret && respond(last).status == 200 then Some(respond(last).content) else None
  }

  /** A 404 on the first request ends the download at once, with nothing returned. */
  lemma NotFoundFirst(respond: nat -> Response, ret: bool)
    requires respond(0).status == 404
    ensures LastRequest(respond, 0) == 0 && Downloaded(respond, ret) == None
  {
  }

  /** The download succeeds exactly when some request among the first five answers 200
      and every one before it failed with a status other than 404. */
  lemma {:induction false} DownloadSucceeds(respond: nat -> Response)
    ensures respond(LastRequest(respond, 0)).status == 200 <==>
      exists i :: 0 <= i < MaxFailures && respond(i).status == 200 && forall j :: 0 <= j < i ==> Retried(respond, j)
  {
    var last := LastRequest(respond, 0);
    if exists i :: 0 <= i < MaxFailures && respond(i).status == 200 && forall j :: 0 <= j < i ==> Retried(respond, j) {
      var i :| 0 <= i < MaxFailures && respond(i).status == 200 && forall j :: 0 <= j < i ==> Retried(respond, j);
      assert !Retried(respond, i);
    }
  }

  /** `download_table`: request until a 200, giving up on a 404 or after five other
      failures. Also returns the number of requests made. Writing the body to
      `filepath`, the progress messages and the ten-second pauses are not modelled. */
  method DownloadTable(respond: nat -> Response, ret: bool) returns (result: Option<seq<bv8>>, requests: nat)
    ensures requests == LastRequest(respond, 0) + 1 && requests <= MaxFailures
    ensures result == Downloaded(respond, ret)
  {
    var status := 0;
    var nn := 0;
    var response := Response(0, []);
    requests := 0;
    while status != 200
      invariant status == response.status
      invariant status != 200 ==> requests == nn < MaxFailures && forall j :: 0 <= j < nn ==> Retried(respond, j)
      invariant status == 200 ==> requests == nn + 1 && response == respond(nn) && LastRequest(respond, 0) == nn
      decreases 2 * (MaxFailures - nn) + (if status == 200 then 0 else 1)
    {
      response := respond(requests);
      requests := requests + 1;
      status := response.status;
      LastRequestAfterRetries(respond, nn);
      if status == 404 {
        return None, requests;
      } else if status != 200 {
        nn := nn + 1;
        if nn >= MaxFailures {
          return None, requests;
        }
      }
    }
    if ret {
      return Some(response.content), requests;
    }
    return None, requests;
  }

  // ---------------------------------------------------------------------------
  // The reverse redirect map

  /** The pairs `(x, k)` for the redirects `x` of an article `k`. */
  function Aliases(entry: (string, seq<string>)): seq<(string, string)> {
    Tagged(entry.1, entry.0)
  }

  /** `{x: k for k, v in redirects.items() for x in v}`. */
  function ReverseRedirects(redirects: seq<(string, seq<string>)>): map<string, string> {
    FromPairs(Collect(redirects, Aliases))
  }

  /** Every redirect listed for an article maps back to an article that lists it, and
      nothing else is in the map. */
  lemma ReverseRedirectsMeaning(redirects: seq<(string, seq<string>)>, x: string)
    ensures x in ReverseRedirects(redirects) <==> exists i :: 0 <= i < |redirects| && x in redirects[i].1
    ensures x in ReverseRedirects(redirects) ==>
      exists i :: 0 <= i < |redirects| && x in redirects[i].1 && ReverseRedirects(redirects)[x] == redirects[i].0
  {
    var ps := Collect(redirects, Aliases);
    if x in FromPairs(ps) {
      FromPairsValue(ps, x);
      var n :| 0 <= n < |ps| && ps[n] == (x, FromPairs(ps)[x]);
      CollectMember(redirects, Aliases, ps[n]);
      var i :| 0 <= i < |redirects| && ps[n] in Aliases(redirects[i]);
      TaggedMember(redirects[i].1, redirects[i].0, x, FromPairs(ps)[x]);
    }
    forall i | 0 <= i < |redirects| && x in redirects[i].1
      ensures x in FromPairs(ps)
    {
      TaggedMember(redirects[i].1, redirects[i].0, x, redirects[i].0);
      CollectMember(redirects, Aliases, (x, redirects[i].0));
    }
  }

  /** When the articles' redirect lists do not overlap, each redirect maps to its own
      article. */
  lemma ReverseRedirectsOwn(redirects: seq<(string, seq<string>)>, i: nat, x: string)
    requires i < |redirects| && x in redirects[i].1
    requires forall j :: 0 <= j < |redirects| && j != i ==> x !in redirects[j].1
    ensures x in ReverseRedirects(redirects) && ReverseRedirects(redirects)[x] == redirects[i].0
  {
    ReverseRedirectsMeaning(redirects, x);
  }

  /** A redirect listed under several articles maps to the last of them: the
      comprehension assigns it once per article, and the last assignment stays. */
  lemma {:induction false} ReverseRedirectsLast(redirects: seq<(string, seq<string>)>, i: nat, x: string)
    requires i < |redirects| && x in redirects[i].1
    requires forall j :: i < j < |redirects| ==> x !in redirects[j].1
    ensures x in ReverseRedirects(redirects) && ReverseRedirects(redirects)[x] == redirects[i].0
  {
    var n := |redirects| - 1;
    var init := redirects[..n];
    assert init + [redirects[n]] == redirects;
    FromPairsCollectSnoc(init, redirects[n], Aliases);
    var tagged := Aliases(redirects[n]);
    var t := FromPairs(tagged);
    if i == n {
      TaggedMember(redirects[n].1, redirects[n].0, x, redirects[n].0);
      FromPairsValue(tagged, x);
      TaggedMember(redirects[n].1, redirects[n].0, x, t[x]);
    } else {
      ReverseRedirectsLast(init, i, x);
    }
  }

  // ---------------------------------------------------------------------------
  // get_datelangartdict

  /** Timestamps are whole hours, counted from midnight of some day. */
  type Hour = int

  /** The first and last hour of an article's range, both included. */
  type Span = (Hour, Hour)

  /** For one language, each article with its range. */
  type ArtSpans = seq<(string, Span)>

  /** `langartdict`: each language with its articles' ranges. */
  type LangArtSpans = seq<(string, ArtSpans)>

  /** `redirects`: per language, each article's redirects. */
  type Redirects = map<string, map<string, seq<string>>>

  /** The articles of one hour: per language, each article with its redirects. */
  type Table = map<string, map<string, seq<string>>>

  /** An hour, a language and an article. */
  type Cell = (Hour, string, string)

  /** `floor('D')`: the midnight at or before the hour. */
  function DayFloor(h: Hour): (m: Hour)
    ensures m % 24 == 0 && m <= h < m + 24
  {
    (h / 24) * 24
  }

  /** `ceil('D')`: the midnight at or after the hour. */
  function DayCeil(h: Hour): (m: Hour)
    ensures m % 24 == 0 && h <= m < h + 24
  {
    if h % 24 == 0 then h else DayFloor(h) + 24
  }

  /** The range the hours are taken from: with `days`, from the midnight at or before the
      first hour to the hour before the midnight at or after the last. */
  function Adjusted(span: Span, days: bool): (r: Span)
    ensures !days ==> r == span
    ensures days ==> r.0 % 24 == 0 && (r.1 + 1) % 24 == 0
    ensures days ==> r.0 <= span.0 && span.1 - 24 < r.1 && (span.1 % 24 != 0 ==> span.1 <= r.1)
    ensures days ==> span.0 - 24 < r.0
  {
    if days then (DayFloor(span.0), DayCeil(span.1) - 1) else span
  }

  /** `pd.date_range(first, last, freq='H')`, as cells of one article. */
  function SpanCells(lang: string, art: string, span: Span): (r: set<Cell>)
    ensures forall c :: c in r <==> c.1 == lang && c.2 == art && span.0 <= c.0 <= span.1
  {
    set h | span.0 <= h <= span.1 :: (h, lang, art)
  }

  /** A range one hour longer has one cell more. */
  lemma SpanCellsStep(lang: string, art: string, first: Hour, last: Hour)
    requires first <= last
    ensures SpanCells(lang, art, (first, last)) == SpanCells(lang, art, (first, last - 1)) + {(last, lang, art)}
  {
  }

  /** The cells of the articles of one language. */
  function ArtCells(lang: string, arts: ArtSpans, days: bool): set<Cell> {
    if arts == [] then {}
    else
      var (art, span) := arts[|arts| - 1];
      ArtCells(lang, arts[..|arts| - 1], days) + SpanCells(lang, art, Adjusted(span, days))
  }

  /** The cells of all the languages. */
  function LangCells(spans: LangArtSpans, days: bool): set<Cell> {
    if spans == [] then {}
    else
      var (lang, arts) := spans[|spans| - 1];
      LangCells(spans[..|spans| - 1], days) + ArtCells(lang, arts, days)
  }

  /** An article of a language covers an hour. */
  predicate Covers(spans: LangArtSpans, days: bool, i: nat, j: nat, c: Cell)
    requires i < |spans| && j < |spans[i].1|
  {
    var span := Adjusted(spans[i].1[j].1, days);
    spans[i].0 == c.1 && spans[i].1[j].0 == c.2 && span.0 <= c.0 <= span.1
  }

  lemma {:induction false} ArtCellsMeaning(lang: string, arts: ArtSpans, days: bool, c: Cell)
    ensures c in ArtCells(lang, arts, days) <==> exists j ::
      && 0 <= j < |arts|
      && lang == c.1
      && arts[j].0 == c.2
      && Adjusted(arts[j].1, days).0 <= c.0 <= Adjusted(arts[j].1, days).1
  {
    if arts != [] {
      var init := arts[..|arts| - 1];
      ArtCellsMeaning(lang, init, days, c);
      assert forall j :: 0 <= j < |init| ==> init[j] == arts[j];
    }
  }

  /** A cell is in the table exactly when some article of its language covers its hour. */
  lemma {:induction false} LangCellsMeaning(spans: LangArtSpans, days: bool, c: Cell)
    ensures c in LangCells(spans, days) <==> exists i, j ::
      && 0 <= i < |spans|
      && 0 <= j < |spans[i].1|
      && Covers(spans, days, i, j, c)
  {
    if spans != [] {
      var init := spans[..|spans| - 1];
      var n := |spans| - 1;
      LangCellsMeaning(init, days, c);
      ArtCellsMeaning(spans[n].0, spans[n].1, days, c);
      assert forall i :: 0 <= i < |init| ==> init[i] == spans[i];
      if c in LangCells(init, days) {
        var i, j :| 0 <= i < |init| && 0 <= j < |init[i].1| && Covers(init, days, i, j, c);
        assert Covers(spans, days, i, j, c);
      } else if c in ArtCells(spans[n].0, spans[n].1, days) {
        var j :| 0 <= j < |spans[n].1| && spans[n].0 == c.1 && spans[n].1[j].0 == c.2 &&
          Adjusted(spans[n].1[j].1, days).0 <= c.0 <= Adjusted(spans[n].1[j].1, days).1;
        assert Covers(spans, days, n, j, c);
      }
      if exists i, j :: 0 <= i < |spans| && 0 <= j < |spans[i].1| && Covers(spans, days, i, j, c) {
        var i, j :| 0 <= i < |spans| && 0 <= j < |spans[i].1| && Covers(spans, days, i, j, c);
        if i < n {
          assert Covers(init, days, i, j, c);
        }
      }
    }
  }

  /** `redirects[lang][art]` is there. */
  predicate Listed(redirects: Redirects, lang: string, art: string) {
    lang in redirects && art in redirects[lang]
  }

  /** The error `redirects[lang][art]` raises. */
  function MissingKey(redirects: Redirects, lang: string, art: string): Error {
    if lang !in redirects then KeyError(Str(lang)) else KeyError(Str(art))
  }

  /** An article whose range has an hour but no redirects entry. */
  predicate Fails(redirects: Redirects, lang: string, entry: (string, Span), days: bool) {
    Adjusted(entry.1, days).0 <= Adjusted(entry.1, days).1 && !Listed(redirects, lang, entry.0)
  }

  /** `alldatetimes`: a dict from hours to tables, with its keys in insertion order. */
  datatype Hourly = Hourly(tables: map<Hour, Table>, order: seq<Hour>)

  /** The keys listed are the keys of the dict. */
  ghost predicate Keyed(acc: Hourly) {
    forall h :: h in acc.order <==> h in acc.tables
  }

  /** The dict has an entry for the cell. */
  predicate Holds(tables: map<Hour, Table>, c: Cell) {
    c.0 in tables && c.1 in tables[c.0] && c.2 in tables[c.0][c.1]
  }

  /** The dict holds exactly the cells `base` holds and those of `cells`. */
  ghost predicate HoldsExactly(tables: map<Hour, Table>, base: map<Hour, Table>, cells: set<Cell>) {
    forall c :: Holds(tables, c) <==> Holds(base, c) || c in cells
  }

  /** Every cell holds the redirects of its article. */
  ghost predicate Consistent(tables: map<Hour, Table>, redirects: Redirects) {
    forall c :: Holds(tables, c) ==> Listed(redirects, c.1, c.2) && tables[c.0][c.1][c.2] == redirects[c.1][c.2]
  }

  /** No hour has an empty table and no language an empty dict of articles: every inner
      dict is created just before a cell is put in it. */
  ghost predicate NoEmpty(tables: map<Hour, Table>) {
    forall h :: h in tables ==> tables[h] != map[] && forall l :: l in tables[h] ==> tables[h][l] != map[]
  }

  /** Holding cells in two steps. */
  lemma HoldsStep(now: map<Hour, Table>, cur: map<Hour, Table>, base: map<Hour, Table>, done: set<Cell>, added: set<Cell>)
    requires HoldsExactly(now, cur, added) && HoldsExactly(cur, base, done)
    ensures HoldsExactly(now, base, done + added)
  {
  }

  /** `alldatetimes[d][lang][art] = v`, creating the inner dicts as needed. */
  function Put(acc: Hourly, d: Hour, lang: string, art: string, v: seq<string>): (r: Hourly)
    ensures Keyed(acc) ==> Keyed(r)
    ensures NoEmpty(acc.tables) ==> NoEmpty(r.tables)
    ensures d in r.tables && lang in r.tables[d] && art in r.tables[d][lang] && r.tables[d][lang][art] == v
  {
    var row := if d in acc.tables then acc.tables[d] else map[];
    var arts := if lang in row then row[lang] else map[];
    assert art in arts[art := v];
    PutNoEmpty(acc.tables, d, row, lang, arts[art := v]);
    Hourly(acc.tables[d := row[lang := arts[art := v]]], if d in acc.tables then acc.order else acc.order + [d])
  }

  /** Setting a cell leaves no table and no language's dict empty. */
  lemma PutNoEmpty(tables: map<Hour, Table>, d: Hour, row: Table, lang: string, arts: map<string, seq<string>>)
    requires row == if d in tables then tables[d] else map[]
    requires arts != map[]
    ensures NoEmpty(tables) ==> NoEmpty(tables[d := row[lang := arts]])
  {
    var t := tables[d := row[lang := arts]];
    assert lang in t[d];
    if NoEmpty(tables) {
      forall h | h in t
        ensures t[h] != map[] && forall l :: l in t[h] ==> t[h][l] != map[]
      {
        if h != d {
          assert t[h] == tables[h];
        } else {
          forall l | l in t[h]
            ensures t[h][l] != map[]
          {
            if l != lang {
              assert l in row && t[h][l] == row[l];
            }
          }
        }
      }
    }
  }

  /** Putting a cell adds it and keeps the others, and their redirects. */
  lemma PutCells(acc: Hourly, d: Hour, lang: string, art: string, redirects: Redirects)
    requires Listed(redirects, lang, art)
    ensures var r := Put(acc, d, lang, art, redirects[lang][art]);
      && HoldsExactly(r.tables, acc.tables, {(d, lang, art)})
      && (Consistent(acc.tables, redirects) ==> Consistent(r.tables, redirects))
  {
  }

  /** The inner loop: every hour of the range gets the article's redirects. */
  method AddHours(acc: Hourly, lang: string, art: string, span: Span, redirects: Redirects) returns (r: Result<Hourly>)
    requires Keyed(acc)
    ensures r.Err? <==> span.0 <= span.1 && !Listed(redirects, lang, art)
    ensures r.Err? ==> r.error == MissingKey(redirects, lang, art)
    ensures r.Ok? ==> Keyed(r.value) && HoldsExactly(r.value.tables, acc.tables, SpanCells(lang, art, span))
    ensures r.Ok? && Consistent(acc.tables, redirects) ==> Consistent(r.value.tables, redirects)
    ensures r.Ok? && NoEmpty(acc.tables) ==> NoEmpty(r.value.tables)
  {
    var cur := acc;
    var d := span.0;
    while d <= span.1
      invariant span.0 <= d && (d == span.0 || (d <= span.1 + 1 && Listed(redirects, lang, art)))
      invariant Keyed(cur)
      invariant HoldsExactly(cur.tables, acc.tables, SpanCells(lang, art, (span.0, d - 1)))
      invariant Consistent(acc.tables, redirects) ==> Consistent(cur.tables, redirects)
      invariant NoEmpty(acc.tables) ==> NoEmpty(cur.tables)
      decreases span.1 - d
    {
      if lang !in redirects || art !in redirects[lang] {
        return Err(MissingKey(redirects, lang, art));
      }
      var next := Put(cur, d, lang, art, redirects[lang][art]);
      PutCells(cur, d, lang, art, redirects);
      SpanCellsStep(lang, art, span.0, d);
      HoldsStep(next.tables, cur.tables, acc.tables, SpanCells(lang, art, (span.0, d - 1)), {(d, lang, art)});
      cur := next;
      d := d + 1;
    }
    assert SpanCells(lang, art, (span.0, d - 1)) == SpanCells(lang, art, span);
    return Ok(cur);
  }

  /** Some article of the language fails its redirects lookup. */
  predicate ArtFails(redirects: Redirects, lang: string, arts: ArtSpans, days: bool) {
    exists j :: 0 <= j < |arts| && Fails(redirects, lang, arts[j], days)
  }

  /** Some article of the language fails its redirects lookup with error `e`. */
  predicate ArtFailsWith(redirects: Redirects, lang: string, arts: ArtSpans, days: bool, e: Error) {
    exists j :: 0 <= j < |arts| && Fails(redirects, lang, arts[j], days) && e == MissingKey(redirects, lang, arts[j].0)
  }

  lemma ArtFailsStep(redirects: Redirects, lang: string, arts: ArtSpans, days: bool, j: nat)
    requires j < |arts|
    ensures ArtFails(redirects, lang, arts[..j + 1], days) <==>
      ArtFails(redirects, lang, arts[..j], days) || Fails(redirects, lang, arts[j], days)
  {
    var prefix := arts[..j + 1];
    assert forall k :: 0 <= k < j ==> prefix[k] == arts[..j][k];
    assert prefix[j] == arts[j];
  }

  lemma ArtCellsStep(lang: string, arts: ArtSpans, days: bool, j: nat)
    requires j < |arts|
    ensures ArtCells(lang, arts[..j + 1], days) == ArtCells(lang, arts[..j], days) + SpanCells(lang, arts[j].0, Adjusted(arts[j].1, days))
  {
    assert arts[..j + 1][..j] == arts[..j];
  }

  /** The middle loop: the articles of one language. */
  method AddArticles(acc: Hourly, lang: string, arts: ArtSpans, days: bool, redirects: Redirects) returns (r: Result<Hourly>)
    requires Keyed(acc)
    ensures r.Err? <==> ArtFails(redirects, lang, arts, days)
    ensures r.Err? ==> ArtFailsWith(redirects, lang, arts, days, r.error)
    ensures r.Ok? ==> Keyed(r.value) && HoldsExactly(r.value.tables, acc.tables, ArtCells(lang, arts, days))
    ensures r.Ok? && Consistent(acc.tables, redirects) ==> Consistent(r.value.tables, redirects)
    ensures r.Ok? && NoEmpty(acc.tables) ==> NoEmpty(r.value.tables)
  {
    var cur := acc;
    for j := 0 to |arts|
      invariant Keyed(cur)
      invariant !ArtFails(redirects, lang, arts[..j], days)
      invariant HoldsExactly(cur.tables, acc.tables, ArtCells(lang, arts[..j], days))
      invariant Consistent(acc.tables, redirects) ==> Consistent(cur.tables, redirects)
      invariant NoEmpty(acc.tables) ==> NoEmpty(cur.tables)
    {
      var added := AddHours(cur, lang, arts[j].0, Adjusted(arts[j].1, days), redirects);
      if added.Err? {
        assert Fails(redirects, lang, arts[j], days);
        return Err(added.error);
      }
      ArtCellsStep(lang, arts, days, j);
      ArtFailsStep(redirects, lang, arts, days, j);
      HoldsStep(added.value.tables, cur.tables, acc.tables, ArtCells(lang, arts[..j], days),
        SpanCells(lang, arts[j].0, Adjusted(arts[j].1, days)));
      cur := added.value;
    }
    assert arts[..|arts|] == arts;
    return Ok(cur);
  }

  /** Some article of some language fails its redirects lookup. */
  predicate AnyFails(spans: LangArtSpans, days: bool, redirects: Redirects) {
    exists i :: 0 <= i < |spans| && ArtFails(redirects, spans[i].0, spans[i].1, days)
  }

  /** Some article of some language fails its redirects lookup with error `e`. */
  predicate AnyFailsWith(spans: LangArtSpans, days: bool, redirects: Redirects, e: Error) {
    exists i :: 0 <= i < |spans| && ArtFailsWith(redirects, spans[i].0, spans[i].1, days, e)
  }

  lemma AnyFailsStep(spans: LangArtSpans, days: bool, redirects: Redirects, i: nat)
    requires i < |spans|
    ensures AnyFails(spans[..i + 1], days, redirects) <==>
      AnyFails(spans[..i], days, redirects) || ArtFails(redirects, spans[i].0, spans[i].1, days)
  {
    var prefix := spans[..i + 1];
    assert forall k :: 0 <= k < i ==> prefix[k] == spans[..i][k];
    assert prefix[i] == spans[i];
  }

  lemma LangCellsStep(spans: LangArtSpans, days: bool, i: nat)
    requires i < |spans|
    ensures LangCells(spans[..i + 1], days) == LangCells(spans[..i], days) + ArtCells(spans[i].0, spans[i].1, days)
  {
    assert spans[..i + 1][..i] == spans[..i];
  }

  /** The outer loop: all the languages. */
  method AddLanguages(spans: LangArtSpans, days: bool, redirects: Redirects) returns (r: Result<Hourly>)
    ensures r.Err? <==> AnyFails(spans, days, redirects)
    ensures r.Err? ==> AnyFailsWith(spans, days, redirects, r.error)
    ensures r.Ok? ==> Keyed(r.value) && HoldsExactly(r.value.tables, map[], LangCells(spans, days)) && Consistent(r.value.tables, redirects)
    ensures r.Ok? ==> NoEmpty(r.value.tables)
  {
    var cur := Hourly(map[], []);
    for i := 0 to |spans|
      invariant Keyed(cur)
      invariant !AnyFails(spans[..i], days, redirects)
      invariant HoldsExactly(cur.tables, map[], LangCells(spans[..i], days))
      invariant Consistent(cur.tables, redirects)
      invariant NoEmpty(cur.tables)
    {
      var added := AddArticles(cur, spans[i].0, spans[i].1, days, redirects);
      if added.Err? {
        return Err(added.error);
      }
      LangCellsStep(spans, days, i);
      AnyFailsStep(spans, days, redirects, i);
      HoldsStep(added.value.tables, cur.tables, map[], LangCells(spans[..i], days), ArtCells(spans[i].0, spans[i].1, days));
      cur := added.value;
    }
    assert spans[..|spans|] == spans;
    return Ok(cur);
  }

  /** `{k: alldatetimes[k] for k in sorted(alldatetimes.keys())}`. */
  function ByHour(all: Hourly): (r: seq<(Hour, Table)>)
    requires Keyed(all)
    ensures forall k, m :: 0 <= k < m < |r| ==> r[k].0 < r[m].0
    ensures forall k :: 0 <= k < |r| ==> r[k].0 in all.tables && r[k].1 == all.tables[r[k].0]
    ensures forall h :: h in all.tables ==> exists k :: 0 <= k < |r| && r[k].0 == h
  {
    var hours := SortedSet(all.order);
    SortedKeys(all, hours);
    var r := seq(|hours|, k requires 0 <= k < |hours| => (hours[k], all.tables[hours[k]]));
    ByHourHours(all, hours, r);
    r
  }

  /** The sorted keys are the keys of the dict. */
  lemma SortedKeys(all: Hourly, hours: seq<Hour>)
    requires Keyed(all)
    requires forall y :: y in hours <==> y in all.order
    ensures forall k :: 0 <= k < |hours| ==> hours[k] in all.tables
  {
    forall k | 0 <= k < |hours|
      ensures hours[k] in all.tables
    {
      var y := hours[k];
      assert y in hours;
      assert y in all.order;
    }
  }

  lemma ByHourHours(all: Hourly, hours: seq<Hour>, r: seq<(Hour, Table)>)
    requires Keyed(all)
    requires forall y :: y in hours <==> y in all.order
    requires |r| == |hours| && forall k :: 0 <= k < |r| ==> r[k].0 == hours[k]
    ensures forall h :: h in all.tables ==> exists k :: 0 <= k < |r| && r[k].0 == h
  {
    forall h | h in all.tables
      ensures exists k :: 0 <= k < |r| && r[k].0 == h
    {
      assert h in all.order;
      assert h in hours;
      var k :| 0 <= k < |hours| && hours[k] == h;
      assert r[k].0 == h;
    }
  }

  /** The cells of the sorted tables are those of the dict. */
  lemma ByHourCells(all: Hourly, c: Cell)
    requires Keyed(all)
    ensures var r := ByHour(all);
      Holds(all.tables, c) <==> exists k :: 0 <= k < |r| && r[k].0 == c.0 && c.1 in r[k].1 && c.2 in r[k].1[c.1]
  {
    var r := ByHour(all);
    if Holds(all.tables, c) {
      assert c.0 in all.tables && c.1 in all.tables[c.0] && c.2 in all.tables[c.0][c.1];
      var k :| 0 <= k < |r| && r[k].0 == c.0;
    }
  }

  /** The sorted tables hold the redirects the dict holds. */
  lemma ByHourConsistent(all: Hourly, redirects: Redirects)
    requires Keyed(all) && Consistent(all.tables, redirects)
    ensures var r := ByHour(all);
      forall k, l, a :: 0 <= k < |r| && l in r[k].1 && a in r[k].1[l] ==> Listed(redirects, l, a) && r[k].1[l][a] == redirects[l][a]
  {
    var r := ByHour(all);
    forall k, l, a | 0 <= k < |r| && l in r[k].1 && a in r[k].1[l]
      ensures Listed(redirects, l, a) && r[k].1[l][a] == redirects[l][a]
    {
      assert Holds(all.tables, (r[k].0, l, a));
    }
  }

  /** The sorted tables are not empty, nor is any language's dict in them. */
  lemma ByHourNoEmpty(all: Hourly)
    requires Keyed(all) && NoEmpty(all.tables)
    ensures var r := ByHour(all);
      forall k :: 0 <= k < |r| ==> r[k].1 != map[] && forall l :: l in r[k].1 ==> r[k].1[l] != map[]
  {
    var r := ByHour(all);
    forall k | 0 <= k < |r|
      ensures r[k].1 != map[] && forall l :: l in r[k].1 ==> r[k].1[l] != map[]
    {
      assert r[k].0 in all.tables && r[k].1 == all.tables[r[k].0];
    }
  }

  /** The hours in increasing order, each with a table that holds exactly the articles
      whose ranges cover the hour, with their redirects; no other hour, language or table
      appears, as no table and no language's dict is empty. */
  ghost predicate HourTables(spans: LangArtSpans, days: bool, redirects: Redirects, r: seq<(Hour, Table)>) {
    && (forall k, m :: 0 <= k < m < |r| ==> r[k].0 < r[m].0)
    && (forall c :: c in LangCells(spans, days) <==> exists k :: 0 <= k < |r| && r[k].0 == c.0 && c.1 in r[k].1 && c.2 in r[k].1[c.1])
    && (forall k, l, a :: 0 <= k < |r| && l in r[k].1 && a in r[k].1[l] ==> Listed(redirects, l, a) && r[k].1[l][a] == redirects[l][a])
    && (forall k :: 0 <= k < |r| ==> r[k].1 != map[] && forall l :: l in r[k].1 ==> r[k].1[l] != map[])
  }

  /** Sorting the dict the loops build gives the hourly tables. */
  lemma ByHourTables(spans: LangArtSpans, days: bool, redirects: Redirects, all: Hourly)
    requires Keyed(all) && HoldsExactly(all.tables, map[], LangCells(spans, days)) && Consistent(all.tables, redirects)
    requires NoEmpty(all.tables)
    ensures HourTables(spans, days, redirects, ByHour(all))
  {
    ByHourConsistent(all, redirects);
    ByHourNoEmpty(all);
    forall c | true
      ensures c in LangCells(spans, days) <==> exists k ::
        && 0 <= k < |ByHour(all)|
        && ByHour(all)[k].0 == c.0
        && c.1 in ByHour(all)[k].1
        && c.2 in ByHour(all)[k].1[c.1]
    {
      ByHourCells(all, c);
    }
  }

  /** `get_datelangartdict`: for every hour some article's range covers, in order of the
      hours, each language with the redirects of its articles that cover the hour.
      KeyError when an article with a non-empty range has no redirects entry. */
  method GetDateLangArtDict(spans: LangArtSpans, redirects: Redirects, days: bool) returns (r: Result<seq<(Hour, Table)>>)
    ensures r.Err? <==> AnyFails(spans, days, redirects)
    ensures r.Err? ==> AnyFailsWith(spans, days, redirects, r.error)
    ensures r.Ok? ==> HourTables(spans, days, redirects, r.value)
  {
    var added := AddLanguages(spans, days, redirects);
    if added.Err? {
      return Err(added.error);
    }
    ByHourTables(spans, days, redirects, added.value);
    return Ok(ByHour(added.value));
  }

  // ---------------------------------------------------------------------------
  // check_rows

  /** A row of an existing pageview table: its hour (the index) and its columns, Null
      standing for a missing value. */
  datatype Row = Row(hour: int, cells: map<string, Json>)

  datatype Frame = Frame(columns: seq<string>, rows: seq<Row>)

  /** The articles (each with its redirects) still to be fetched per language, or the
      languages. */
  type LangDict = seq<(string, seq<(string, Json)>)>

  datatype Checked = Articles(langdict: LangDict) | Languages(langs: seq<string>)

  /** `existing_df.loc[[hour]]`: the rows of that hour, KeyError when there are none. */
  function RowsAt(frame: Frame, hour: int): (r: Result<seq<Row>>)
    ensures r.Ok? <==> exists i :: 0 <= i < |frame.rows| && frame.rows[i].hour == hour
    ensures r.Ok? ==> forall row :: row in r.value <==> row in frame.rows && row.hour == hour
    ensures r.Err? ==> r.error == KeyError(Int(hour))
  {
    var rows := Filter(frame.rows, (row: Row) => row.hour == hour);
    if rows == [] then
      assert forall i :: 0 <= i < |frame.rows| ==> frame.rows[i].hour != hour by {
        forall i | 0 <= i < |frame.rows|
          ensures frame.rows[i].hour != hour
        {
          assert frame.rows[i] in frame.rows;
        }
      }
      Err(KeyError(Int(hour)))
    else
      assert exists i :: 0 <= i < |frame.rows| && frame.rows[i].hour == hour by {
        assert rows[0] in frame.rows;
        var i :| 0 <= i < |frame.rows| && frame.rows[i] == rows[0];
      }
      Ok(rows)
  }

  /** The value of a row's column, Null when it has none. */
  function ValueAt(row: Row, column: string): Json {
    if column in row.cells then row.cells[column] else Null
  }

  /** The rows of a language's desktop or mobile site (`lang` or `lang + '.m'`). */
  predicate OfLanguage(row: Row, lang: string) {
    ValueAt(row, "domain") == Str(lang) || ValueAt(row, "domain") == Str(lang + ".m")
  }

  /** No row of the language names the article. */
  predicate Absent(article: string, rows: seq<Row>, lang: string) {
    forall row :: row in rows && OfLanguage(row, lang) ==> ValueAt(row, "article") != Str(article)
  }

  /** The articles of a language that are not in the rows of that language. */
  function Missing(arts: seq<(string, Json)>, rows: seq<Row>, lang: string): (r: seq<(string, Json)>)
    ensures forall p :: p in r <==> p in arts && Absent(p.0, rows, lang)
  {
    Filter(arts, (p: (string, Json)) => Absent(p.0, rows, lang))
  }

  /** The `langdict` branch: each language with its missing articles, languages with
      none left out. */
  function MissingArticles(langdict: LangDict, rows: seq<Row>): (out: LangDict)
    ensures forall l :: l in Firsts(out) ==> l in Firsts(langdict)
    ensures NoDups(Firsts(out))
  {
    if langdict == [] then []
    else
      var init := langdict[..|langdict| - 1];
      var out := MissingArticles(init, rows);
      var (lang, arts) := langdict[|langdict| - 1];
      var left := Missing(arts, rows, lang);
      MissingArticlesKeys(langdict, out, left);
      if left != [] then AssignEntry(out, lang, left) else out
  }

  lemma MissingArticlesKeys(langdict: LangDict, out: LangDict, left: seq<(string, Json)>)
    requires langdict != []
    requires forall l :: l in Firsts(out) ==> l in Firsts(langdict[..|langdict| - 1])
    requires NoDups(Firsts(out))
    ensures var lang := langdict[|langdict| - 1].0;
      var r := if left != [] then AssignEntry(out, lang, left) else out;
      && (forall l :: l in Firsts(r) ==> l in Firsts(langdict))
      && NoDups(Firsts(r))
  {
    var init := langdict[..|langdict| - 1];
    var lang := langdict[|langdict| - 1].0;
    assert langdict == init + [langdict[|langdict| - 1]];
    FirstsAppend(init, [langdict[|langdict| - 1]]);
    if left != [] {
      AssignEntryDistinct(out, lang, left);
    }
  }

  /** Entry `i` of `langdict`, reduced to its missing articles, is `p` and has some. */
  predicate KeptAt(langdict: LangDict, rows: seq<Row>, i: nat, p: (string, seq<(string, Json)>))
    requires i < |langdict|
  {
    p == (langdict[i].0, Missing(langdict[i].1, rows, langdict[i].0)) && p.1 != []
  }

  /** The languages in order, each with its missing articles, those with none left out. */
  function Kept(langdict: LangDict, rows: seq<Row>): (r: LangDict)
    ensures forall p :: p in r <==> exists i :: 0 <= i < |langdict| && KeptAt(langdict, rows, i, p)
  {
    if langdict == [] then []
    else
      var init := langdict[..|langdict| - 1];
      var (lang, arts) := langdict[|langdict| - 1];
      var left := Missing(arts, rows, lang);
      var r := Kept(init, rows) + if left != [] then [(lang, left)] else [];
      KeptStep(langdict, init, rows, Kept(init, rows), r);
      r
  }

  /** The membership of `Kept` one entry at a time. */
  lemma KeptStep(langdict: LangDict, init: LangDict, rows: seq<Row>, before: LangDict, r: LangDict)
    requires langdict != [] && init == langdict[..|langdict| - 1]
    requires forall p :: p in before <==> exists i :: 0 <= i < |init| && KeptAt(init, rows, i, p)
    requires var (lang, arts) := langdict[|langdict| - 1];
      var left := Missing(arts, rows, lang);
      r == before + if left != [] then [(lang, left)] else []
    ensures forall p :: p in r <==> exists i :: 0 <= i < |langdict| && KeptAt(langdict, rows, i, p)
  {
    var n := |langdict| - 1;
    forall p
      ensures p in r <==> exists i :: 0 <= i < |langdict| && KeptAt(langdict, rows, i, p)
    {
      if p in before {
        var i :| 0 <= i < n && KeptAt(init, rows, i, p);
        assert init[i] == langdict[i];
        assert KeptAt(langdict, rows, i, p);
      } else if p in r {
        assert KeptAt(langdict, rows, n, p);
      }
      if exists i :: 0 <= i < |langdict| && KeptAt(langdict, rows, i, p) {
        var i :| 0 <= i < |langdict| && KeptAt(langdict, rows, i, p);
        if i < n {
          assert init[i] == langdict[i];
          assert KeptAt(init, rows, i, p);
        }
      }
    }
  }

  /** For languages listed once, the dict the loop builds is the languages with missing
      articles, in their order. */
  lemma {:induction false} MissingArticlesKept(langdict: LangDict, rows: seq<Row>)
    requires NoDups(Firsts(langdict))
    ensures MissingArticles(langdict, rows) == Kept(langdict, rows)
  {
    if langdict != [] {
      var init := langdict[..|langdict| - 1];
      var (lang, arts) := langdict[|langdict| - 1];
      assert Firsts(init) == Firsts(langdict)[..|langdict| - 1];
      MissingArticlesKept(init, rows);
      var out := MissingArticles(init, rows);
      assert lang !in Firsts(init) by {
        assert Firsts(langdict)[|langdict| - 1] == lang;
      }
      var left := Missing(arts, rows, lang);
      if left != [] {
        AssignEntryNew(out, lang, left);
      }
    }
  }

  /** For languages listed once, a language is kept exactly when some of its articles are
      missing from its rows, and it keeps exactly those articles. */
  lemma MissingArticlesMeaning(langdict: LangDict, rows: seq<Row>, lang: string, arts: seq<(string, Json)>)
    requires NoDups(Firsts(langdict))
    ensures (lang, arts) in MissingArticles(langdict, rows) <==> exists i ::
      && 0 <= i < |langdict|
      && langdict[i].0 == lang
      && arts == Missing(langdict[i].1, rows, lang)
      && arts != []
  {
    MissingArticlesKept(langdict, rows);
    if exists i :: 0 <= i < |langdict| && langdict[i].0 == lang && arts == Missing(langdict[i].1, rows, lang) && arts != [] {
      var i :| 0 <= i < |langdict| && langdict[i].0 == lang && arts == Missing(langdict[i].1, rows, lang) && arts != [];
      assert KeptAt(langdict, rows, i, (lang, arts));
    }
  }

  /** `x.replace('.m', '')`. */
  function DropMobile(s: string): string {
    if |s| >= 2 && s[..2] == ".m" then DropMobile(s[2..])
    else if s == [] then []
    else [s[0]] + DropMobile(s[1..])
  }

  /** A language code without a dot reads the same, and its mobile site `lang + '.m'`
      reads as the language. */
  lemma {:induction false} DropMobileOfLanguage(lang: string)
    requires '.' !in lang
    ensures DropMobile(lang) == lang
    ensures DropMobile(lang + ".m") == lang
  {
    if lang == [] {
      assert ".m"[..2] == ".m";
      assert ".m"[2..] == [];
    } else {
      assert lang[0] != '.';
      assert (lang + ".m")[0] == lang[0];
      assert |lang| >= 2 ==> lang[..2][0] == lang[0];
      assert (lang + ".m")[..2][0] == lang[0];
      assert '.' !in lang[1..] by {
        assert forall c :: c in lang[1..] ==> c in lang;
      }
      DropMobileOfLanguage(lang[1..]);
      assert (lang + ".m")[1..] == lang[1..] + ".m";
    }
  }

  /** A column with a value in every row. */
  predicate Complete(rows: seq<Row>, column: string) {
    forall row :: row in rows ==> ValueAt(row, column) != Null
  }

  /** `{x.replace('.m', '') for x in hdf.T.dropna().index}`: the languages with a value
      in every row of the hour, on either site. */
  function Covered(frame: Frame, rows: seq<Row>): (r: set<string>)
    ensures forall l :: l in r <==> exists c :: c in frame.columns && Complete(rows, c) && DropMobile(c) == l
  {
    set c | c in frame.columns && Complete(rows, c) :: DropMobile(c)
  }

  /** What `check_rows` returns: exactly one of `langdict` and `langs` must be
      non-empty; when the hour is not in the table everything is still to do; otherwise
      what the table already has for the hour is left out. */
  function StillToDo(hour: int, frame: Frame, langdict: LangDict, langs: seq<string>): (r: Result<Checked>)
    ensures r.Err? <==> (langdict != []) == (langs != [])
    ensures r.Err? ==> r.error == AssertionError
    ensures r.Ok? && RowsAt(frame, hour).Err? ==>
      r.value == if langdict != [] then Articles(langdict) else Languages(langs)
    ensures r.Ok? && RowsAt(frame, hour).Ok? && langdict != [] ==>
      r.value == Articles(MissingArticles(langdict, RowsAt(frame, hour).value))
    ensures r.Ok? && RowsAt(frame, hour).Ok? && langdict == [] ==>
      && r.value.Languages?
      && (forall l :: l in r.value.langs <==> l in langs && l !in Covered(frame, RowsAt(frame, hour).value))
      && (forall i, j :: 0 <= i < j < |r.value.langs| ==> Below(r.value.langs[i], r.value.langs[j]))
  {
    if (langdict != []) == (langs != []) then Err(AssertionError)
    else
      var found := RowsAt(frame, hour);
      if found.Err? then
        Ok(if langdict != [] then Articles(langdict) else Languages(langs))
      else if langdict != [] then
        Ok(Articles(MissingArticles(langdict, found.value)))
      else
        var covered := Covered(frame, found.value);
        Ok(Languages(SortedStrings((set l | l in langs) - covered)))
  }

  /** The loop of the `langdict` branch. */
  method FilterLangDict(langdict: LangDict, rows: seq<Row>) returns (out: LangDict)
    ensures out == MissingArticles(langdict, rows)
  {
    out := [];
    for i := 0 to |langdict|
      invariant out == MissingArticles(langdict[..i], rows)
    {
      var (lang, arts) := langdict[i];
      var left := Missing(arts, rows, lang);
      assert langdict[..i + 1][..i] == langdict[..i];
      if left != [] {
        out := AssignEntry(out, lang, left);
      }
    }
    assert langdict[..|langdict|] == langdict;
  }

  /** `check_rows`. */
  method CheckRows(hour: int, frame: Frame, langdict: LangDict, langs: seq<string>) returns (r: Result<Checked>)
    ensures r == StillToDo(hour, frame, langdict, langs)
  {
    if (langdict != []) == (langs != []) {
      return Err(AssertionError);
    }
    var found := RowsAt(frame, hour);
    if found.Err? {
      if langdict != [] {
        return Ok(Articles(langdict));
      }
      return Ok(Languages(langs));
    }
    if langdict != [] {
      var out := FilterLangDict(langdict, found.value);
      return Ok(Articles(out));
    }
    var covered := Covered(frame, found.value);
    return Ok(Languages(SortedStrings((set l | l in langs) - covered)));
  }
}
