/** src/wikitools/api.py: planning batched queries (`querylister`), following API
    continuation (`query_static`, `parse_static`), and filtering the portions a
    continued query yields (`iterate_query`, `query_async`, `iterate_async_query`).
    The HTTP session is replaced by the responses it would return. */
module Api {
  import opened Wrappers
  import opened JsonValues
  import opened Collections
  import Tools

  /** A dict of request parameters. */
  type Params = map<string, Json>

  // ---------------------------------------------------------------------------
  // querylister

  /** The maps `querylister` hands on to `process_articles`: `norm_map`,
      `titles_redirect_map` and `pageids_redirect_map`. */
  datatype ListerMaps = ListerMaps(normMap: map<Json, Json>, titlesRedirectMap: map<Json, Json>,
                                   pageidsRedirectMap: map<Json, Json>)

  /** `process_articles`, which is not part of this model, supplied by the caller:
      it normalises and redirects titles with `norm_map` and `titles_redirect_map`,
      and page ids with `pageids_redirect_map`, before they are batched. */
  datatype Processor = Processor(titles: (seq<string>, map<Json, Json>, map<Json, Json>) -> seq<string>,
                                 pageids: (seq<int>, map<Json, Json>) -> seq<int>)

  /** What `querylister` returns: the query argument dicts, the reference key and the
      index that identifies the reference in a page record. */
  datatype Plan = Plan(queries: seq<Params>, key: string, ix: int)

  const XorMessage := "Must specify exactly one of titles, pageids or revids"

  /** What calling `iterate_async_query` with an `args=` keyword raises: it has no such
      parameter. */
  const ArgsKeywordMessage := "iterate_async_query() got an unexpected keyword argument 'args'"

  /** The check `(titles is not None) ^ (pageids is not None) ^ (revids is not None)`. */
  predicate XorGiven(a: bool, b: bool, c: bool) {
    (a != b) != c
  }

  /** The batch size: one reference per query for generator queries, fifty otherwise. */
  function BatchSize(generator: bool): nat {
    if generator then 1 else 50
  }

  /** `[str(x) for x in ids]`. */
  function Strs(ids: seq<int>): (r: seq<string>)
    ensures |r| == |ids| && forall i :: 0 <= i < |ids| ==> r[i] == IntToString(ids[i])
  {
    seq(|ids|, i requires 0 <= i < |ids| => IntToString(ids[i]))
  }

  /** The reference strings `querylister` batches, after processing and removing repeats. */
  function References(titles: Option<seq<string>>, pageids: Option<seq<int>>,
                      revids: Option<seq<int>>, process: Processor, maps: ListerMaps): seq<string>
  {
    if titles.Some? then Dedupe(process.titles(titles.value, maps.normMap, maps.titlesRedirectMap))
    else if pageids.Some? then Strs(Dedupe(process.pageids(pageids.value, maps.pageidsRedirectMap)))
    else if revids.Some? then Strs(Dedupe(revids.value))
    else []
  }

  /** `{key: '|'.join(chunk), **params}`: a parameter of the same name overrides the batch. */
  function QueryArgs(key: string, chunk: seq<string>, params: Params): (q: Params)
    ensures key in q
    ensures key !in params ==> q[key] == Str(Join(chunk, "|"))
    ensures forall k :: k in params ==> k in q && q[k] == params[k]
    ensures q.Keys == params.Keys + {key}
  {
    map[key := Str(Join(chunk, "|"))] + params
  }

  /** One query per batch, in order. */
  function Queries(key: string, batches: seq<seq<string>>, params: Params): (r: seq<Params>)
    ensures |r| == |batches| && forall i :: 0 <= i < |batches| ==> r[i] == QueryArgs(key, batches[i], params)
  {
    seq(|batches|, i requires 0 <= i < |batches| => QueryArgs(key, batches[i], params))
  }

  /** `querylister`: exactly one of titles, pageids and revids must be given (the XOR of
      three, so all three together also pass and titles win); the distinct references
      are cut into batches and each batch becomes a query. */
  function QueryLister(titles: Option<seq<string>>, pageids: Option<seq<int>>,
                       revids: Option<seq<int>>, generator: bool,
                       process: Processor, maps: ListerMaps, params: Params): (r: Result<Plan>)
    ensures r.Err? <==> !XorGiven(titles.Some?, pageids.Some?, revids.Some?)
    ensures r.Err? ==> r.error.ValueError?
    ensures r.Ok? ==>
      var batches := Tools.Chunks(References(titles, pageids, revids, process, maps), BatchSize(generator));
      && |r.value.queries| == |batches|
      && (forall i :: 0 <= i < |batches| ==>
            r.value.queries[i] == QueryArgs(r.value.key, batches[i], params))
    ensures r.Ok? && titles.Some? ==> r.value.key == "titles" && r.value.ix == 1
    ensures r.Ok? && titles.None? && pageids.Some? ==> r.value.key == "pageids" && r.value.ix == 0
    ensures r.Ok? && titles.None? && pageids.None? ==> r.value.key == "revids" && r.value.ix == -1
    ensures titles.Some? && pageids.Some? && revids.Some? ==> r.Ok? && r.value.key == "titles"
  {
    if !XorGiven(titles.Some?, pageids.Some?, revids.Some?) then
      Err(ValueError(Str(XorMessage)))
    else
      var key := if titles.Some? then "titles" else if pageids.Some? then "pageids" else "revids";
      var ix := if titles.Some? then 1 else if pageids.Some? then 0 else -1;
      var batches := Tools.Chunks(References(titles, pageids, revids, process, maps), BatchSize(generator));
      Ok(Plan(Queries(key, batches, params), key, ix))
  }

  /** Every batch holds between one and the batch size of references, and together the
      batches hold each distinct reference exactly once. */
  lemma BatchesCoverOnce(refs: seq<string>, generator: bool)
    requires NoDups(refs)
    ensures var batches := Tools.Chunks(refs, BatchSize(generator));
      && Flatten(batches) == refs
      && NoDups(Flatten(batches))
      && forall i :: 0 <= i < |batches| ==> 1 <= |batches[i]| <= BatchSize(generator)
  {
    var batches := Tools.Chunks(refs, BatchSize(generator));
    Tools.ChunksConcat(refs, BatchSize(generator));
    forall i | 0 <= i < |batches|
      ensures 1 <= |batches[i]| <= BatchSize(generator)
    {
      Tools.ChunkSizes(refs, BatchSize(generator), i);
    }
  }

  /** References given as titles, or else as page ids. */
  datatype Refs = Titles(titles: seq<string>) | PageIds(ids: seq<int>)

  function RefCount(refs: Refs): nat {
    match refs
    case Titles(t) => |t|
    case PageIds(p) => |p|
  }

  /** `bool(titles) ^ bool(pageids)`: exactly one of them is a non-empty list. */
  predicate OneRefKind(titles: Option<seq<string>>, pageids: Option<seq<int>>) {
    (titles.Some? && titles.value != []) != (pageids.Some? && pageids.value != [])
  }

  /** `if titles: ... else: ...`: the references a call walks once exactly one kind was given. */
  function RefsOf(titles: Option<seq<string>>, pageids: Option<seq<int>>): (r: Refs)
    requires OneRefKind(titles, pageids)
    ensures r.Titles? <==> titles.Some? && titles.value != []
    ensures RefCount(r) > 0
  {
    if titles.Some? && titles.value != [] then Titles(titles.value) else PageIds(pageids.value)
  }

  /** The revision ids of a revids query: every given id appears in exactly one query's
      batch, and nothing else does. */
  lemma RevidsExactlyOnce(revids: seq<int>, generator: bool, process: Processor, maps: ListerMaps)
    ensures var refs := References(None, None, Some(revids), process, maps);
      && NoDups(refs)
      && Flatten(Tools.Chunks(refs, BatchSize(generator))) == refs
      && forall x :: IntToString(x) in refs <==> x in revids
  {
    var d := Dedupe(revids);
    var refs := Strs(d);
    forall i, j | 0 <= i < j < |refs|
      ensures refs[i] != refs[j]
    {
      if refs[i] == refs[j] {
        IntToStringInjective(d[i], d[j]);
      }
    }
    forall x
      ensures IntToString(x) in refs <==> x in revids
    {
      if IntToString(x) in refs {
        var i :| 0 <= i < |refs| && refs[i] == IntToString(x);
        IntToStringInjective(d[i], x);
      }
    }
    BatchesCoverOnce(refs, generator);
  }

  lemma {:induction false} NatToStringInjective(a: nat, b: nat)
    requires NatToString(a) == NatToString(b)
    ensures a == b
    decreases a
  {
    if a < 10 && b < 10 {
      assert NatToString(a)[0] == DigitChar(a);
    } else if a < 10 {
      NatToStringLong(b);
    } else if b < 10 {
      NatToStringLong(a);
    } else {
      var sa, sb := NatToString(a), NatToString(b);
      assert sa[|sa| - 1] == DigitChar(a % 10) && sb[|sb| - 1] == DigitChar(b % 10);
      assert sa[..|sa| - 1] == NatToString(a / 10) && sb[..|sb| - 1] == NatToString(b / 10);
      DigitCharInjective(a % 10, b % 10);
      NatToStringInjective(a / 10, b / 10);
      assert a == a / 10 * 10 + a % 10 && b == b / 10 * 10 + b % 10;
    }
  }

  lemma DigitCharInjective(x: nat, y: nat)
    requires x < 10 && y < 10 && DigitChar(x) == DigitChar(y)
    ensures x == y
  {
  }

  lemma NatToStringLong(n: nat)
    requires n >= 10
    ensures |NatToString(n)| >= 2
  {
  }

  lemma NatToStringDigits(n: nat)
    ensures forall i :: 0 <= i < |NatToString(n)| ==> NatToString(n)[i] != '-'
  {
  }

  /** Distinct ids give distinct strings, so deduplicating ids deduplicates the batch. */
  lemma IntToStringInjective(a: int, b: int)
    requires IntToString(a) == IntToString(b)
    ensures a == b
  {
    if a < 0 && b >= 0 {
      assert IntToString(a)[0] == '-';
      NatToStringDigits(b);
    } else if a >= 0 && b < 0 {
      assert IntToString(b)[0] == '-';
      NatToStringDigits(a);
    } else if a < 0 {
      assert IntToString(a)[1..] == NatToString(-a);
      assert IntToString(b)[1..] == NatToString(-b);
      NatToStringInjective(-a, -b);
    } else {
      NatToStringInjective(a, b);
    }
  }

  // ---------------------------------------------------------------------------
  // query_static and parse_static

  /** How a continuation run ended: the last answer had no 'continue', the API
      answered with an 'error', or the given answers ran out while it still continued. */
  datatype RunEnd = Exhausted | Raised(error: Error) | OutOfAnswers

  /** `result['continue']`, the parameters to merge into the next request. */
  function ContinueOf(answer: Json): Params {
    var c := Field(answer, "continue");
    if c.Obj? then c.fields else map[]
  }

  /** The i-th request sent: the base request, updated from the previous answer's 'continue'. */
  function RequestAt(base: Params, answers: seq<Json>, i: nat): Params
    requires i <= |answers|
  {
    if i == 0 then base else base + ContinueOf(answers[i - 1])
  }

  /** The `section` of every answer that has one, in order. */
  function Sections(answers: seq<Json>, section: string): seq<Json>
  {
    if answers == [] then []
    else
      var last := answers[|answers| - 1];
      Sections(answers[..|answers| - 1], section) + (if Has(last, section) then [Field(last, section)] else [])
  }

  /** An answer after which the loop asks again. */
  predicate Continues(answer: Json) {
    !Has(answer, "error") && Has(answer, "continue")
  }

  /** What a continuation run with the given answers does: which requests it sends,
      what it yields and how it ends. */
  predicate ContinuationRun(base: Params, section: string, answers: seq<Json>,
                            sent: seq<Params>, yielded: seq<Json>, end: RunEnd)
  {
    && |sent| <= |answers|
    && (forall i :: 0 <= i < |sent| ==> sent[i] == RequestAt(base, answers, i))
    && (forall i :: 0 <= i < |sent| - 1 ==> Continues(answers[i]))
    && (end == OutOfAnswers <==> |sent| == |answers| && (|sent| == 0 || Continues(answers[|sent| - 1])))
    && (end.Raised? <==> |sent| > 0 && Has(answers[|sent| - 1], "error"))
    && (end.Raised? ==> end.error == ValueError(Field(answers[|sent| - 1], "error")))
    && (end == Exhausted <==> |sent| > 0 && !Has(answers[|sent| - 1], "error") && !Has(answers[|sent| - 1], "continue"))
    && yielded == Sections(answers[..if end.Raised? then |sent| - 1 else |sent|], section)
  }

  /** The first `i` rounds of a continuation run: each request sent as `RequestAt`
      says, each of those answers asked to continue, and their sections yielded. */
  predicate RunSoFar(base: Params, section: string, answers: seq<Json>, i: nat,
                     sent: seq<Params>, yielded: seq<Json>)
  {
    && i == |sent| <= |answers|
    && (forall j :: 0 <= j < i ==> sent[j] == RequestAt(base, answers, j))
    && (forall j :: 0 <= j < i ==> Continues(answers[j]))
    && yielded == Sections(answers[..i], section)
  }

  /** The (i+1)-th round: its request is sent and its section yielded. */
  lemma RunSends(base: Params, section: string, answers: seq<Json>, i: nat,
                 sent: seq<Params>, yielded: seq<Json>)
    requires RunSoFar(base, section, answers, i, sent, yielded) && i < |answers|
    ensures var y := yielded + if Has(answers[i], section) then [Field(answers[i], section)] else [];
      && (forall j :: 0 <= j <= i ==> (sent + [RequestAt(base, answers, i)])[j] == RequestAt(base, answers, j))
      && y == Sections(answers[..i + 1], section)
  {
    SnocPrefix(answers, i);
    assert answers[..i + 1][..i] == answers[..i];
  }

  /** A round whose answer asks to continue extends the run. */
  lemma RunContinues(base: Params, section: string, answers: seq<Json>, i: nat,
                     sent: seq<Params>, yielded: seq<Json>)
    requires RunSoFar(base, section, answers, i, sent, yielded) && i < |answers|
    requires Continues(answers[i])
    ensures RunSoFar(base, section, answers, i + 1, sent + [RequestAt(base, answers, i)],
                     yielded + if Has(answers[i], section) then [Field(answers[i], section)] else [])
  {
    RunSends(base, section, answers, i, sent, yielded);
  }

  /** A round whose answer carries 'error' ends the run, yielding nothing from it. */
  lemma RunRaises(base: Params, section: string, answers: seq<Json>, i: nat,
                  sent: seq<Params>, yielded: seq<Json>)
    requires RunSoFar(base, section, answers, i, sent, yielded) && i < |answers|
    requires Has(answers[i], "error")
    ensures ContinuationRun(base, section, answers, sent + [RequestAt(base, answers, i)], yielded,
                            Raised(ValueError(Field(answers[i], "error"))))
  {
    RunSends(base, section, answers, i, sent, yielded);
  }

  /** A round whose answer has neither 'error' nor 'continue' ends the run after
      yielding its section. */
  lemma RunExhausts(base: Params, section: string, answers: seq<Json>, i: nat,
                    sent: seq<Params>, yielded: seq<Json>)
    requires RunSoFar(base, section, answers, i, sent, yielded) && i < |answers|
    requires !Has(answers[i], "error") && !Has(answers[i], "continue")
    ensures ContinuationRun(base, section, answers, sent + [RequestAt(base, answers, i)],
                            yielded + (if Has(answers[i], section) then [Field(answers[i], section)] else []),
                            Exhausted)
  {
    RunSends(base, section, answers, i, sent, yielded);
  }

  /** Every answer asked to continue: the run stops for want of answers. */
  lemma RunRunsOut(base: Params, section: string, answers: seq<Json>,
                   sent: seq<Params>, yielded: seq<Json>)
    requires RunSoFar(base, section, answers, |answers|, sent, yielded)
    ensures ContinuationRun(base, section, answers, sent, yielded, OutOfAnswers)
  {
    assert answers[..|answers|] == answers;
  }

  /** The loop shared by `query_static` and `parse_static`; `section` is both the action
      and the key of the answer part it yields. */
  method FollowContinuations(request: Params, section: string, answers: seq<Json>)
    returns (base: Params, sent: seq<Params>, yielded: seq<Json>, end: RunEnd)
    ensures base == request["action" := Str(section)]["format" := Str("json")]
    ensures ContinuationRun(base, section, answers, sent, yielded, end)
  {
    base := request["action" := Str(section)]["format" := Str("json")];
    var lastContinue: Params := map[];
    sent, yielded, end := [], [], OutOfAnswers;
    var i := 0;
    assert base + map[] == base;
    while i < |answers|
      invariant RunSoFar(base, section, answers, i, sent, yielded)
      invariant base + lastContinue == RequestAt(base, answers, i)
    {
      var req := base + lastContinue;
      var result := answers[i];
      if Has(result, "error") {
        RunRaises(base, section, answers, i, sent, yielded);
        sent := sent + [req];
        end := Raised(ValueError(Field(result, "error")));
        return;
      }
      if !Has(result, "continue") {
        RunExhausts(base, section, answers, i, sent, yielded);
      } else {
        RunContinues(base, section, answers, i, sent, yielded);
      }
      sent := sent + [req];
      if Has(result, section) {
        yielded := yielded + [Field(result, section)];
      }
      if !Has(result, "continue") {
        end := Exhausted;
        return;
      }
      lastContinue := ContinueOf(result);
      i := i + 1;
    }
    RunRunsOut(base, section, answers, sent, yielded);
  }

  /** `query_static`: continues a 'query' request until the answer has no 'continue'. */
  method QueryStatic(request: Params, answers: seq<Json>)
    returns (base: Params, sent: seq<Params>, yielded: seq<Json>, end: RunEnd)
    ensures base == request["action" := Str("query")]["format" := Str("json")]
    ensures ContinuationRun(base, "query", answers, sent, yielded, end)
  {
    base, sent, yielded, end := FollowContinuations(request, "query", answers);
  }

  /** `parse_static`: the same loop for 'parse' requests. */
  method ParseStatic(request: Params, answers: seq<Json>)
    returns (base: Params, sent: seq<Params>, yielded: seq<Json>, end: RunEnd)
    ensures base == request["action" := Str("parse")]["format" := Str("json")]
    ensures ContinuationRun(base, "parse", answers, sent, yielded, end)
  {
    base, sent, yielded, end := FollowContinuations(request, "parse", answers);
  }

  /** How many requests a run sends: up to and including the first answer that does not
      continue, or all of them. */
  function RunLength(answers: seq<Json>): (n: nat)
    ensures n <= |answers|
  {
    if answers == [] then 0
    else if !Continues(answers[0]) then 1
    else 1 + RunLength(answers[1..])
  }

  lemma {:induction false} RunLengthIs(answers: seq<Json>, k: nat)
    requires k <= |answers|
    requires forall j :: 0 <= j < k - 1 ==> Continues(answers[j])
    requires k == |answers| || (k > 0 && !Continues(answers[k - 1]))
    ensures RunLength(answers) == k
    decreases k
  {
    if k > 1 {
      RunLengthIs(answers[1..], k - 1);
    }
  }

  /** The description of a run pins it down: the answers decide how many requests are
      sent, which ones, what is yielded and how the run ends. */
  lemma RunDetermined(base: Params, section: string, answers: seq<Json>,
                      sent1: seq<Params>, yielded1: seq<Json>, end1: RunEnd,
                      sent2: seq<Params>, yielded2: seq<Json>, end2: RunEnd)
    requires ContinuationRun(base, section, answers, sent1, yielded1, end1)
    requires ContinuationRun(base, section, answers, sent2, yielded2, end2)
    ensures |sent1| == RunLength(answers)
    ensures sent1 == sent2 && yielded1 == yielded2 && end1 == end2
  {
    RunLengthIs(answers, |sent1|);
    RunLengthIs(answers, |sent2|);
    assert sent1 == sent2;
  }

  // ---------------------------------------------------------------------------
  // iterate_query, query_async and iterate_async_query

  /** One step of a continued mwapi query: the next portion, or the APIError it raises. */
  datatype StreamItem = Portion(body: Json) | Failure(info: string)

  /** What a generator run produced: the items yielded and the exception that ended it. */
  datatype Yielded = Yielded(items: seq<Json>, raised: Option<Error>)

  /** `portion['query']['pages']`. */
  function PagesOf(portion: Json): Json {
    Field(Field(portion, "query"), "pages")
  }

  /** The error both loops raise for an APIError: `ValueError("MediaWiki returned an error:", str(error))`. */
  function Converted(info: string): Error {
    ValueError(Arr([Str("MediaWiki returned an error:"), Str(info)]))
  }

  /** What one portion contributes: itself in debug mode, its pages if it has a 'query'
      part, and nothing otherwise. */
  function Emit(portion: Json, debug: bool): seq<Json> {
    if debug then [portion]
    else if Has(portion, "query") then [PagesOf(portion)]
    else []
  }

  predicate HasFailure(stream: seq<StreamItem>) {
    exists i :: 0 <= i < |stream| && stream[i].Failure?
  }

  /** `iterate_query`: yields as it goes, and turns the first APIError into a ValueError. */
  function IterateQuery(stream: seq<StreamItem>, debug: bool): (r: Yielded)
    ensures r.raised.Some? <==> HasFailure(stream)
    ensures r.raised.Some? ==> r.raised.value.ValueError?
    ensures |r.items| <= |stream|
    ensures debug && !HasFailure(stream) ==> |r.items| == |stream|
    decreases |stream|
  {
    if stream == [] then Yielded([], None)
    else
      var rest := IterateQuery(stream[1..], debug);
      assert forall i :: 1 <= i < |stream| ==> stream[i] == stream[1..][i - 1];
      assert HasFailure(stream[1..]) ==> HasFailure(stream);
      match stream[0]
      case Failure(info) => Yielded([], Some(Converted(info)))
      case Portion(p) => Yielded(Emit(p, debug) + rest.items, rest.raised)
  }

  /** A portion without a 'query' part leaves the yielded pages unchanged wherever it occurs. */
  lemma {:induction false} EmptyPortionContributesNothing(a: seq<StreamItem>, p: Json, b: seq<StreamItem>)
    requires !Has(p, "query")
    ensures IterateQuery(a + [Portion(p)] + b, false) == IterateQuery(a + b, false)
    decreases |a|
  {
    if a == [] {
      assert (a + [Portion(p)] + b)[1..] == b;
      assert a + b == b;
    } else {
      assert (a + [Portion(p)] + b)[1..] == a[1..] + [Portion(p)] + b;
      assert (a + b)[1..] == a[1..] + b;
      EmptyPortionContributesNothing(a[1..], p, b);
    }
  }

  /** `for x in xs: for page in x: pages.append(page)`. */
  function FlattenItems(xs: seq<Json>): seq<Json> {
    if xs == [] then [] else Items(xs[0]) + FlattenItems(xs[1..])
  }

  /** The list `query_async` builds from a continued query, or the error it raises:
      the items `iterate_query` yields, with the pages lists merged outside debug mode. */
  function ContinuedPages(stream: seq<StreamItem>, debug: bool): Result<seq<Json>> {
    var y := IterateQuery(stream, debug);
    if y.raised.Some? then Err(y.raised.value)
    else Ok(if debug then y.items else FlattenItems(y.items))
  }

  /** The answer the session gives: one response, or a continued stream. The
      `continuation` flag of `query_async` selects which, so it is encoded by the shape. */
  datatype Reply = Single(item: StreamItem) | Continued(stream: seq<StreamItem>)

  /** `query_async`. Without continuation one response is filtered as `iterate_query`
      filters a portion (None when it yields nothing), and an APIError escapes as is.
      With continuation the pages of all portions are collected, in order, as
      `iterate_query` would yield them. */
  method QueryAsync(reply: Reply, debug: bool) returns (r: Result<Json>)
    ensures reply.Single? && reply.item.Failure? ==> r == Err(ApiError(reply.item.info))
    ensures reply.Single? && reply.item.Portion? ==>
      var y := IterateQuery([reply.item], debug).items;
      r == Ok(if y == [] then Null else y[0])
    ensures reply.Continued? ==>
      match ContinuedPages(reply.stream, debug)
      case Err(e) => r == Err(e)
      case Ok(pages) => r == Ok(Arr(pages))
  {
    if reply.Single? {
      match reply.item
      case Failure(info) =>
        return Err(ApiError(info));
      case Portion(continued) =>
        assert [reply.item][1..] == [];
        if debug {
          return Ok(continued);
        } else if Has(continued, "query") {
          return Ok(PagesOf(continued));
        } else {
          return Ok(Null);
        }
    }
    var stream := reply.stream;
    var pages: seq<Json> := [];
    var i := 0;
    assert stream[0..] == stream;
    PrependNothing(ContinuedPages(stream, debug));
    while i < |stream|
      invariant i <= |stream|
      invariant ContinuedPages(stream, debug) == Prepend(pages, ContinuedPages(stream[i..], debug))
    {
      ContinuedStep(stream[i..], debug);
      assert stream[i..][1..] == stream[i + 1..];
      match stream[i]
      case Failure(info) =>
        return Err(Converted(info));
      case Portion(portion) =>
        var share: seq<Json> := [];
        if debug {
          share := [portion];
        } else if Has(portion, "query") {
          share := Items(PagesOf(portion));
        }
        PrependTwice(pages, share, ContinuedPages(stream[i + 1..], debug));
        pages := pages + share;
      i := i + 1;
    }
    assert stream[i..] == [];
    assert pages + [] == pages;
    return Ok(Arr(pages));
  }

  /** Pages collected so far, in front of what the rest of the stream gives. */
  function Prepend(pages: seq<Json>, rest: Result<seq<Json>>): Result<seq<Json>> {
    if rest.Err? then rest else Ok(pages + rest.value)
  }

  lemma PrependNothing(r: Result<seq<Json>>)
    ensures Prepend([], r) == r
  {
    if r.Ok? {
      assert [] + r.value == r.value;
    }
  }

  lemma PrependTwice(a: seq<Json>, b: seq<Json>, r: Result<seq<Json>>)
    ensures Prepend(a, Prepend(b, r)) == Prepend(a + b, r)
  {
    if r.Ok? {
      assert a + (b + r.value) == (a + b) + r.value;
    }
  }

  /** The first item of the stream decides its share of `ContinuedPages`. */
  lemma ContinuedStep(stream: seq<StreamItem>, debug: bool)
    requires stream != []
    ensures stream[0].Failure? ==> ContinuedPages(stream, debug) == Err(Converted(stream[0].info))
    ensures stream[0].Portion? ==>
      var p := stream[0].body;
      var share := if debug then [p] else if Has(p, "query") then Items(PagesOf(p)) else [];
      ContinuedPages(stream, debug) == Prepend(share, ContinuedPages(stream[1..], debug))
  {
    if stream[0].Portion? {
      var p := stream[0].body;
      var rest := IterateQuery(stream[1..], debug);
      if rest.raised.None? {
        if debug {
        } else if Has(p, "query") {
          assert ([PagesOf(p)] + rest.items)[1..] == rest.items;
        } else {
          assert [] + rest.items == rest.items;
          assert [] + FlattenItems(rest.items) == FlattenItems(rest.items);
        }
      }
    }
  }

  /** `iterate_async_query`: `asyncio.gather` returns the results in the order of the
      queries, whatever order the tasks finish in. `task` is `query_async`, or the
      caller's parsing function applied to it. */
  function IterateAsyncQuery<R>(queries: seq<Params>, task: Params -> R): (results: seq<R>)
    ensures |results| == |queries|
    ensures forall i :: 0 <= i < |queries| ==> results[i] == task(queries[i])
  {
    seq(|queries|, i requires 0 <= i < |queries| => task(queries[i]))
  }

  /** Awaiting `asyncio.gather` over tasks that may raise: the results in query order,
      or the error of the first task (in query order) that raised. */
  function Gathered<T>(results: seq<Result<T>>): (r: Result<seq<T>>)
    ensures r.Ok? <==> forall i :: 0 <= i < |results| ==> results[i].Ok?
    ensures r.Ok? ==> |r.value| == |results| && forall i :: 0 <= i < |results| ==> results[i] == Ok(r.value[i])
    ensures r.Err? ==> exists i :: 0 <= i < |results| && results[i] == Err(r.error)
  {
    if results == [] then Ok([])
    else
      var init := Gathered(results[..|results| - 1]);
      var last := results[|results| - 1];
      if init.Err? then
        assert forall i :: 0 <= i < |results| - 1 ==> results[..|results| - 1][i] == results[i];
        Err(init.error)
      else if last.Err? then Err(last.error)
      else Ok(init.value + [last.value])
  }
}
