/** wikitoolkit/quality.py: `get_revisions_quality`, which asks the Lift Wing scoring
    service for each model's scores of a list of revisions and files them under each
    revision, and `get_articles_quality`, which finds the revisions of articles and
    attaches those scores to them. What the service answers for each model and query,
    and what the revision queries answer, are arguments. */
module Quality {
  import opened Wrappers
  import opened JsonValues
  import opened Collections
  import Api
  import Revisions
  import opened Ints

  // ---------------------------------------------------------------------------
  // Which model family

  /** `model.split('-')[0]`: what comes before the first dash. */
  function BeforeDash(s: string): (r: string)
    ensures r <= s && '-' !in r
    ensures |r| < |s| ==> s[|r|] == '-'
  {
    if s == [] || s[0] == '-' then "" else [s[0]] + BeforeDash(s[1..])
  }

  /** `model.split('-')[1]`: between the first and the second dash; IndexError without a
      dash. */
  function SecondPart(s: string): (r: Result<string>)
    ensures r.Ok? <==> |BeforeDash(s)| < |s|
    ensures r.Ok? ==> '-' !in r.value && r.value <= s[|BeforeDash(s)| + 1..]
  {
    var first := BeforeDash(s);
    if |first| < |s| then Ok(BeforeDash(s[|first| + 1..]))
    else Err(IndexError("list index out of range"))
  }

  /** `s[a:b]` for `0 <= a <= b`: the bounds are clipped to the string. */
  function Slice(s: string, a: nat, b: nat): (r: string)
    requires a <= b
    ensures |r| == (if b <= |s| then b - a else if a <= |s| then |s| - a else 0)
  {
    if a >= |s| then "" else if b >= |s| then s[a..] else s[a..b]
  }

  datatype Family = ArticleQuality | RevertRisk | WikiModel | Unknown

  /** The branches of `get_revisions_quality`, tried in order. */
  function FamilyOf(model: string): (f: Family)
    ensures f == ArticleQuality <==> model == "articlequality"
    ensures f == RevertRisk <==> model != "articlequality" && BeforeDash(model) == "revertrisk"
    ensures f == WikiModel <==>
      model != "articlequality" && BeforeDash(model) != "revertrisk" && Slice(model, 2, 6) == "wiki"
  {
    if model == "articlequality" then ArticleQuality
    else if BeforeDash(model) == "revertrisk" then RevertRisk
    else if Slice(model, 2, 6) == "wiki" then WikiModel
    else Unknown
  }

  /** `model[2:6] == 'wiki'` holds exactly for models of six or more characters whose
      third to sixth characters spell `wiki`, such as `enwiki-goodfaith`. */
  lemma WikiSlice(model: string)
    ensures Slice(model, 2, 6) == "wiki" <==> |model| >= 6 && model[2..6] == "wiki"
  {
  }

  // ---------------------------------------------------------------------------
  // Parsing one model's scores

  /** `x[k1][k2]...`: each step raises KeyError when its key is missing. */
  function Path(x: Json, keys: seq<string>): (r: Result<Json>)
    ensures r.Err? ==> r.error.KeyError?
  {
    if keys == [] then Ok(x)
    else
      var y :- Index(x, keys[0]);
      Path(y, keys[1..])
  }

  /** The dict `{int(q['revision_id']): q...path for q in quals if 'revision_id' in q}`
      gets from one response: nothing when it has no `revision_id`. */
  function ByRevisionId(q: Json, path: seq<string>): (r: Result<map<int, Json>>)
    ensures !Has(q, "revision_id") ==> r == Ok(map[])
    ensures Has(q, "revision_id") && r.Ok? ==>
      IntOf(q.fields["revision_id"]).Ok? && Path(q, path).Ok? &&
      r.value == map[IntOf(q.fields["revision_id"]).value := Path(q, path).value]
  {
    if !Has(q, "revision_id") then Ok(map[])
    else
      var id :- IntOf(q.fields["revision_id"]);
      var v :- Path(q, path);
      Ok(map[id := v])
  }

  /** A score whose key does not read as an integer or whose value lacks the path. */
  predicate Fails(scores: map<string, Json>, path: seq<string>, k: string) {
    k in scores && (ParseInt(k).Err? || Path(scores[k], path).Err?)
  }

  function Failing(scores: map<string, Json>, path: seq<string>): (ks: set<string>)
    ensures forall k :: k in ks <==> Fails(scores, path, k)
  {
    set k | k in scores && Fails(scores, path, k)
  }

  /** The keys of the scores that read as `n`. */
  function KeysFor(scores: map<string, Json>, n: int): (ks: set<string>)
    ensures forall k :: k in ks <==> k in scores && ParseInt(k) == Ok(n)
  {
    set k | k in scores && ParseInt(k) == Ok(n)
  }

  /** The error of a score that fails. A decoded object does not keep its keys' order,
      so the model takes the least such key. */
  function SomeFailure(scores: map<string, Json>, path: seq<string>): (e: Error)
    requires exists k :: Fails(scores, path, k)
    ensures exists k :: k in scores && (ParseInt(k) == Err(e) || Path(scores[k], path) == Err(e))
  {
    var k := Least(Failing(scores, path));
    if ParseInt(k).Err? then ParseInt(k).error else Path(scores[k], path).error
  }

  /** The value filed under an integer: the one of a key that reads as it (the least
      such key, when several do). */
  function ScoreFor(scores: map<string, Json>, path: seq<string>, n: int): (v: Json)
    requires forall k :: k in scores ==> ParseInt(k).Ok? && Path(scores[k], path).Ok?
    requires exists k :: k in scores && ParseInt(k) == Ok(n)
    ensures exists k :: k in scores && ParseInt(k) == Ok(n) && Path(scores[k], path) == Ok(v)
  {
    var k := Least(KeysFor(scores, n));
    Path(scores[k], path).value
  }

  /** `{int(k): v...path for k, v in scores.items()}`. */
  function ByKey(scores: map<string, Json>, path: seq<string>): (r: Result<map<int, Json>>)
    ensures r.Ok? <==> forall k :: k in scores ==> ParseInt(k).Ok? && Path(scores[k], path).Ok?
    ensures r.Ok? ==> forall n :: n in r.value <==> exists k :: k in scores && ParseInt(k) == Ok(n)
    ensures r.Ok? ==> forall n :: n in r.value ==>
      exists k :: k in scores && ParseInt(k) == Ok(n) && Path(scores[k], path) == Ok(r.value[n])
    ensures r.Err? ==> exists k :: k in scores && (ParseInt(k) == Err(r.error) || Path(scores[k], path) == Err(r.error))
  {
    if Failing(scores, path) != {} then
      Err(SomeFailure(scores, path))
    else
      assert forall k :: k in scores ==> !Fails(scores, path, k) by {
        forall k | k in scores
          ensures !Fails(scores, path, k)
        {
          assert k !in Failing(scores, path);
        }
      }
      Ok(ScoresByInt(scores, path))
  }

  /** The dict comprehension once every key reads as an integer and every value has the
      path. */
  function ScoresByInt(scores: map<string, Json>, path: seq<string>): (r: map<int, Json>)
    requires forall k :: k in scores ==> ParseInt(k).Ok? && Path(scores[k], path).Ok?
    ensures forall n :: n in r <==> exists k :: k in scores && ParseInt(k) == Ok(n)
    ensures forall n :: n in r ==>
      exists k :: k in scores && ParseInt(k) == Ok(n) && Path(scores[k], path) == Ok(r[n])
  {
    var ns := set k | k in scores :: ParseInt(k).value;
    assert forall n :: n in ns <==> exists k :: k in scores && ParseInt(k) == Ok(n);
    map n | n in ns :: ScoreFor(scores, path, n)
  }

  /** The sub-models read from the English Wikipedia scores whatever the model's wiki. */
  predicate EnglishOnly(sub: string) {
    sub == "articlequality" || sub == "draftquality"
  }

  /** `x['enwiki']` for those, `x[model[:6]]` otherwise. */
  function WikiSite(model: string, sub: string): string {
    if EnglishOnly(sub) then "enwiki" else Slice(model, 0, 6)
  }

  function WikiPath(sub: string): seq<string> {
    if EnglishOnly(sub) then [sub, "score", "probability"] else [sub, "score", "probability", "true"]
  }

  /** The scores object under a site of a response, when there is one. */
  function ScoresAt(x: Json, site: string): map<string, Json> {
    var scores := Path(x, [site, "scores"]);
    if scores.Ok? && scores.value.Obj? then scores.value.fields else map[]
  }

  /** The dict the `wiki` branch gets from one response. A response without the model's
      own wiki is skipped; for the sub-models read from `enwiki`, a response without
      `enwiki` raises KeyError. */
  function WikiScores(x: Json, site: string, skipMissing: bool, path: seq<string>): (r: Result<map<int, Json>>)
    ensures skipMissing && !Has(x, site) ==> r == Ok(map[])
    ensures !skipMissing && !Has(x, site) ==> r == Err(KeyError(Str(site)))
    ensures r.Ok? && (!skipMissing || Has(x, site)) ==> r == ByKey(ScoresAt(x, site), path)
  {
    if skipMissing && !Has(x, site) then Ok(map[])
    else
      var scores :- Path(x, [site, "scores"]);
      if !scores.Obj? then Err(AttributeError("object has no attribute 'items'"))
      else ByKey(scores.fields, path)
  }

  /** The dicts of all responses merged in order: a later response wins. */
  function Merge(maps: seq<map<int, Json>>): (m: map<int, Json>)
    ensures forall n :: n in m <==> exists i :: 0 <= i < |maps| && n in maps[i]
  {
    if maps == [] then map[]
    else
      var init := maps[..|maps| - 1];
      assert forall i :: 0 <= i < |init| ==> init[i] == maps[i];
      Merge(init) + maps[|maps| - 1]
  }

  /** The value a merged key carries is the one of the last response that has it. */
  lemma {:induction false} MergeLast(maps: seq<map<int, Json>>, i: nat, n: int)
    requires i < |maps| && n in maps[i]
    requires forall j :: i < j < |maps| ==> n !in maps[j]
    ensures n in Merge(maps) && Merge(maps)[n] == maps[i][n]
  {
    if i < |maps| - 1 {
      var init := maps[..|maps| - 1];
      MergeLast(init, i, n);
    }
  }

  /** What one response contributes to `quals` for `model`. */
  function ResponseScores(model: string, sub: string, x: Json): Result<map<int, Json>> {
    match FamilyOf(model)
    case ArticleQuality => ByRevisionId(x, ["score"])
    case RevertRisk => ByRevisionId(x, ["output", "probabilities", "true"])
    case WikiModel => WikiScores(x, WikiSite(model, sub), !EnglishOnly(sub), WikiPath(sub))
    case Unknown => Ok(map[])
  }

  const UnknownModelMessage := "Model not recognized"

  /** `quals` for one model: the scores in the responses, each response parsed in turn.
      An unknown model raises ValueError, and a `wiki` model without a dash IndexError. */
  function QualsOf(model: string, responses: seq<Json>): (r: Result<map<int, Json>>)
    ensures FamilyOf(model) == Unknown ==> r == Err(ValueError(Str(UnknownModelMessage)))
    ensures FamilyOf(model) == WikiModel && SecondPart(model).Err? ==> r == Err(SecondPart(model).error)
  {
    if FamilyOf(model) == Unknown then Err(ValueError(Str(UnknownModelMessage)))
    else
      var sub :- if FamilyOf(model) == WikiModel then SecondPart(model) else Ok("");
      var parsed :- Api.Gathered(seq(|responses|, i requires 0 <= i < |responses| => ResponseScores(model, sub, responses[i])));
      Ok(Merge(parsed))
  }

  /** The scores of a response that has a revision id, for the models that read one. */
  function RecordPath(model: string): seq<string> {
    if model == "articlequality" then ["score"] else ["output", "probabilities", "true"]
  }

  /** The dicts `quals` merges, one per response. */
  lemma QualsParts(model: string, responses: seq<Json>) returns (sub: string, ms: seq<map<int, Json>>)
    requires QualsOf(model, responses).Ok?
    ensures |ms| == |responses| && QualsOf(model, responses).value == Merge(ms)
    ensures FamilyOf(model) != WikiModel ==> sub == ""
    ensures FamilyOf(model) == WikiModel ==> SecondPart(model) == Ok(sub)
    ensures forall i :: 0 <= i < |responses| ==> ResponseScores(model, sub, responses[i]) == Ok(ms[i])
  {
    sub := if FamilyOf(model) == WikiModel then SecondPart(model).value else "";
    var parsed := seq(|responses|, i requires 0 <= i < |responses| => ResponseScores(model, sub, responses[i]));
    ms := Api.Gathered(parsed).value;
  }

  /** What one response with a revision id contributes. */
  lemma OneRecord(model: string, q: Json, m: map<int, Json>, n: int)
    requires FamilyOf(model) == ArticleQuality || FamilyOf(model) == RevertRisk
    requires ResponseScores(model, "", q) == Ok(m)
    ensures n in m <==> Has(q, "revision_id") && IntOf(q.fields["revision_id"]) == Ok(n)
    ensures n in m ==> Path(q, RecordPath(model)) == Ok(m[n])
  {
    assert ByRevisionId(q, RecordPath(model)) == Ok(m);
  }

  /** For `articlequality` and the `revertrisk` models, the scores are filed under the
      responses' revision ids: a response without `revision_id` is ignored, and a
      revision id carries the score of the last response with that id. */
  lemma RevisionIdScores(model: string, responses: seq<Json>, n: int)
    requires FamilyOf(model) == ArticleQuality || FamilyOf(model) == RevertRisk
    requires QualsOf(model, responses).Ok?
    ensures var quals := QualsOf(model, responses).value;
      n in quals <==> exists i ::
        && 0 <= i < |responses| && Has(responses[i], "revision_id")
        && IntOf(responses[i].fields["revision_id"]) == Ok(n)
    ensures var quals := QualsOf(model, responses).value;
      n in quals ==> exists i ::
        && 0 <= i < |responses| && Has(responses[i], "revision_id")
        && IntOf(responses[i].fields["revision_id"]) == Ok(n)
        && Path(responses[i], RecordPath(model)) == Ok(quals[n])
        && forall j :: i < j < |responses| && Has(responses[j], "revision_id") ==>
             IntOf(responses[j].fields["revision_id"]) != Ok(n)
  {
    var sub, ms := QualsParts(model, responses);
    var quals := Merge(ms);
    if n in quals {
      var i :| 0 <= i < |ms| && n in ms[i] && forall j :: i < j < |ms| ==> n !in ms[j] by {
        LastHolder(ms, n);
      }
      MergeLast(ms, i, n);
      OneRecord(model, responses[i], ms[i], n);
      forall j | i < j < |responses| && Has(responses[j], "revision_id")
        ensures IntOf(responses[j].fields["revision_id"]) != Ok(n)
      {
        OneRecord(model, responses[j], ms[j], n);
      }
    }
    forall i | 0 <= i < |responses| && Has(responses[i], "revision_id") && IntOf(responses[i].fields["revision_id"]) == Ok(n)
      ensures n in quals
    {
      OneRecord(model, responses[i], ms[i], n);
    }
  }

  /** For the `wiki` models, the scores are filed under the keys of each response's
      scores object, read as integers; a key carries the score of the last response
      that lists it. */
  lemma WikiModelScores(model: string, responses: seq<Json>, n: int)
    requires FamilyOf(model) == WikiModel
    requires QualsOf(model, responses).Ok?
    ensures SecondPart(model).Ok?
    ensures var sub := SecondPart(model).value;
      var site := WikiSite(model, sub);
      var quals := QualsOf(model, responses).value;
      && (n in quals <==> exists i, k ::
           && 0 <= i < |responses| && k in ScoresAt(responses[i], site) && ParseInt(k) == Ok(n))
      && (n in quals ==> exists i, k ::
           && 0 <= i < |responses| && k in ScoresAt(responses[i], site) && ParseInt(k) == Ok(n)
           && Path(ScoresAt(responses[i], site)[k], WikiPath(sub)) == Ok(quals[n]))
  {
    var sub, ms := QualsParts(model, responses);
    var site := WikiSite(model, sub);
    var objects := seq(|responses|, i requires 0 <= i < |responses| => ScoresAt(responses[i], site));
    forall i | 0 <= i < |responses|
      ensures ByKey(objects[i], WikiPath(sub)) == Ok(ms[i])
    {
      OneWiki(model, sub, responses[i], ms[i]);
    }
    MergedByKey(objects, WikiPath(sub), ms, n);
  }

  /** Merging the dicts read from a list of scores objects. */
  lemma MergedByKey(objects: seq<map<string, Json>>, path: seq<string>, ms: seq<map<int, Json>>, n: int)
    requires |ms| == |objects|
    requires forall i :: 0 <= i < |objects| ==> ByKey(objects[i], path) == Ok(ms[i])
    ensures n in Merge(ms) <==> exists i, k :: 0 <= i < |objects| && k in objects[i] && ParseInt(k) == Ok(n)
    ensures n in Merge(ms) ==> exists i, k ::
      && 0 <= i < |objects| && k in objects[i] && ParseInt(k) == Ok(n)
      && Path(objects[i][k], path) == Ok(Merge(ms)[n])
  {
    if n in Merge(ms) {
      MergedByKeyFrom(objects, path, ms, n);
    }
    forall i, k | 0 <= i < |objects| && k in objects[i] && ParseInt(k) == Ok(n)
      ensures n in Merge(ms)
    {
      ByKeyHas(objects[i], path, k, n);
      assert n in ms[i];
    }
  }

  lemma MergedByKeyFrom(objects: seq<map<string, Json>>, path: seq<string>, ms: seq<map<int, Json>>, n: int)
    requires |ms| == |objects|
    requires forall i :: 0 <= i < |objects| ==> ByKey(objects[i], path) == Ok(ms[i])
    requires n in Merge(ms)
    ensures exists i, k ::
      && 0 <= i < |objects| && k in objects[i] && ParseInt(k) == Ok(n)
      && Path(objects[i][k], path) == Ok(Merge(ms)[n])
  {
    var i :| 0 <= i < |ms| && n in ms[i] && forall j :: i < j < |ms| ==> n !in ms[j] by {
      LastHolder(ms, n);
    }
    MergeLast(ms, i, n);
    var k := ByKeyWitness(objects[i], path, n);
  }

  /** The key a value of the dict was read from. */
  lemma ByKeyWitness(scores: map<string, Json>, path: seq<string>, n: int) returns (k: string)
    requires ByKey(scores, path).Ok? && n in ByKey(scores, path).value
    ensures k in scores && ParseInt(k) == Ok(n) && Path(scores[k], path) == Ok(ByKey(scores, path).value[n])
  {
    k :| k in scores && ParseInt(k) == Ok(n) && Path(scores[k], path) == Ok(ByKey(scores, path).value[n]);
  }

  lemma ByKeyHas(scores: map<string, Json>, path: seq<string>, k: string, n: int)
    requires ByKey(scores, path).Ok? && k in scores && ParseInt(k) == Ok(n)
    ensures n in ByKey(scores, path).value
  {
  }

  /** One response's dict in the `wiki` branch is that of its scores object. */
  lemma OneWiki(model: string, sub: string, x: Json, m: map<int, Json>)
    requires FamilyOf(model) == WikiModel
    requires ResponseScores(model, sub, x) == Ok(m)
    ensures ByKey(ScoresAt(x, WikiSite(model, sub)), WikiPath(sub)) == Ok(m)
  {
    var site := WikiSite(model, sub);
    assert WikiScores(x, site, !EnglishOnly(sub), WikiPath(sub)) == Ok(m);
    if !EnglishOnly(sub) && !Has(x, site) {
      assert ScoresAt(x, site) == map[];
      assert ByKey(map[], WikiPath(sub)) == Ok(map[]);
    }
  }

  /** A key of the merged dict has a last response that holds it. */
  lemma LastHolder(ms: seq<map<int, Json>>, n: int)
    requires exists i :: 0 <= i < |ms| && n in ms[i]
    ensures exists i :: 0 <= i < |ms| && n in ms[i] && forall j :: i < j < |ms| ==> n !in ms[j]
  {
    var i :| 0 <= i < |ms| && n in ms[i];
    while exists j :: i < j < |ms| && n in ms[j]
      invariant 0 <= i < |ms| && n in ms[i]
      decreases |ms| - i
    {
      var j :| i < j < |ms| && n in ms[j];
      i := j;
    }
  }

  // ---------------------------------------------------------------------------
  // get_revisions_quality

  /** `models` as given: one model name, or a list of them. */
  datatype Models = OneModel(name: string) | ModelList(names: seq<string>)

  /** A single model name is scored as a list of one. */
  function ModelsList(models: Models): (r: seq<string>)
    ensures models.OneModel? ==> r == [models.name]
    ensures models.ModelList? ==> r == models.names
  {
    match models
    case OneModel(name) => [name]
    case ModelList(names) => names
  }

  /** The scores of one revision, one entry per model, in the order they were filed. */
  type Scores = seq<(string, Json)>

  /** `{"rev_id": x, "lang": lang}`. */
  function ScoreQuery(lang: string, revid: int): Api.Params {
    map["rev_id" := Int(revid), "lang" := Str(lang)]
  }

  /** One scoring query per revision, in order. */
  function ScoreQueries(revids: seq<int>, lang: string): (qs: seq<Api.Params>)
    ensures |qs| == |revids|
    ensures forall i :: 0 <= i < |revids| ==>
      Revisions.Sets(qs[i], "rev_id", Int(revids[i])) && Revisions.Sets(qs[i], "lang", Str(lang))
  {
    seq(|revids|, i requires 0 <= i < |revids| => ScoreQuery(lang, revids[i]))
  }

  /** `{int(x): {} for x in revids}`: every revision once, in first-occurrence order, with
      no scores yet. */
  function InitialScores(revids: seq<int>): (r: seq<(int, Scores)>)
    ensures Firsts(r) == Dedupe(revids)
    ensures forall i :: 0 <= i < |r| ==> r[i].1 == []
  {
    var ps := Tagged(revids, []);
    DictItemsMeaning(ps);
    assert Firsts(ps) == revids;
    var r := DictItems(ps);
    forall i | 0 <= i < |r|
      ensures r[i].1 == []
    {
      DictItemsFrom(ps, i);
      TaggedMember(revids, [], r[i].0, r[i].1);
    }
    r
  }

  /** The scores of one model for the revisions: the responses to the scoring queries,
      gathered in query order, parsed for the model. `respond` stands for what the
      Lift Wing service answers to a query posted to a model's endpoint. */
  function ModelQuals(model: string, revids: seq<int>, lang: string,
                      respond: (string, Api.Params) -> Result<Json>): Result<map<int, Json>> {
    var responses :- Api.Gathered(Api.IterateAsyncQuery(ScoreQueries(revids, lang), q => respond(model, q)));
    QualsOf(model, responses)
  }

  /** `v[model] = quals[k]` for every revision `k` that has a score, and nothing for the
      others. */
  function Recorded(revisions: seq<(int, Scores)>, model: string, quals: map<int, Json>): (r: seq<(int, Scores)>)
    ensures |r| == |revisions| && Firsts(r) == Firsts(revisions)
  {
    seq(|revisions|, i requires 0 <= i < |revisions| =>
      var (k, v) := revisions[i];
      if k in quals then (k, AssignEntry(v, model, quals[k])) else (k, v))
  }

  /** After filing a model's scores, a revision with a score maps the model to it, and
      every other score stays as it was; a revision without one keeps all its scores. */
  lemma RecordedLookup(revisions: seq<(int, Scores)>, model: string, quals: map<int, Json>, i: nat)
    requires i < |revisions| && NoDups(Firsts(revisions[i].1))
    ensures var (k, v) := revisions[i];
      var after := Recorded(revisions, model, quals)[i].1;
      && NoDups(Firsts(after))
      && FromPairs(after) == if k in quals then FromPairs(v)[model := quals[k]] else FromPairs(v)
  {
    var (k, v) := revisions[i];
    if k in quals {
      AssignEntryLookup(v, model, quals[k]);
    }
  }

  /** The loop over the revisions that files one model's scores. */
  method RecordScores(revisions: seq<(int, Scores)>, model: string, quals: map<int, Json>)
    returns (r: seq<(int, Scores)>)
    ensures r == Recorded(revisions, model, quals)
  {
    r := revisions;
    for i := 0 to |revisions|
      invariant |r| == |revisions|
      invariant forall j :: 0 <= j < i ==> r[j] == Recorded(revisions, model, quals)[j]
      invariant forall j :: i <= j < |revisions| ==> r[j] == revisions[j]
    {
      var (k, v) := r[i];
      if k in quals {
        r := r[i := (k, AssignEntry(v, model, quals[k]))];
      }
    }
  }

  /** The scores of each model, as `get_revisions_quality` asks for them. */
  function QualsFor(revids: seq<int>, lang: string, respond: (string, Api.Params) -> Result<Json>): string -> Result<map<int, Json>> {
    model => ModelQuals(model, revids, lang, respond)
  }

  /** `get_revisions_quality` on lists: the scores of each model in turn, filed under the
      revisions. An unknown model, or a response that does not parse, raises. */
  function RevisionsQuality(revids: seq<int>, lang: string, models: seq<string>,
                            respond: (string, Api.Params) -> Result<Json>): Result<seq<(int, Scores)>> {
    Filed(revids, models, QualsFor(revids, lang, respond))
  }

  /** The revisions with the scores of the models filed in turn, each model's scores
      given by `qualsFor`. */
  function Filed(revids: seq<int>, models: seq<string>, qualsFor: string -> Result<map<int, Json>>): (r: Result<seq<(int, Scores)>>)
    ensures r.Ok? <==> forall j :: 0 <= j < |models| ==> qualsFor(models[j]).Ok?
    ensures r.Err? ==> exists j :: 0 <= j < |models| && qualsFor(models[j]) == Err(r.error)
    ensures r.Ok? ==> Firsts(r.value) == Dedupe(revids)
    ensures r.Ok? ==> forall i :: 0 <= i < |r.value| ==> NoDups(Firsts(r.value[i].1))
  {
    if models == [] then Ok(InitialScores(revids))
    else
      var init := models[..|models| - 1];
      var model := models[|models| - 1];
      assert forall j :: 0 <= j < |init| ==> init[j] == models[j];
      var revisions :- Filed(revids, init, qualsFor);
      var quals :- qualsFor(model);
      var r := Recorded(revisions, model, quals);
      assert forall i :: 0 <= i < |r| ==> NoDups(Firsts(r[i].1)) by {
        forall i | 0 <= i < |r|
          ensures NoDups(Firsts(r[i].1))
        {
          RecordedLookup(revisions, model, quals, i);
        }
      }
      Ok(r)
  }

  /** A revision's scores hold exactly the models whose scores include it, each with
      its score; a model asked for twice files the same score twice. */
  lemma {:induction false} ScoresOfModel(revids: seq<int>, models: seq<string>,
                                         qualsFor: string -> Result<map<int, Json>>, i: nat, m: string)
    requires Filed(revids, models, qualsFor).Ok?
    requires i < |Filed(revids, models, qualsFor).value|
    ensures var (k, scores) := Filed(revids, models, qualsFor).value[i];
      && (m in FromPairs(scores) <==> m in models && k in qualsFor(m).value)
      && (m in FromPairs(scores) ==> FromPairs(scores)[m] == qualsFor(m).value[k])
  {
    var r := Filed(revids, models, qualsFor).value;
    if models == [] {
      FiledNone(revids, qualsFor, i);
    } else {
      var init := models[..|models| - 1];
      FiledLastLookup(revids, models, qualsFor, i);
      ScoresOfModel(revids, init, qualsFor, i, m);
      ScoresOfLastModel(revids, models, qualsFor, i, m);
    }
  }

  /** Before any model, no revision has a score. */
  lemma FiledNone(revids: seq<int>, qualsFor: string -> Result<map<int, Json>>, i: nat)
    requires i < |Dedupe(revids)|
    ensures Filed(revids, [], qualsFor) == Ok(InitialScores(revids))
    ensures FromPairs(Filed(revids, [], qualsFor).value[i].1) == map[]
  {
    assert Firsts(InitialScores(revids))[i] == Dedupe(revids)[i];
  }

  /** Revision `i` after the last model: the model is filed with the revision's score,
      when it has one. */
  lemma FiledLastLookup(revids: seq<int>, models: seq<string>, qualsFor: string -> Result<map<int, Json>>, i: nat)
    requires models != [] && Filed(revids, models, qualsFor).Ok?
    requires i < |Filed(revids, models, qualsFor).value|
    ensures var init := models[..|models| - 1];
      var model := models[|models| - 1];
      && Filed(revids, init, qualsFor).Ok? && qualsFor(model).Ok?
      && i < |Filed(revids, init, qualsFor).value|
      && var (k, v) := Filed(revids, init, qualsFor).value[i];
        var quals := qualsFor(model).value;
        && Filed(revids, models, qualsFor).value[i].0 == k
        && FromPairs(Filed(revids, models, qualsFor).value[i].1) ==
          if k in quals then FromPairs(v)[model := quals[k]] else FromPairs(v)
  {
    var init := models[..|models| - 1];
    var model := models[|models| - 1];
    FiledLast(revids, models, qualsFor);
    var r := Filed(revids, models, qualsFor).value;
    var before := Filed(revids, init, qualsFor).value;
    RecordedLookup(before, model, qualsFor(model).value, i);
    assert Firsts(r)[i] == Firsts(before)[i];
  }

  /** The step of `ScoresOfModel`: what holds for the models but the last holds for all. */
  lemma ScoresOfLastModel(revids: seq<int>, models: seq<string>, qualsFor: string -> Result<map<int, Json>>, i: nat, m: string)
    requires models != [] && Filed(revids, models, qualsFor).Ok?
    requires i < |Filed(revids, models, qualsFor).value|
    requires var init := models[..|models| - 1];
      && Filed(revids, init, qualsFor).Ok?
      && i < |Filed(revids, init, qualsFor).value|
      && var (k, scores) := Filed(revids, init, qualsFor).value[i];
        && (m in FromPairs(scores) <==> m in init && k in qualsFor(m).value)
        && (m in FromPairs(scores) ==> FromPairs(scores)[m] == qualsFor(m).value[k])
    ensures var (k, scores) := Filed(revids, models, qualsFor).value[i];
      && (m in FromPairs(scores) <==> m in models && k in qualsFor(m).value)
      && (m in FromPairs(scores) ==> FromPairs(scores)[m] == qualsFor(m).value[k])
  {
    var init := models[..|models| - 1];
    var model := models[|models| - 1];
    SplitLast(models);
    FiledLastLookup(revids, models, qualsFor, i);
    var before := Filed(revids, init, qualsFor).value;
    FiledModel(before[i].0, before[i].1, Filed(revids, models, qualsFor).value[i].1, init, model, qualsFor, m);
  }

  /** One model more, for one revision `k` whose scores go from `v` to `after`. */
  lemma FiledModel(k: int, v: Scores, after: Scores, init: seq<string>, model: string,
                   qualsFor: string -> Result<map<int, Json>>, m: string)
    requires forall j :: 0 <= j < |init| ==> qualsFor(init[j]).Ok?
    requires qualsFor(model).Ok?
    requires m in FromPairs(v) <==> m in init && k in qualsFor(m).value
    requires m in FromPairs(v) ==> FromPairs(v)[m] == qualsFor(m).value[k]
    requires var quals := qualsFor(model).value;
      FromPairs(after) == if k in quals then FromPairs(v)[model := quals[k]] else FromPairs(v)
    ensures m in FromPairs(after) <==> m in init + [model] && k in qualsFor(m).value
    ensures m in FromPairs(after) ==> FromPairs(after)[m] == qualsFor(m).value[k]
  {
    assert m in init + [model] <==> m in init || m == model;
  }

  /** The last model's scores are filed on top of those of the models before it. */
  lemma FiledLast(revids: seq<int>, models: seq<string>, qualsFor: string -> Result<map<int, Json>>)
    requires models != [] && Filed(revids, models, qualsFor).Ok?
    ensures var init := models[..|models| - 1];
      var model := models[|models| - 1];
      && Filed(revids, init, qualsFor).Ok? && qualsFor(model).Ok?
      && Filed(revids, models, qualsFor).value == Recorded(Filed(revids, init, qualsFor).value, model, qualsFor(model).value)
  {
  }

  /** Once a model's scores fail, the whole call fails with that error. */
  lemma {:induction false} FiledErrorPersists(revids: seq<int>, models: seq<string>,
                                              qualsFor: string -> Result<map<int, Json>>, j: nat, e: Error)
    requires j < |models| && Filed(revids, models[..j + 1], qualsFor) == Err(e)
    ensures Filed(revids, models, qualsFor) == Err(e)
    decreases |models|
  {
    if j + 1 < |models| {
      var init := models[..|models| - 1];
      assert init[..j + 1] == models[..j + 1];
      FiledErrorPersists(revids, init, qualsFor, j, e);
    } else {
      assert models[..j + 1] == models;
    }
  }

  /** Filing the scores of one model more. */
  lemma FiledNext(revids: seq<int>, models: seq<string>, qualsFor: string -> Result<map<int, Json>>, j: nat)
    requires j < |models|
    ensures Filed(revids, models[..j + 1], qualsFor) ==
      var before := Filed(revids, models[..j], qualsFor);
      if before.Err? then before
      else if qualsFor(models[j]).Err? then Err(qualsFor(models[j]).error)
      else Ok(Recorded(before.value, models[j], qualsFor(models[j]).value))
  {
    var s := models[..j + 1];
    assert s[..|s| - 1] == models[..j];
    assert s[|s| - 1] == models[j];
  }

  /** `get_revisions_quality`: the loop over the models, each one's scores filed under
      the revisions before the next is asked for. */
  method GetRevisionsQuality(revids: Revisions.Revids, lang: string, models: Models,
                             respond: (string, Api.Params) -> Result<Json>)
    returns (r: Result<seq<(int, Scores)>>)
    ensures r == RevisionsQuality(Revisions.RevidsList(revids), lang, ModelsList(models), respond)
  {
    var ids := Revisions.RevidsList(revids);
    var ms := ModelsList(models);
    var qualsFor := QualsFor(ids, lang, respond);
    var revisions := InitialScores(ids);
    for j := 0 to |ms|
      invariant Filed(ids, ms[..j], qualsFor) == Ok(revisions)
    {
      FiledNext(ids, ms, qualsFor, j);
      var quals := qualsFor(ms[j]);
      if quals.Err? {
        FiledErrorPersists(ids, ms, qualsFor, j, quals.error);
        return Err(quals.error);
      }
      revisions := RecordScores(revisions, ms[j], quals.value);
    }
    assert ms[..|ms|] == ms;
    return Ok(revisions);
  }

  // ---------------------------------------------------------------------------
  // get_articles_quality

  /** The single-revision path runs when `date` is given or neither `start` nor `stop`
      is; the range path runs otherwise. */
  predicate FetchSingle(date: Option<string>, start: Option<string>, stop: Option<string>) {
    Revisions.Given(date) || !(Revisions.Given(start) || Revisions.Given(stop))
  }

  /** The range path's condition holds whenever the single-revision path does not run,
      so the final `ValueError` cannot be reached. */
  lemma NoThirdPath(date: Option<string>, start: Option<string>, stop: Option<string>)
    ensures !FetchSingle(date, start, stop) ==> Revisions.Given(start) || Revisions.Given(stop)
  {
  }

  const RevisionProps := ["timestamp", "ids"]

  /** The revisions of the articles: the latest one (at `date`) of each article on the
      single-revision path, the list of them in the range otherwise, as a list value.
      `asWritten` selects `get_revisions` as written over its intended defaults;
      `single` and `ranged` stand for what the revision queries of each path answer. */
  function FetchArticles(titles: Option<seq<string>>, pageids: Option<seq<int>>,
                         date: Option<string>, start: Option<string>, stop: Option<string>,
                         now: string, monthBefore: string -> string,
                         single: Api.Params -> Result<Json>, ranged: Api.Params -> Result<Json>,
                         asWritten: bool): (r: Result<seq<(Json, Json)>>)
    ensures FetchSingle(date, start, stop) ==>
      r == Revisions.GetRevisionRun(titles, pageids, date, RevisionProps, None, now, single)
    ensures !FetchSingle(date, start, stop) && r.Ok? ==>
      var revs := (if asWritten then Revisions.GetRevisionsRunAsWritten(titles, pageids, start, stop, RevisionProps, ranged)
                   else Revisions.GetRevisionsRun(titles, pageids, start, stop, RevisionProps, now, monthBefore, ranged));
      && revs.Ok? && |r.value| == |revs.value|
      && forall i :: 0 <= i < |revs.value| ==> r.value[i] == (revs.value[i].0, Arr(revs.value[i].1))
  {
    if FetchSingle(date, start, stop) then
      Revisions.GetRevisionRun(titles, pageids, date, RevisionProps, None, now, single)
    else
      var revs :- if asWritten then Revisions.GetRevisionsRunAsWritten(titles, pageids, start, stop, RevisionProps, ranged)
                  else Revisions.GetRevisionsRun(titles, pageids, start, stop, RevisionProps, now, monthBefore, ranged);
      Ok(AsLists(revs))
  }

  /** Each article's revisions as one list value. */
  function AsLists(revs: seq<(Json, seq<Json>)>): (r: seq<(Json, Json)>)
    ensures |r| == |revs| && forall i :: 0 <= i < |revs| ==> r[i] == (revs[i].0, Arr(revs[i].1))
  {
    seq(|revs|, i requires 0 <= i < |revs| => (revs[i].0, Arr(revs[i].1)))
  }

  /** `int(v['revid'])`. */
  function RevidOf(v: Json): (r: Result<int>)
    ensures r.Ok? ==> Has(v, "revid") && IntOf(v.fields["revid"]) == r
    ensures !Has(v, "revid") ==> r == Err(KeyError(Str("revid")))
  {
    var id :- Index(v, "revid");
    IntOf(id)
  }

  /** The revision ids of one article: `[int(v['revid'])]` on the single-revision path,
      `[int(v['revid']) for v in vlist]` on the range path. */
  function ArticleRevids(v: Json, single: bool): (r: Result<seq<int>>)
    ensures single && r.Ok? ==> RevidOf(v).Ok? && r.value == [RevidOf(v).value]
    ensures !single && r.Ok? ==>
      && |r.value| == |Items(v)|
      && forall j :: 0 <= j < |Items(v)| ==> RevidOf(Items(v)[j]) == Ok(r.value[j])
  {
    if single then
      var id :- RevidOf(v);
      Ok([id])
    else
      Api.Gathered(seq(|Items(v)|, j requires 0 <= j < |Items(v)| => RevidOf(Items(v)[j])))
  }

  /** `rev_id_dict`: each article's revision ids, in the articles' order. */
  function RevidLists(items: seq<(Json, Json)>, single: bool): (r: Result<seq<seq<int>>>)
    ensures r.Ok? <==> forall i :: 0 <= i < |items| ==> ArticleRevids(items[i].1, single).Ok?
    ensures r.Ok? ==>
      && |r.value| == |items|
      && forall i :: 0 <= i < |items| ==> ArticleRevids(items[i].1, single) == Ok(r.value[i])
  {
    var each := seq(|items|, i requires 0 <= i < |items| => ArticleRevids(items[i].1, single));
    assert forall i :: 0 <= i < |items| ==> each[i] == ArticleRevids(items[i].1, single);
    Api.Gathered(each)
  }

  /** The revision ids sent for scoring are those of all the articles, each article's
      in turn: a revision id is sent exactly when some article lists it. */
  lemma ScoredRevids(items: seq<(Json, Json)>, single: bool, x: int)
    requires RevidLists(items, single).Ok?
    ensures var lists := RevidLists(items, single).value;
      x in Flatten(lists) <==> exists i :: 0 <= i < |items| && x in ArticleRevids(items[i].1, single).value
  {
    FlattenMember(RevidLists(items, single).value, x);
  }

  /** `quals[x]` for a revision id value `x`: the scores filed under it, None when there
      are none, TypeError for a value that cannot be a dict key. */
  function ScoresOf(id: Json, quals: seq<(int, Scores)>): (r: Result<Option<Scores>>)
    ensures id.Int? ==> r == Ok(if id.i in FromPairs(quals) then Some(FromPairs(quals)[id.i]) else None)
    ensures id.Null? || id.Str? ==> r == Ok(None)
  {
    match id
    case Int(i) => Ok(if i in FromPairs(quals) then Some(FromPairs(quals)[i]) else None)
    case Bool(b) =>
      var i := if b then 1 else 0;
      Ok(if i in FromPairs(quals) then Some(FromPairs(quals)[i]) else None)
    case Arr(_) => Err(TypeError("unhashable type: 'list'"))
    case Obj(_) => Err(TypeError("unhashable type: 'dict'"))
    case _ => Ok(None)
  }

  /** `v.update(quals[v['revid']])` on the single-revision path: the revision gains its
      scores; a revision id without scores raises KeyError. */
  function UpdateSingle(v: Json, quals: seq<(int, Scores)>): (r: Result<Json>)
    ensures r.Ok? <==>
      && Has(v, "revid") && ScoresOf(v.fields["revid"], quals).Ok?
      && ScoresOf(v.fields["revid"], quals).value.Some?
    ensures r.Ok? ==> r.value == Obj(v.fields + FromPairs(ScoresOf(v.fields["revid"], quals).value.value))
    ensures v.Arr? ==> r == Err(TypeError("list indices must be integers or slices, not str"))
  {
    if v.Arr? then Err(TypeError("list indices must be integers or slices, not str"))
    else
      var id :- Index(v, "revid");
      var found :- ScoresOf(id, quals);
      if found.None? then Err(KeyError(id)) else Ok(Obj(v.fields + FromPairs(found.value)))
  }

  /** `if rev['revid'] in quals: rev.update(quals[rev['revid']])` for one revision of a
      list. */
  function UpdateRevision(rev: Json, quals: seq<(int, Scores)>): (r: Result<Json>)
    ensures r.Ok? <==> Has(rev, "revid") && ScoresOf(rev.fields["revid"], quals).Ok?
    ensures r.Ok? && ScoresOf(rev.fields["revid"], quals).value.None? ==> r.value == rev
    ensures r.Ok? && ScoresOf(rev.fields["revid"], quals).value.Some? ==>
      r.value == Obj(rev.fields + FromPairs(ScoresOf(rev.fields["revid"], quals).value.value))
  {
    var id :- Index(rev, "revid");
    var found :- ScoresOf(id, quals);
    if found.None? then Ok(rev) else Ok(Obj(rev.fields + FromPairs(found.value)))
  }

  /** Every revision of a list updated in turn; the first that raises ends the loop. */
  function UpdateAll(revs: seq<Json>, quals: seq<(int, Scores)>): (r: Result<seq<Json>>)
    ensures r.Ok? <==> forall j :: 0 <= j < |revs| ==> UpdateRevision(revs[j], quals).Ok?
    ensures r.Ok? ==> |r.value| == |revs| && forall j :: 0 <= j < |revs| ==> UpdateRevision(revs[j], quals) == Ok(r.value[j])
  {
    var each := seq(|revs|, j requires 0 <= j < |revs| => UpdateRevision(revs[j], quals));
    assert forall j :: 0 <= j < |revs| ==> each[j] == UpdateRevision(revs[j], quals);
    Api.Gathered(each)
  }

  /** The range path's update of one article's value: `for rev in v: ...`. A list has
      its revisions updated; iterating over anything else yields no revision records
      (an empty dict or string changes nothing, any other value raises TypeError). */
  function UpdateEach(v: Json, quals: seq<(int, Scores)>): (r: Result<Json>)
    ensures v.Arr? ==> (r.Ok? <==> UpdateAll(v.items, quals).Ok?)
    ensures v.Arr? && r.Ok? ==> r.value == Arr(UpdateAll(v.items, quals).value)
    ensures v.Obj? && v.fields != map[] ==> r == Err(TypeError("string indices must be integers"))
  {
    match v
    case Arr(revs) =>
      var updated :- UpdateAll(revs, quals);
      Ok(Arr(updated))
    case Obj(fields) =>
      if fields == map[] then Ok(v) else Err(TypeError("string indices must be integers"))
    case Str(s) =>
      if s == "" then Ok(v) else Err(TypeError("string indices must be integers"))
    case _ => Err(TypeError("object is not iterable"))
  }

  /** The update of one article's value on the path `listMode` selects. */
  function Updater(quals: seq<(int, Scores)>, listMode: bool): Json -> Result<Json> {
    v => if listMode then UpdateEach(v, quals) else UpdateSingle(v, quals)
  }

  /** The final loop of `get_articles_quality`: every article's value updated with the
      scores. */
  function Attached(items: seq<(Json, Json)>, quals: seq<(int, Scores)>, listMode: bool): Result<seq<(Json, Json)>> {
    Revisions.MapValues(items, Updater(quals, listMode))
  }

  /** The loop itself: each article's value updated in turn, the first that raises
      ending it. */
  method AttachScores(items: seq<(Json, Json)>, quals: seq<(int, Scores)>, listMode: bool)
    returns (r: Result<seq<(Json, Json)>>)
    ensures r == Attached(items, quals, listMode)
  {
    var update := Updater(quals, listMode);
    var done: seq<(Json, Json)> := [];
    for i := 0 to |items|
      invariant |done| == i
      invariant forall j :: 0 <= j < i ==> update(items[j].1).Ok? && done[j] == (items[j].0, update(items[j].1).value)
    {
      var v := update(items[i].1);
      if v.Err? {
        Revisions.MapValuesFirstError(items, update, i);
        return Err(v.error);
      }
      done := done + [(items[i].0, v.value)];
    }
    assert Revisions.MapValues(items, update).Ok?;
    assert Revisions.MapValues(items, update).value == done;
    return Ok(done);
  }

  /** The articles' revisions with their scores attached, from the fetched revisions
      on: the revision ids, the scores, and the update on the path `listMode` selects. */
  function ScoredArticles(items: seq<(Json, Json)>, single: bool, lang: string, models: Models,
                          respond: (string, Api.Params) -> Result<Json>, listMode: bool): Result<seq<(Json, Json)>> {
    var lists :- RevidLists(items, single);
    var quals :- RevisionsQuality(Flatten(lists), lang, ModelsList(models), respond);
    Attached(items, quals, listMode)
  }

  /** `get_articles_quality` as written: the update takes the single-revision path
      exactly when neither `start` nor `stop` is given, whichever path fetched the
      revisions. */
  function ArticlesQualityAsWritten(titles: Option<seq<string>>, pageids: Option<seq<int>>, lang: string,
                                    date: Option<string>, start: Option<string>, stop: Option<string>,
                                    models: Models, now: string, monthBefore: string -> string,
                                    single: Api.Params -> Result<Json>, ranged: Api.Params -> Result<Json>,
                                    respond: (string, Api.Params) -> Result<Json>): Result<seq<(Json, Json)>> {
    var items :- FetchArticles(titles, pageids, date, start, stop, now, monthBefore, single, ranged, true);
    ScoredArticles(items, FetchSingle(date, start, stop), lang, models, respond,
                   Revisions.Given(start) || Revisions.Given(stop))
  }

  /** `get_articles_quality` as evidently intended: the update takes the path that
      fetched the revisions (and `get_revisions` has its intended defaults). */
  function ArticlesQuality(titles: Option<seq<string>>, pageids: Option<seq<int>>, lang: string,
                           date: Option<string>, start: Option<string>, stop: Option<string>,
                           models: Models, now: string, monthBefore: string -> string,
                           single: Api.Params -> Result<Json>, ranged: Api.Params -> Result<Json>,
                           respond: (string, Api.Params) -> Result<Json>): Result<seq<(Json, Json)>> {
    var items :- FetchArticles(titles, pageids, date, start, stop, now, monthBefore, single, ranged, false);
    ScoredArticles(items, FetchSingle(date, start, stop), lang, models, respond, !FetchSingle(date, start, stop))
  }

  /** On the single-revision path every revision id is scored (each one gets an entry,
      empty or not), so an article whose latest revision carries an integer revision id
      gets that revision back with its scores added. */
  lemma SingleRevisionsScored(items: seq<(Json, Json)>, lang: string, models: Models,
                              respond: (string, Api.Params) -> Result<Json>)
    requires forall i :: 0 <= i < |items| ==> Has(items[i].1, "revid") && items[i].1.fields["revid"].Int?
    requires RevisionsQuality(Flatten(RevidLists(items, true).value), lang, ModelsList(models), respond).Ok?
    ensures var r := ScoredArticles(items, true, lang, models, respond, false);
      var quals := RevisionsQuality(Flatten(RevidLists(items, true).value), lang, ModelsList(models), respond).value;
      && r.Ok? && |r.value| == |items|
      && forall i :: 0 <= i < |items| ==>
        && var id := items[i].1.fields["revid"].i;
        && id in FromPairs(quals)
        && r.value[i] == (items[i].0, Obj(items[i].1.fields + FromPairs(FromPairs(quals)[id])))
  {
    var lists := RevidLists(items, true).value;
    var quals := RevisionsQuality(Flatten(lists), lang, ModelsList(models), respond).value;
    forall i | 0 <= i < |items|
      ensures items[i].1.fields["revid"].i in FromPairs(quals)
      ensures UpdateSingle(items[i].1, quals).Ok?
    {
      var id := items[i].1.fields["revid"].i;
      assert lists[i] == [id];
      FlattenMember(lists, id);
      assert id in Dedupe(Flatten(lists));
      KeyInPairs(quals, id);
      UpdateSingleFound(items[i].1, quals);
    }
  }

  /** A key listed among the pairs is a key of the dict they build. */
  lemma KeyInPairs(quals: seq<(int, Scores)>, id: int)
    requires id in Firsts(quals)
    ensures id in FromPairs(quals)
  {
    var j :| 0 <= j < |quals| && Firsts(quals)[j] == id;
    assert quals[j] in quals;
  }

  /** A revision whose integer id has scores gains them. */
  lemma UpdateSingleFound(v: Json, quals: seq<(int, Scores)>)
    requires Has(v, "revid") && v.fields["revid"].Int? && v.fields["revid"].i in FromPairs(quals)
    ensures UpdateSingle(v, quals).Ok?
  {
  }

  /** When `date` is given together with `start` or `stop`, `get_articles_quality` as
      written fetches the latest revision of each article and then treats it as a list
      of revisions: iterating over the revision record yields its field names, and
      indexing a field name with `'revid'` raises TypeError. Whenever the intended
      version returns at least one article, the one as written raises. */
  lemma DateWithRangeRaises(titles: Option<seq<string>>, pageids: Option<seq<int>>, lang: string,
                            date: Option<string>, start: Option<string>, stop: Option<string>,
                            models: Models, now: string, monthBefore: string -> string,
                            single: Api.Params -> Result<Json>, ranged: Api.Params -> Result<Json>,
                            respond: (string, Api.Params) -> Result<Json>)
    requires Revisions.Given(date) && (Revisions.Given(start) || Revisions.Given(stop))
    requires ArticlesQuality(titles, pageids, lang, date, start, stop, models, now, monthBefore, single, ranged, respond).Ok?
    requires ArticlesQuality(titles, pageids, lang, date, start, stop, models, now, monthBefore, single, ranged, respond).value != []
    ensures ArticlesQualityAsWritten(titles, pageids, lang, date, start, stop, models, now, monthBefore, single, ranged, respond)
      == Err(TypeError("string indices must be integers"))
  {
    var items := FetchArticles(titles, pageids, date, start, stop, now, monthBefore, single, ranged, false).value;
    assert FetchArticles(titles, pageids, date, start, stop, now, monthBefore, single, ranged, true) == Ok(items);
    var lists := RevidLists(items, true).value;
    var quals := RevisionsQuality(Flatten(lists), lang, ModelsList(models), respond).value;
    assert Attached(items, quals, false).Ok?;
    assert UpdateSingle(items[0].1, quals).Ok?;
    assert UpdateEach(items[0].1, quals) == Err(TypeError("string indices must be integers")) by {
      assert "revid" in items[0].1.fields;
    }
    Revisions.MapValuesFirstError(items, Updater(quals, true), 0);
  }
}
