/** src/wikitools/pageviews.py: `api_article_views`, which reshapes what the pageviews
    client returns: views per date and article, summed per redirect target when
    `redirects` is set, or renamed (and with missing counts as zero) otherwise. The
    client's answer is an argument, and `process_articles` is not part of this model. */
module Pageviews {
  import opened Wrappers
  import opened JsonValues
  import opened Collections
  import opened Ints

  /** One date's views: `{article: count or None}`, as items. */
  type Views = seq<(string, Json)>

  /** One date's views summed per redirect target. */
  type Grouped = seq<(Json, int)>

  /** What `api_article_views` returns: per-target sums, or per-article views. */
  datatype ViewsOut =
    | ByTarget(grouped: seq<(string, Grouped)>)
    | ByArticle(renamed: seq<(string, Views)>)

  const NoMapMessage := "Redirects requested but no norm_map or redirect_map provided."

  /** `name.replace('_', ' ')`. */
  function Spaced(name: string): (r: string)
    ensures |r| == |name|
    ensures forall i :: 0 <= i < |name| ==> r[i] == (if name[i] == '_' then ' ' else name[i])
  {
    seq(|name|, i requires 0 <= i < |name| => if name[i] == '_' then ' ' else name[i])
  }

  // ---------------------------------------------------------------------------
  // int(value or 0)

  /** `int(value or 0)`: a falsy value (None, 0, False, "", [] or {}) counts as 0; anything
      else goes through `int`. */
  function IntOrZero(v: Json): (r: Result<int>)
    ensures !Truthy(v) ==> r == Ok(0)
    ensures v.Int? ==> r == Ok(v.i)
    ensures r.Err? ==> r.error.ValueError? || r.error.TypeError?
  {
    if !Truthy(v) then Ok(0) else IntOf(v)
  }

  /** `int` reads True as 1 and parses a non-empty string, and it raises exactly on a
      string that is not an integer literal and on a non-empty list or dict. */
  lemma IntOrZeroMeaning(v: Json)
    ensures v.Bool? ==> IntOrZero(v) == Ok(if v.b then 1 else 0)
    ensures v.Str? && v.s != "" ==> IntOrZero(v) == ParseInt(v.s)
    ensures IntOrZero(v).Err? <==>
      || (v.Str? && v.s != "" && ParseInt(v.s).Err?)
      || (v.Arr? && v.items != [])
      || (v.Obj? && v.fields != map[])
  {}

  // ---------------------------------------------------------------------------
  // Sums per target

  /** The sum of a grouped date's counts. */
  function SumValues(d: Grouped): int {
    if d == [] then 0 else d[0].1 + SumValues(d[1..])
  }

  /** The count a grouped date holds for `t`; zero when `t` is not a key. */
  function Count(d: Grouped, t: Json): int {
    if d == [] then 0 else if d[0].0 == t then d[0].1 else Count(d[1..], t)
  }

  /** `pv_grouped[k] += n`, or `pv_grouped[k] = n` when `k` is new: a new target goes
      last. */
  function AddEntry(d: Grouped, k: Json, n: int): (r: Grouped)
    ensures Firsts(r) == if k in Firsts(d) then Firsts(d) else Firsts(d) + [k]
  {
    if d == [] then [(k, n)]
    else if d[0].0 == k then
      FirstsCons(d[0], d[1..]);
      FirstsCons((k, d[0].1 + n), d[1..]);
      [(k, d[0].1 + n)] + d[1..]
    else
      var rest := AddEntry(d[1..], k, n);
      FirstsCons(d[0], d[1..]);
      FirstsCons(d[0], rest);
      [d[0]] + rest
  }

  /** Adding `n` to one target adds `n` to the date's total. */
  lemma {:induction false} AddEntrySum(d: Grouped, k: Json, n: int)
    ensures SumValues(AddEntry(d, k, n)) == SumValues(d) + n
  {
    if d != [] && d[0].0 != k {
      AddEntrySum(d[1..], k, n);
      assert ([d[0]] + AddEntry(d[1..], k, n))[1..] == AddEntry(d[1..], k, n);
    } else if d != [] {
      assert ([(k, d[0].1 + n)] + d[1..])[1..] == d[1..];
    }
  }

  /** Adding `n` to target `k` adds `n` to the count of `k` and changes no other count. */
  lemma {:induction false} AddEntryCount(d: Grouped, k: Json, n: int, t: Json)
    ensures Count(AddEntry(d, k, n), t) == Count(d, t) + (if t == k then n else 0)
  {
    if d != [] && d[0].0 != k {
      AddEntryCount(d[1..], k, n, t);
      assert ([d[0]] + AddEntry(d[1..], k, n))[1..] == AddEntry(d[1..], k, n);
    } else if d != [] {
      assert ([(k, d[0].1 + n)] + d[1..])[1..] == d[1..];
    }
  }

  /** Every article of the date is named in the redirect map. */
  predicate AllMapped(pv: Views, redirectMap: map<Json, Json>) {
    forall i :: 0 <= i < |pv| ==> Str(Spaced(pv[i].0)) in redirectMap
  }

  /** Every value of the date is one `int(value or 0)` accepts. */
  predicate AllCounted(pv: Views) {
    forall i :: 0 <= i < |pv| ==> IntOrZero(pv[i].1).Ok?
  }

  /** The redirect target of each article, in order. */
  function Targets(pv: Views, redirectMap: map<Json, Json>): seq<Json>
    requires AllMapped(pv, redirectMap)
  {
    seq(|pv|, i requires 0 <= i < |pv| => redirectMap[Str(Spaced(pv[i].0))])
  }

  /** The views of all articles of the date, each as `int(value or 0)`. */
  function Total(pv: Views): int
    requires AllCounted(pv)
  {
    if pv == [] then 0 else Total(pv[..|pv| - 1]) + IntOrZero(pv[|pv| - 1].1).value
  }

  /** The views of the articles that redirect to `t`, each as `int(value or 0)`. */
  function TotalFor(pv: Views, redirectMap: map<Json, Json>, t: Json): int
    requires AllCounted(pv)
  {
    if pv == [] then 0
    else
      var a := Str(Spaced(pv[|pv| - 1].0));
      TotalFor(pv[..|pv| - 1], redirectMap, t) +
        (if a in redirectMap && redirectMap[a] == t then IntOrZero(pv[|pv| - 1].1).value else 0)
  }

  /** What one article raises in the redirects branch, if anything. On both the `try` line
      and the `except` line, `int(value or 0)` is evaluated before anything is stored, so
      its error comes first; a name missing from the map then raises KeyError from the
      lookup the `except` line repeats. */
  function ArticleError(article: (string, Json), redirectMap: map<Json, Json>): (r: Option<Error>)
    ensures r.None? <==> Str(Spaced(article.0)) in redirectMap && IntOrZero(article.1).Ok?
    ensures IntOrZero(article.1).Err? ==> r == Some(IntOrZero(article.1).error)
    ensures IntOrZero(article.1).Ok? && Str(Spaced(article.0)) !in redirectMap ==>
      r == Some(KeyError(Str(Spaced(article.0))))
  {
    match IntOrZero(article.1)
    case Err(e) => Some(e)
    case Ok(_) => if Str(Spaced(article.0)) in redirectMap then None else Some(KeyError(Str(Spaced(article.0))))
  }

  /** The inner loop of the redirects branch for one date: each article adds its views to
      its target, and the first article that raises ends the date. */
  function GroupedDay(pv: Views, redirectMap: map<Json, Json>): (r: Result<Grouped>)
    ensures r.Err? ==> r.error.KeyError? || r.error.ValueError? || r.error.TypeError?
  {
    if pv == [] then Ok([])
    else
      var init := pv[..|pv| - 1];
      var (article, value) := pv[|pv| - 1];
      var d :- GroupedDay(init, redirectMap);
      var n :- IntOrZero(value);
      var name := Str(Spaced(article));
      if name !in redirectMap then Err(KeyError(name))
      else Ok(AddEntry(d, redirectMap[name], n))
  }

  /** A date can be grouped when all but its last article can and the last one can. */
  lemma GroupableSplit(pv: Views, redirectMap: map<Json, Json>)
    requires pv != []
    ensures AllMapped(pv, redirectMap) <==>
      AllMapped(pv[..|pv| - 1], redirectMap) && Str(Spaced(pv[|pv| - 1].0)) in redirectMap
    ensures AllCounted(pv) <==> AllCounted(pv[..|pv| - 1]) && IntOrZero(pv[|pv| - 1].1).Ok?
  {
    var init := pv[..|pv| - 1];
    assert forall i :: 0 <= i < |init| ==> init[i] == pv[i];
  }

  /** A date groups exactly when every article is in the redirect map and every value is
      one `int(value or 0)` accepts. */
  lemma {:induction false} GroupedDayOk(pv: Views, redirectMap: map<Json, Json>)
    ensures GroupedDay(pv, redirectMap).Ok? <==> AllMapped(pv, redirectMap) && AllCounted(pv)
  {
    if pv != [] {
      GroupableSplit(pv, redirectMap);
      GroupedDayOk(pv[..|pv| - 1], redirectMap);
    }
  }

  /** The error of a date that raises is that of its first article that raises: every
      article before it groups. */
  lemma {:induction false} GroupedDayError(pv: Views, redirectMap: map<Json, Json>)
    requires GroupedDay(pv, redirectMap).Err?
    ensures exists i ::
      && 0 <= i < |pv| && GroupedDay(pv[..i], redirectMap).Ok?
      && ArticleError(pv[i], redirectMap) == Some(GroupedDay(pv, redirectMap).error)
  {
    var last := |pv| - 1;
    var init := pv[..last];
    if GroupedDay(init, redirectMap).Err? {
      GroupedDayError(init, redirectMap);
      var i :| 0 <= i < |init| && GroupedDay(init[..i], redirectMap).Ok? &&
        ArticleError(init[i], redirectMap) == Some(GroupedDay(init, redirectMap).error);
      assert init[..i] == pv[..i];
      assert init[i] == pv[i];
    } else {
      assert pv[..last] == init;
    }
  }

  /** Where a date groups, its sums are those of all but its last article with the last
      article's views added to its target. */
  lemma InitMapped(pv: Views, redirectMap: map<Json, Json>)
    requires pv != [] && GroupedDay(pv, redirectMap).Ok?
    ensures GroupedDay(pv[..|pv| - 1], redirectMap).Ok?
    ensures Str(Spaced(pv[|pv| - 1].0)) in redirectMap && IntOrZero(pv[|pv| - 1].1).Ok?
    ensures GroupedDay(pv, redirectMap).value ==
      AddEntry(GroupedDay(pv[..|pv| - 1], redirectMap).value, redirectMap[Str(Spaced(pv[|pv| - 1].0))],
               IntOrZero(pv[|pv| - 1].1).value)
  {
  }

  /** The targets come in the order the articles first reach them. */
  lemma {:induction false} GroupedDayTargets(pv: Views, redirectMap: map<Json, Json>)
    requires GroupedDay(pv, redirectMap).Ok?
    ensures AllMapped(pv, redirectMap) && Firsts(GroupedDay(pv, redirectMap).value) == Dedupe(Targets(pv, redirectMap))
  {
    GroupedDayOk(pv, redirectMap);
    if pv != [] {
      var init := pv[..|pv| - 1];
      InitMapped(pv, redirectMap);
      GroupedDayTargets(init, redirectMap);
      assert Targets(pv, redirectMap)[..|pv| - 1] == Targets(init, redirectMap);
    }
  }

  /** Each target's count is the sum of the views of the articles that redirect to it. */
  lemma {:induction false} GroupedDayCount(pv: Views, redirectMap: map<Json, Json>, t: Json)
    requires GroupedDay(pv, redirectMap).Ok?
    ensures AllCounted(pv) && Count(GroupedDay(pv, redirectMap).value, t) == TotalFor(pv, redirectMap, t)
  {
    GroupedDayOk(pv, redirectMap);
    if pv != [] {
      var init := pv[..|pv| - 1];
      InitMapped(pv, redirectMap);
      GroupedDayCount(init, redirectMap, t);
      AddEntryCount(GroupedDay(init, redirectMap).value, redirectMap[Str(Spaced(pv[|pv| - 1].0))],
                    IntOrZero(pv[|pv| - 1].1).value, t);
    }
  }

  /** No view is lost or counted twice: the targets' counts add up to the date's views. */
  lemma {:induction false} GroupedDayTotal(pv: Views, redirectMap: map<Json, Json>)
    requires GroupedDay(pv, redirectMap).Ok?
    ensures AllCounted(pv) && SumValues(GroupedDay(pv, redirectMap).value) == Total(pv)
  {
    GroupedDayOk(pv, redirectMap);
    if pv != [] {
      var init := pv[..|pv| - 1];
      InitMapped(pv, redirectMap);
      GroupedDayTotal(init, redirectMap);
      AddEntrySum(GroupedDay(init, redirectMap).value, redirectMap[Str(Spaced(pv[|pv| - 1].0))],
                  IntOrZero(pv[|pv| - 1].1).value);
    }
  }

  /** The inner loop: for each article of the date, add its views to its target. */
  method GroupDay(pv: Views, redirectMap: map<Json, Json>) returns (r: Result<Grouped>)
    ensures r == GroupedDay(pv, redirectMap)
  {
    var pvGrouped: Grouped := [];
    for j := 0 to |pv|
      invariant GroupedDay(pv[..j], redirectMap) == Ok(pvGrouped)
    {
      assert pv[..j + 1][..j] == pv[..j];
      var n := IntOrZero(pv[j].1);
      if n.Err? {
        DayErrorPersists(pv, redirectMap, j + 1);
        return Err(n.error);
      }
      var name := Str(Spaced(pv[j].0));
      if name !in redirectMap {
        DayErrorPersists(pv, redirectMap, j + 1);
        return Err(KeyError(name));
      }
      pvGrouped := AddEntry(pvGrouped, redirectMap[name], n.value);
    }
    assert pv[..|pv|] == pv;
    r := Ok(pvGrouped);
  }

  /** An article that raises ends the date: later articles are not read. */
  lemma {:induction false} DayErrorPersists(pv: Views, redirectMap: map<Json, Json>, i: nat)
    requires i <= |pv| && GroupedDay(pv[..i], redirectMap).Err?
    ensures GroupedDay(pv, redirectMap) == GroupedDay(pv[..i], redirectMap)
  {
    if i == |pv| {
      assert pv[..i] == pv;
    } else {
      var init := pv[..|pv| - 1];
      assert init[..i] == pv[..i];
      DayErrorPersists(init, redirectMap, i);
    }
  }

  // ---------------------------------------------------------------------------
  // Dicts built item by item

  /** `{k: f(v) for k, v in ps}`, or a loop doing `d[k] = f(v)` for each item in turn:
      the first value that raises ends it, and a key seen again keeps its place and takes
      the later value. */
  function DictOf<A, B>(ps: seq<(string, A)>, f: A -> Result<B>): Result<seq<(string, B)>> {
    if ps == [] then Ok([])
    else
      var d :- DictOf(ps[..|ps| - 1], f);
      var v :- f(ps[|ps| - 1].1);
      Ok(AssignEntry(d, ps[|ps| - 1].0, v))
  }

  /** No item's value raises. */
  predicate AllOk<A, B>(ps: seq<(string, A)>, f: A -> Result<B>) {
    forall i :: 0 <= i < |ps| ==> f(ps[i].1).Ok?
  }

  /** The items with their computed values, in order, where none raises. */
  function Applied<A, B>(ps: seq<(string, A)>, f: A -> Result<B>): (qs: seq<(string, B)>)
    requires AllOk(ps, f)
    ensures |qs| == |ps|
    ensures forall i :: 0 <= i < |ps| ==> qs[i] == (ps[i].0, f(ps[i].1).value)
  {
    seq(|ps|, i requires 0 <= i < |ps| => (ps[i].0, f(ps[i].1).value))
  }

  lemma AllOkSplit<A, B>(ps: seq<(string, A)>, f: A -> Result<B>)
    requires ps != []
    ensures AllOk(ps, f) <==> AllOk(ps[..|ps| - 1], f) && f(ps[|ps| - 1].1).Ok?
  {
    var init := ps[..|ps| - 1];
    assert forall i :: 0 <= i < |init| ==> init[i] == ps[i];
  }

  /** The dict is built exactly when no value raises. */
  lemma {:induction false} DictOfOk<A, B>(ps: seq<(string, A)>, f: A -> Result<B>)
    ensures DictOf(ps, f).Ok? <==> AllOk(ps, f)
  {
    if ps != [] {
      AllOkSplit(ps, f);
      DictOfOk(ps[..|ps| - 1], f);
    }
  }

  /** Where it is built, the dict is that of the items with their values: `AssignEntry`
      for each item in turn is `DictItems`. */
  lemma {:induction false} DictOfItems<A, B>(ps: seq<(string, A)>, f: A -> Result<B>)
    requires AllOk(ps, f)
    ensures DictOf(ps, f) == Ok(DictItems(Applied(ps, f)))
  {
    if ps != [] {
      var init := ps[..|ps| - 1];
      AllOkSplit(ps, f);
      DictOfItems(init, f);
      var qs := Applied(ps, f);
      assert qs[..|ps| - 1] == Applied(init, f);
    }
  }

  /** Where it is built, the dict lists each key of the items once, in the order keys
      first appear, with the value of the key's last item; when no key repeats, it is the
      items with their values. */
  lemma DictOfKeys<A, B(!new)>(ps: seq<(string, A)>, f: A -> Result<B>)
    requires AllOk(ps, f)
    ensures DictOf(ps, f).Ok?
    ensures var d := DictOf(ps, f).value;
      && Firsts(d) == Dedupe(Firsts(ps))
      && FromPairs(d) == FromPairs(Applied(ps, f))
      && (NoDups(Firsts(ps)) ==> d == Applied(ps, f))
  {
    var qs := Applied(ps, f);
    DictOfItems(ps, f);
    DictItemsKeys(qs);
    assert Firsts(qs) == Firsts(ps);
    DictItemsAgree(qs);
    if NoDups(Firsts(ps)) {
      DictItemsOfDistinct(qs);
    }
  }

  /** A dict that is not built raises the error of the first value that raises: every
      item before it is computed. */
  lemma {:induction false} DictOfError<A, B>(ps: seq<(string, A)>, f: A -> Result<B>)
    requires DictOf(ps, f).Err?
    ensures exists i ::
      && 0 <= i < |ps| && DictOf(ps[..i], f).Ok?
      && f(ps[i].1) == Err(DictOf(ps, f).error)
  {
    var last := |ps| - 1;
    var init := ps[..last];
    if DictOf(init, f).Err? {
      DictOfError(init, f);
      var i :| 0 <= i < |init| && DictOf(init[..i], f).Ok? && f(init[i].1) == Err(DictOf(init, f).error);
      assert init[..i] == ps[..i];
      assert init[i] == ps[i];
    } else {
      assert ps[..last] == init;
    }
  }

  /** One more item: its value raises, or it is assigned on top of the dict so far. */
  lemma DictOfStep<A, B>(ps: seq<(string, A)>, f: A -> Result<B>, i: nat)
    requires i < |ps| && DictOf(ps[..i], f).Ok?
    ensures f(ps[i].1).Err? ==> DictOf(ps[..i + 1], f) == Err(f(ps[i].1).error)
    ensures f(ps[i].1).Ok? ==>
      DictOf(ps[..i + 1], f) == Ok(AssignEntry(DictOf(ps[..i], f).value, ps[i].0, f(ps[i].1).value))
  {
    assert ps[..i + 1][..i] == ps[..i];
  }

  /** An item whose value raises ends the dict: later items are not read. */
  lemma {:induction false} DictOfErrorPersists<A, B>(ps: seq<(string, A)>, f: A -> Result<B>, i: nat)
    requires i <= |ps| && DictOf(ps[..i], f).Err?
    ensures DictOf(ps, f) == DictOf(ps[..i], f)
  {
    if i == |ps| {
      assert ps[..i] == ps;
    } else {
      var init := ps[..|ps| - 1];
      assert init[..i] == ps[..i];
      DictOfErrorPersists(init, f, i);
    }
  }

  // ---------------------------------------------------------------------------
  // The redirects branch over all dates

  /** The inner loop as a function of a date's views. */
  function GroupOf(redirectMap: map<Json, Json>): Views -> Result<Grouped> {
    pv => GroupedDay(pv, redirectMap)
  }

  /** `grouped_rdpv`: `grouped_rdpv[date] = pv_grouped` for each date in turn, the first
      date that raises ending it with KeyError, or with `int`'s ValueError or TypeError. */
  function GroupedViews(rdpv: seq<(string, Views)>, redirectMap: map<Json, Json>): (r: Result<seq<(string, Grouped)>>)
    ensures r.Err? ==> r.error.KeyError? || r.error.ValueError? || r.error.TypeError?
  {
    var r := DictOf(rdpv, GroupOf(redirectMap));
    if r.Err? then
      DictOfError(rdpv, GroupOf(redirectMap));
      r
    else r
  }

  /** The grouped output has exactly the dates of the client's output, each with the
      sums of its last occurrence; for a dict, where dates do not repeat, each date keeps
      its place and its own sums. It is built exactly when every date groups. */
  lemma GroupedViewsDates(rdpv: seq<(string, Views)>, redirectMap: map<Json, Json>)
    ensures GroupedViews(rdpv, redirectMap).Ok? <==> AllOk(rdpv, GroupOf(redirectMap))
    ensures GroupedViews(rdpv, redirectMap).Ok? ==>
      && AllOk(rdpv, GroupOf(redirectMap))
      && var g := GroupedViews(rdpv, redirectMap).value;
      && var days := Applied(rdpv, GroupOf(redirectMap));
      && Firsts(g) == Dedupe(Firsts(rdpv))
      && FromPairs(g) == FromPairs(days)
      && (NoDups(Firsts(rdpv)) ==> g == days)
  {
    DictOfOk(rdpv, GroupOf(redirectMap));
    if AllOk(rdpv, GroupOf(redirectMap)) {
      DictOfKeys(rdpv, GroupOf(redirectMap));
    }
  }

  /** Each date of the output holds the grouped views of the client's date. */
  lemma GroupedViewsDay(rdpv: seq<(string, Views)>, redirectMap: map<Json, Json>, i: nat)
    requires AllOk(rdpv, GroupOf(redirectMap)) && i < |rdpv|
    ensures GroupedDay(rdpv[i].1, redirectMap).Ok?
    ensures Applied(rdpv, GroupOf(redirectMap))[i] == (rdpv[i].0, GroupedDay(rdpv[i].1, redirectMap).value)
  {
  }

  /** The redirects branch raises the error of its first date that raises. */
  lemma GroupedViewsError(rdpv: seq<(string, Views)>, redirectMap: map<Json, Json>)
    requires GroupedViews(rdpv, redirectMap).Err?
    ensures exists i ::
      && 0 <= i < |rdpv| && GroupedViews(rdpv[..i], redirectMap).Ok?
      && GroupedDay(rdpv[i].1, redirectMap) == Err(GroupedViews(rdpv, redirectMap).error)
  {
    DictOfError(rdpv, GroupOf(redirectMap));
  }

  // ---------------------------------------------------------------------------
  // The branch without redirects

  /** `int(val or 0)` when `replace_nones`, the value itself otherwise. */
  function Cleaned(v: Json, replaceNones: bool): (r: Result<Json>)
    ensures !replaceNones ==> r == Ok(v)
    ensures r.Err? ==> r.error.ValueError? || r.error.TypeError?
  {
    if !replaceNones then Ok(v)
    else
      var n :- IntOrZero(v);
      Ok(Int(n))
  }

  /** With `replace_nones`, a value is cleaned exactly when `int(val or 0)` accepts it, into
      that integer: None and other falsy values become 0, and integers stay as they are. */
  lemma CleanedMeaning(v: Json)
    ensures Cleaned(v, true).Ok? <==> IntOrZero(v).Ok?
    ensures Cleaned(v, true).Ok? ==> Cleaned(v, true).value == Int(IntOrZero(v).value)
    ensures Cleaned(v, true).Err? ==> Cleaned(v, true).error == IntOrZero(v).error
    ensures !Truthy(v) ==> Cleaned(v, true) == Ok(Int(0))
    ensures v.Int? ==> Cleaned(v, true) == Ok(v)
  {}

  /** Cleaning as a function of a value. */
  function CleanOf(replaceNones: bool): Json -> Result<Json> {
    v => Cleaned(v, replaceNones)
  }

  /** The date's items with each article's name spaced. */
  function Respaced(pv: Views): (ps: Views)
    ensures |ps| == |pv|
    ensures forall i :: 0 <= i < |pv| ==> ps[i] == (Spaced(pv[i].0), pv[i].1)
  {
    seq(|pv|, i requires 0 <= i < |pv| => (Spaced(pv[i].0), pv[i].1))
  }

  /** `{art.replace('_', ' '): ... for art, val in pv.items()}`. */
  function RenameDay(pv: Views, replaceNones: bool): (r: Result<Views>)
    ensures r.Err? ==> r.error.ValueError? || r.error.TypeError?
  {
    var r := DictOf(Respaced(pv), CleanOf(replaceNones));
    if r.Err? then
      DictOfError(Respaced(pv), CleanOf(replaceNones));
      r
    else r
  }

  /** A date is renamed exactly when every value survives cleaning; the error of one
      that is not is that of its first value `int` rejects. */
  lemma RenameDayOk(pv: Views, replaceNones: bool)
    ensures RenameDay(pv, replaceNones).Ok? <==> forall i :: 0 <= i < |pv| ==> Cleaned(pv[i].1, replaceNones).Ok?
    ensures RenameDay(pv, replaceNones).Err? ==>
      exists i ::
        && 0 <= i < |pv| && (forall j :: 0 <= j < i ==> Cleaned(pv[j].1, replaceNones).Ok?)
        && Cleaned(pv[i].1, replaceNones) == Err(RenameDay(pv, replaceNones).error)
  {
    var ps := Respaced(pv);
    var f := CleanOf(replaceNones);
    DictOfOk(ps, f);
    if DictOf(ps, f).Err? {
      DictOfError(ps, f);
      var i :| 0 <= i < |ps| && DictOf(ps[..i], f).Ok? && f(ps[i].1) == Err(DictOf(ps, f).error);
      DictOfOk(ps[..i], f);
      forall j | 0 <= j < i ensures Cleaned(pv[j].1, replaceNones).Ok? {
        assert ps[..i][j] == ps[j];
      }
    }
  }

  /** A renamed date lists each spaced name once, exactly the names of its articles. */
  lemma RenameDayMeaning(pv: Views, replaceNones: bool, name: string)
    requires RenameDay(pv, replaceNones).Ok?
    ensures NoDups(Firsts(RenameDay(pv, replaceNones).value))
    ensures name in FromPairs(RenameDay(pv, replaceNones).value) <==>
      exists i :: 0 <= i < |pv| && Spaced(pv[i].0) == name
  {
    var ps := Respaced(pv);
    var f := CleanOf(replaceNones);
    DictOfOk(ps, f);
    DictOfKeys(ps, f);
    var qs := Applied(ps, f);
    if name in FromPairs(qs) {
      FromPairsValue(qs, name);
    }
    if exists i :: 0 <= i < |pv| && Spaced(pv[i].0) == name {
      var i :| 0 <= i < |pv| && Spaced(pv[i].0) == name;
      assert qs[i] in qs;
    }
  }

  /** The value of a spaced name is the cleaned value of the last article with that name:
      of two names that differ only in underscores and spaces, the later one wins. */
  lemma RenameDayLast(pv: Views, replaceNones: bool, i: nat)
    requires RenameDay(pv, replaceNones).Ok?
    requires i < |pv| && forall j :: i < j < |pv| ==> Spaced(pv[j].0) != Spaced(pv[i].0)
    ensures Spaced(pv[i].0) in FromPairs(RenameDay(pv, replaceNones).value)
    ensures Cleaned(pv[i].1, replaceNones).Ok? &&
      FromPairs(RenameDay(pv, replaceNones).value)[Spaced(pv[i].0)] == Cleaned(pv[i].1, replaceNones).value
  {
    var ps := Respaced(pv);
    var f := CleanOf(replaceNones);
    DictOfOk(ps, f);
    DictOfKeys(ps, f);
    var qs := Applied(ps, f);
    assert forall j :: i < j < |qs| ==> qs[j].0 == Spaced(pv[j].0);
    FromPairsLast(qs, i);
  }

  /** Renaming as a function of a date's views. */
  function RenameOf(replaceNones: bool): Views -> Result<Views> {
    pv => RenameDay(pv, replaceNones)
  }

  /** `{date: {...} for date, pv in rdpv.items()}`: each date renamed in turn, the first
      date that raises ending it. */
  function Renamed(rdpv: seq<(string, Views)>, replaceNones: bool): (r: Result<seq<(string, Views)>>)
    ensures r.Err? ==> r.error.ValueError? || r.error.TypeError?
  {
    var r := DictOf(rdpv, RenameOf(replaceNones));
    if r.Err? then
      DictOfError(rdpv, RenameOf(replaceNones));
      r
    else r
  }

  /** The renamed output has exactly the client's dates, in its order, each with its own
      renamed views when dates do not repeat; it is built exactly when every date is
      renamed, and always without `replace_nones`. */
  lemma RenamedDates(rdpv: seq<(string, Views)>, replaceNones: bool)
    ensures Renamed(rdpv, replaceNones).Ok? <==> AllOk(rdpv, RenameOf(replaceNones))
    ensures !replaceNones ==> Renamed(rdpv, replaceNones).Ok?
    ensures Renamed(rdpv, replaceNones).Ok? ==>
      && AllOk(rdpv, RenameOf(replaceNones))
      && var g := Renamed(rdpv, replaceNones).value;
      && Firsts(g) == Dedupe(Firsts(rdpv))
      && (NoDups(Firsts(rdpv)) ==> g == Applied(rdpv, RenameOf(replaceNones)))
  {
    DictOfOk(rdpv, RenameOf(replaceNones));
    if !replaceNones {
      forall i | 0 <= i < |rdpv| ensures RenameDay(rdpv[i].1, replaceNones).Ok? {
        RenameDayOk(rdpv[i].1, replaceNones);
      }
    }
    if AllOk(rdpv, RenameOf(replaceNones)) {
      DictOfKeys(rdpv, RenameOf(replaceNones));
    }
  }

  // ---------------------------------------------------------------------------
  // api_article_views

  /** What `api_article_views` returns for the client's answer `rdpv`. */
  function ArticleViews(rdpv: seq<(string, Views)>, redirects: bool, redirectMap: map<Json, Json>,
                        replaceNones: bool): (r: Result<ViewsOut>)
    ensures redirects && redirectMap == map[] ==> r == Err(ValueError(Str(NoMapMessage)))
    ensures r.Ok? <==>
      if redirects then redirectMap != map[] && AllOk(rdpv, GroupOf(redirectMap))
      else AllOk(rdpv, RenameOf(replaceNones))
    ensures r.Err? ==> r.error.KeyError? || r.error.ValueError? || r.error.TypeError?
    ensures r.Ok? ==> (r.value.ByTarget? <==> redirects)
  {
    if redirects && redirectMap == map[] then Err(ValueError(Str(NoMapMessage)))
    else if redirects then
      var g := GroupedViews(rdpv, redirectMap);
      DictOfOk(rdpv, GroupOf(redirectMap));
      if g.Err? then Err(g.error)
      else Ok(ByTarget(g.value))
    else
      DictOfOk(rdpv, RenameOf(replaceNones));
      var d :- Renamed(rdpv, replaceNones);
      Ok(ByArticle(d))
  }

  /** The outer loop of the redirects branch: each date's views grouped in turn. */
  method GroupViews(rdpv: seq<(string, Views)>, redirectMap: map<Json, Json>) returns (r: Result<seq<(string, Grouped)>>)
    ensures r == GroupedViews(rdpv, redirectMap)
  {
    var groupedRdpv: seq<(string, Grouped)> := [];
    for i := 0 to |rdpv|
      invariant DictOf(rdpv[..i], GroupOf(redirectMap)) == Ok(groupedRdpv)
    {
      var pvGrouped := GroupDay(rdpv[i].1, redirectMap);
      DictOfStep(rdpv, GroupOf(redirectMap), i);
      assert GroupOf(redirectMap)(rdpv[i].1) == pvGrouped;
      if pvGrouped.Err? {
        DictOfErrorPersists(rdpv, GroupOf(redirectMap), i + 1);
        return Err(pvGrouped.error);
      }
      groupedRdpv := AssignEntry(groupedRdpv, rdpv[i].0, pvGrouped.value);
    }
    assert rdpv[..|rdpv|] == rdpv;
    r := Ok(groupedRdpv);
  }

  /** `api_article_views`: the check on the redirect map, then the nested loops that sum
      views per target for each date, or the renaming comprehensions. */
  method ApiArticleViews(rdpv: seq<(string, Views)>, redirects: bool, redirectMap: map<Json, Json>,
                         replaceNones: bool) returns (r: Result<ViewsOut>)
    ensures r == ArticleViews(rdpv, redirects, redirectMap, replaceNones)
  {
    if redirects && redirectMap == map[] {
      return Err(ValueError(Str(NoMapMessage)));
    }
    if !redirects {
      var renamed := Renamed(rdpv, replaceNones);
      if renamed.Err? {
        return Err(renamed.error);
      }
      return Ok(ByArticle(renamed.value));
    }
    var grouped := GroupViews(rdpv, redirectMap);
    if grouped.Err? {
      return Err(grouped.error);
    }
    r := Ok(ByTarget(grouped.value));
  }
}
