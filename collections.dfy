/** Sequence and dict building blocks the Python code gets from its built-ins:
    list concatenation, `dict.fromkeys`, dict comprehensions, `sorted(set(..))`,
    `'|'.join` and `str` of an int. */
module Collections {

  /** `[x for sub in ss for x in sub]`. */
  function Flatten<T>(ss: seq<seq<T>>): seq<T>
  {
    if ss == [] then [] else ss[0] + Flatten(ss[1..])
  }

  lemma {:induction false} FlattenAppend<T>(a: seq<seq<T>>, b: seq<seq<T>>)
    ensures Flatten(a + b) == Flatten(a) + Flatten(b)
  {
    if a == [] {
      assert a + b == b;
    } else {
      assert (a + b)[1..] == a[1..] + b;
      FlattenAppend(a[1..], b);
    }
  }

  /** An element of the flattened list is an element of one of the lists. */
  lemma {:induction false} FlattenMember<T>(ss: seq<seq<T>>, x: T)
    ensures x in Flatten(ss) <==> exists i :: 0 <= i < |ss| && x in ss[i]
  {
    if ss != [] {
      FlattenMember(ss[1..], x);
      if exists i :: 0 <= i < |ss| && x in ss[i] {
        var i :| 0 <= i < |ss| && x in ss[i];
        if i > 0 {
          assert ss[1..][i - 1] == ss[i];
        }
      }
      if exists i :: 0 <= i < |ss[1..]| && x in ss[1..][i] {
        var i :| 0 <= i < |ss[1..]| && x in ss[1..][i];
        assert ss[i + 1] == ss[1..][i];
      }
    }
  }

  lemma FlattenSnoc<T>(a: seq<seq<T>>, x: seq<T>)
    ensures Flatten(a + [x]) == Flatten(a) + x
  {
    FlattenAppend(a, [x]);
    assert Flatten([x]) == x + Flatten([x][1..]);
  }

  /** `[y for x in xs for y in f(x)]`, built left to right as the loops that extend a list do. */
  function Collect<A, B>(xs: seq<A>, f: A -> seq<B>): seq<B>
  {
    if xs == [] then [] else Collect(xs[..|xs| - 1], f) + f(xs[|xs| - 1])
  }

  lemma CollectSnoc<A, B>(xs: seq<A>, x: A, f: A -> seq<B>)
    ensures Collect(xs + [x], f) == Collect(xs, f) + f(x)
  {
    assert (xs + [x])[..|xs|] == xs;
  }

  lemma {:induction false} CollectAppend<A, B>(a: seq<A>, b: seq<A>, f: A -> seq<B>)
    ensures Collect(a + b, f) == Collect(a, f) + Collect(b, f)
    decreases |b|
  {
    if b == [] {
      assert a + b == a;
    } else {
      var b0, x := b[..|b| - 1], b[|b| - 1];
      assert a + b == (a + b0) + [x];
      CollectSnoc(a + b0, x, f);
      CollectAppend(a, b0, f);
      assert Collect(b, f) == Collect(b0, f) + f(x);
      calc {
        Collect(a + b, f);
        Collect(a + b0, f) + f(x);
        (Collect(a, f) + Collect(b0, f)) + f(x);
        Collect(a, f) + (Collect(b0, f) + f(x));
      }
    }
  }

  /** An element of the collected list comes from one of the inputs, and every
      input's contribution is in it. */
  lemma {:induction false} CollectMember<A(!new), B(!new)>(xs: seq<A>, f: A -> seq<B>, y: B)
    ensures y in Collect(xs, f) <==> exists i :: 0 <= i < |xs| && y in f(xs[i])
  {
    if xs != [] {
      var init := xs[..|xs| - 1];
      CollectMember(init, f, y);
      if y in Collect(init, f) {
        var i :| 0 <= i < |init| && y in f(init[i]);
        assert xs[i] == init[i];
      }
      if exists i :: 0 <= i < |xs| && y in f(xs[i]) {
        var i :| 0 <= i < |xs| && y in f(xs[i]);
        if i < |init| {
          assert init[i] == xs[i];
        }
      }
    }
  }

  /** `[x for x in s if p(x)]`. */
  function Filter<T(!new)>(s: seq<T>, p: T -> bool): (r: seq<T>)
    ensures forall x :: x in r <==> x in s && p(x)
    ensures |r| <= |s|
  {
    if s == [] then []
    else
      var init := s[..|s| - 1];
      assert forall x :: x in s <==> x in init || x == s[|s| - 1];
      Filter(init, p) + (if p(s[|s| - 1]) then [s[|s| - 1]] else [])
  }

  /** The keys of a list of pairs, in order. */
  function Firsts<K, V>(ps: seq<(K, V)>): (ks: seq<K>)
    ensures |ks| == |ps| && forall i :: 0 <= i < |ps| ==> ks[i] == ps[i].0
  {
    seq(|ps|, i requires 0 <= i < |ps| => ps[i].0)
  }

  predicate NoDups<T(==)>(s: seq<T>) {
    forall i, j :: 0 <= i < j < |s| ==> s[i] != s[j]
  }

  lemma {:induction false} FilterNoDups<T(!new)>(s: seq<T>, p: T -> bool)
    requires NoDups(s)
    ensures NoDups(Filter(s, p))
  {
    if s != [] {
      var init := s[..|s| - 1];
      assert NoDups(init);
      FilterNoDups(init, p);
      assert s[|s| - 1] !in init;
    }
  }

  /** `list(dict.fromkeys(s))`: the distinct elements of `s`, each at its first occurrence. */
  function Dedupe<T(==,!new)>(s: seq<T>): (r: seq<T>)
    ensures forall x :: x in r <==> x in s
    ensures NoDups(r)
    ensures |r| <= |s|
  {
    if s == [] then []
    else
      var d := Dedupe(s[..|s| - 1]);
      assert forall x :: x in s[..|s| - 1] ==> x in s;
      assert forall x :: x in s ==> x in s[..|s| - 1] || x == s[|s| - 1];
      if s[|s| - 1] in d then d else d + [s[|s| - 1]]
  }

  /** A non-empty list is its front followed by its last element. */
  lemma SplitLast<T>(s: seq<T>)
    requires s != []
    ensures s == s[..|s| - 1] + [s[|s| - 1]]
  {
  }

  /** The first i + 1 elements are the first i and element i. */
  lemma AppendSnoc<T>(s: seq<T>, t: seq<T>, x: T)
    ensures s + (t + [x]) == (s + t) + [x]
  {
  }

  lemma SnocPrefix<T>(s: seq<T>, i: nat)
    requires i < |s|
    ensures s[..i + 1] == s[..i] + [s[i]]
  {
  }

  /** Without its first pair, a dict with distinct keys keeps them distinct and lacks
      the first key. */
  lemma KeysTail<K, V>(d: seq<(K, V)>)
    requires d != [] && NoDups(Firsts(d))
    ensures NoDups(Firsts(d[1..])) && d[0].0 !in Firsts(d[1..])
    ensures forall i :: 1 <= i < |d| ==> d[i].0 != d[0].0
  {
    FirstsCons(d[0], d[1..]);
    assert [d[0]] + d[1..] == d;
    var f := Firsts(d);
    assert forall i :: 1 <= i < |d| ==> Firsts(d[1..])[i - 1] == f[i];
  }

  /** A list with one more element has no repeats when the list has none and lacks it. */
  lemma NoDupsSnoc<T>(s: seq<T>, x: T)
    ensures NoDups(s + [x]) <==> NoDups(s) && x !in s
  {
    var u := s + [x];
    assert forall i :: 0 <= i < |s| ==> s[i] == u[i];
    assert u[|s|] == x;
  }

  lemma DedupeSnoc<T(!new)>(s: seq<T>, x: T)
    ensures Dedupe(s + [x]) == if x in Dedupe(s) then Dedupe(s) else Dedupe(s) + [x]
  {
    var u := s + [x];
    assert u[..|u| - 1] == s;
    DedupeLast(u);
  }

  lemma DedupeLast<T(!new)>(s: seq<T>)
    requires s != []
    ensures var d := Dedupe(s[..|s| - 1]);
      Dedupe(s) == if s[|s| - 1] in d then d else d + [s[|s| - 1]]
  {
  }

  /** On a list without repeats `dict.fromkeys` changes nothing, order included. */
  lemma {:induction false} DedupeOfDistinct<T(!new)>(s: seq<T>)
    requires NoDups(s)
    ensures Dedupe(s) == s
  {
    if s != [] {
      var init := s[..|s| - 1];
      assert NoDups(init);
      DedupeOfDistinct(init);
      assert s[|s| - 1] !in init;
      assert init + [s[|s| - 1]] == s;
    }
  }

  /** A dict built by a comprehension or by `update` from key/value pairs taken in
      order: a later pair overwrites an earlier one with the same key. */
  function FromPairs<K(==,!new), V(==,!new)>(ps: seq<(K, V)>): (m: map<K, V>)
    ensures m.Keys == set p | p in ps :: p.0
  {
    if ps == [] then map[]
    else
      var m0 := FromPairs(ps[..|ps| - 1]);
      assert forall p :: p in ps <==> p in ps[..|ps| - 1] || p == ps[|ps| - 1];
      m0[ps[|ps| - 1].0 := ps[|ps| - 1].1]
  }

  /** The value of a key is the one its last pair carries. */
  lemma {:induction false} FromPairsLast<K(!new), V(!new)>(ps: seq<(K, V)>, i: nat)
    requires i < |ps|
    requires forall j :: i < j < |ps| ==> ps[j].0 != ps[i].0
    ensures ps[i].0 in FromPairs(ps) && FromPairs(ps)[ps[i].0] == ps[i].1
  {
    if i < |ps| - 1 {
      FromPairsLast(ps[..|ps| - 1], i);
    }
  }

  /** Every value in the dict comes from a pair of the input with that key. */
  lemma {:induction false} FromPairsValue<K(!new), V(!new)>(ps: seq<(K, V)>, k: K)
    requires k in FromPairs(ps)
    ensures exists i :: 0 <= i < |ps| && ps[i] == (k, FromPairs(ps)[k])
  {
    var last := |ps| - 1;
    if ps[last].0 != k {
      FromPairsValue(ps[..last], k);
      var i :| 0 <= i < last && ps[..last][i] == (k, FromPairs(ps[..last])[k]);
      assert ps[i] == (k, FromPairs(ps)[k]);
    } else {
      assert ps[last] == (k, FromPairs(ps)[k]);
    }
  }

  /** The dict's iteration order lists exactly its keys. */
  lemma KeyOrder<K(!new), V(!new)>(ps: seq<(K, V)>)
    ensures forall k :: k in Dedupe(Firsts(ps)) <==> k in FromPairs(ps)
  {
    forall k | k in FromPairs(ps)
      ensures k in Firsts(ps)
    {
      var p :| p in ps && p.0 == k;
      var i :| 0 <= i < |ps| && ps[i] == p;
      assert Firsts(ps)[i] == k;
    }
  }

  // ---------------------------------------------------------------------------
  // Dicts of lists built by `if k in d: d[k].extend(v) else: d[k] = v`, kept as
  // key/list pairs in insertion order

  /** `d[k].extend(v)` when `k` is already a key of `d`, `d[k] = v` otherwise. */
  function ExtendEntry<K(==), V>(d: seq<(K, seq<V>)>, k: K, v: seq<V>): (r: seq<(K, seq<V>)>)
    ensures Firsts(r) == if k in Firsts(d) then Firsts(d) else Firsts(d) + [k]
    ensures k in Firsts(d) ==> |r| == |d|
    ensures forall i :: 0 <= i < |d| && d[i].0 != k ==> r[i] == d[i]
  {
    if d == [] then [(k, v)]
    else if d[0].0 == k then
      FirstsCons(d[0], d[1..]);
      FirstsCons((k, d[0].1 + v), d[1..]);
      assert [d[0]] + d[1..] == d;
      [(k, d[0].1 + v)] + d[1..]
    else
      var rest := ExtendEntry(d[1..], k, v);
      FirstsCons(d[0], d[1..]);
      FirstsCons(d[0], rest);
      assert [d[0]] + d[1..] == d;
      assert forall i :: 1 <= i < |d| ==> d[i] == d[1..][i - 1];
      [d[0]] + rest
  }

  /** On a dict whose keys are distinct, extending key `k` appends `v` to its list and
      changes no other entry; a new key goes last with list `v`. */
  lemma {:induction false} ExtendEntryAt<K(!new), V>(d: seq<(K, seq<V>)>, k: K, v: seq<V>)
    requires NoDups(Firsts(d))
    ensures var r := ExtendEntry(d, k, v);
      && (forall i :: 0 <= i < |d| ==> r[i] == (d[i].0, if d[i].0 == k then d[i].1 + v else d[i].1))
      && (k !in Firsts(d) ==> |r| == |d| + 1 && r[|d|] == (k, v))
  {
    forall i | 0 <= i < |d|
      ensures ExtendEntry(d, k, v)[i] == (d[i].0, if d[i].0 == k then d[i].1 + v else d[i].1)
    {
      ExtendEntryIndex(d, k, v, i);
    }
    if k !in Firsts(d) {
      ExtendEntryNew(d, k, v);
    }
  }

  /** Entry `i` of the extended dict. */
  lemma {:induction false} ExtendEntryIndex<K(!new), V>(d: seq<(K, seq<V>)>, k: K, v: seq<V>, i: nat)
    requires NoDups(Firsts(d)) && i < |d|
    ensures ExtendEntry(d, k, v)[i] == (d[i].0, if d[i].0 == k then d[i].1 + v else d[i].1)
    decreases i
  {
    KeysTail(d);
    if d[0].0 == k {
      assert ExtendEntry(d, k, v) == [(k, d[0].1 + v)] + d[1..];
      if i > 0 {
        assert d[i] == d[1..][i - 1];
      }
    } else {
      var rest := ExtendEntry(d[1..], k, v);
      assert ExtendEntry(d, k, v) == [d[0]] + rest;
      if i > 0 {
        ExtendEntryIndex(d[1..], k, v, i - 1);
        assert d[i] == d[1..][i - 1];
      }
    }
  }

  /** A new key goes last, with list `v`. */
  lemma {:induction false} ExtendEntryNew<K(!new), V>(d: seq<(K, seq<V>)>, k: K, v: seq<V>)
    requires k !in Firsts(d)
    ensures |ExtendEntry(d, k, v)| == |d| + 1 && ExtendEntry(d, k, v)[|d|] == (k, v)
  {
    if d != [] {
      FirstsCons(d[0], d[1..]);
      assert [d[0]] + d[1..] == d;
      ExtendEntryNew(d[1..], k, v);
    }
  }

  /** The pairs grouped by key in order: each key once, where it first occurs, with the
      lists of all its pairs concatenated in order. */
  function GroupPairs<K(==,!new), V>(ps: seq<(K, seq<V>)>): (g: seq<(K, seq<V>)>)
    ensures NoDups(Firsts(g))
  {
    if ps == [] then []
    else
      var g := GroupPairs(ps[..|ps| - 1]);
      var k := ps[|ps| - 1].0;
      var r := ExtendEntry(g, k, ps[|ps| - 1].1);
      assert k !in Firsts(g) ==> Firsts(r) == Firsts(g) + [k];
      r
  }

  lemma GroupPairsLast<K(!new), V>(ps: seq<(K, seq<V>)>)
    requires ps != []
    ensures GroupPairs(ps) == ExtendEntry(GroupPairs(ps[..|ps| - 1]), ps[|ps| - 1].0, ps[|ps| - 1].1)
  {
  }

  /** One more `extend` after the pairs `a`. */
  lemma GroupPairsSnoc<K(!new), V>(a: seq<(K, seq<V>)>, p: (K, seq<V>))
    ensures GroupPairs(a + [p]) == ExtendEntry(GroupPairs(a), p.0, p.1)
  {
    var y := a + [p];
    GroupPairsLast(y);
    assert y[..|y| - 1] == a;
  }

  /** The lists of the pairs with key `k`, concatenated in order. */
  function ValuesOf<K(==), V>(ps: seq<(K, seq<V>)>, k: K): seq<V> {
    if ps == [] then []
    else ValuesOf(ps[..|ps| - 1], k) + (if ps[|ps| - 1].0 == k then ps[|ps| - 1].1 else [])
  }

  /** Grouping keeps each key once in order of first occurrence and gives it every list
      paired with it, in order. */
  lemma {:induction false} GroupPairsMeaning<K(!new), V>(ps: seq<(K, seq<V>)>)
    ensures Firsts(GroupPairs(ps)) == Dedupe(Firsts(ps))
    ensures forall i :: 0 <= i < |GroupPairs(ps)| ==> GroupPairs(ps)[i].1 == ValuesOf(ps, GroupPairs(ps)[i].0)
  {
    if ps != [] {
      var init := ps[..|ps| - 1];
      var (k, v) := ps[|ps| - 1];
      var g := GroupPairs(init);
      GroupPairsMeaning(init);
      assert Firsts(ps)[..|ps| - 1] == Firsts(init);
      ExtendEntryAt(g, k, v);
      var r := GroupPairs(ps);
      assert r == ExtendEntry(g, k, v);
      forall i | 0 <= i < |r|
        ensures r[i].1 == ValuesOf(ps, r[i].0)
      {
        var key := r[i].0;
        assert ValuesOf(ps, key) == ValuesOf(init, key) + (if k == key then v else []);
        if i < |g| {
          assert key == g[i].0 && g[i].1 == ValuesOf(init, key);
        } else {
          assert k !in Firsts(init);
          ValuesAbsent(init, k);
        }
      }
    }
  }

  /** A key no pair carries collects nothing. */
  lemma {:induction false} ValuesAbsent<K(!new), V>(ps: seq<(K, seq<V>)>, k: K)
    requires k !in Firsts(ps)
    ensures ValuesOf(ps, k) == []
  {
    if ps != [] {
      assert Firsts(ps)[..|ps| - 1] == Firsts(ps[..|ps| - 1]);
      assert Firsts(ps)[|ps| - 1] == ps[|ps| - 1].0;
      ValuesAbsent(ps[..|ps| - 1], k);
    }
  }

  // ---------------------------------------------------------------------------
  // Dicts built by `d[k] = v`, kept as their items in iteration order

  /** `d[k] = v`: an existing key keeps its place and takes the new value, a new key
      goes last. */
  function AssignEntry<K(==), V>(d: seq<(K, V)>, k: K, v: V): (r: seq<(K, V)>)
    ensures Firsts(r) == if k in Firsts(d) then Firsts(d) else Firsts(d) + [k]
    ensures k in Firsts(d) ==> |r| == |d|
    ensures forall i :: 0 <= i < |d| && d[i].0 != k ==> r[i] == d[i]
  {
    if d == [] then [(k, v)]
    else if d[0].0 == k then
      FirstsCons(d[0], d[1..]);
      FirstsCons((k, v), d[1..]);
      assert [d[0]] + d[1..] == d;
      [(k, v)] + d[1..]
    else
      var rest := AssignEntry(d[1..], k, v);
      FirstsCons(d[0], d[1..]);
      FirstsCons(d[0], rest);
      assert [d[0]] + d[1..] == d;
      assert forall i :: 1 <= i < |d| ==> d[i] == d[1..][i - 1];
      [d[0]] + rest
  }

  lemma FirstsCons<K, V>(p: (K, V), t: seq<(K, V)>)
    ensures Firsts([p] + t) == [p.0] + Firsts(t)
  {
  }

  /** Assigning a key the dict does not have appends it. */
  lemma {:induction false} AssignEntryNew<K(!new), V>(d: seq<(K, V)>, k: K, v: V)
    requires k !in Firsts(d)
    ensures AssignEntry(d, k, v) == d + [(k, v)]
  {
    if d != [] {
      FirstsCons(d[0], d[1..]);
      assert [d[0]] + d[1..] == d;
      AssignEntryNew(d[1..], k, v);
      assert [d[0]] + (d[1..] + [(k, v)]) == d + [(k, v)];
    }
  }

  /** On a dict whose keys are distinct, assigning key `k` changes its value and no
      other entry; a new key goes last. */
  lemma {:induction false} AssignEntryAt<K(!new), V>(d: seq<(K, V)>, k: K, v: V)
    requires NoDups(Firsts(d))
    ensures var r := AssignEntry(d, k, v);
      && (forall i :: 0 <= i < |d| ==> r[i] == (d[i].0, if d[i].0 == k then v else d[i].1))
      && (k !in Firsts(d) ==> |r| == |d| + 1 && r[|d|] == (k, v))
  {
    if d != [] {
      KeysTail(d);
      if d[0].0 != k {
        AssignEntryAt(d[1..], k, v);
      }
    }
  }



  /** On a dict whose keys are distinct, `d[k] = v` maps `k` to `v` and leaves the other
      keys' values alone, and the keys stay distinct. */
  lemma AssignEntryLookup<K(!new), V(!new)>(d: seq<(K, V)>, k: K, v: V)
    requires NoDups(Firsts(d))
    ensures NoDups(Firsts(AssignEntry(d, k, v)))
    ensures FromPairs(AssignEntry(d, k, v)) == FromPairs(d)[k := v]
  {
    AssignEntryDistinct(d, k, v);
    AssignEntryValues(d, k, v);
    AssignEntryKeys(d, k, v);
    MapsAgree(FromPairs(AssignEntry(d, k, v)), FromPairs(d)[k := v]);
  }

  lemma AssignEntryValues<K(!new), V(!new)>(d: seq<(K, V)>, k: K, v: V)
    requires NoDups(Firsts(d))
    ensures var m := FromPairs(d)[k := v];
      forall x :: x in m ==> x in FromPairs(AssignEntry(d, k, v)) && FromPairs(AssignEntry(d, k, v))[x] == m[x]
  {
    forall x | x in FromPairs(d)[k := v]
      ensures x in FromPairs(AssignEntry(d, k, v)) && FromPairs(AssignEntry(d, k, v))[x] == FromPairs(d)[k := v][x]
    {
      AssignEntryValue(d, k, v, x);
    }
  }

  lemma AssignEntryKeys<K(!new), V(!new)>(d: seq<(K, V)>, k: K, v: V)
    requires NoDups(Firsts(d))
    ensures forall x :: x in FromPairs(AssignEntry(d, k, v)) ==> x in FromPairs(d)[k := v]
  {
    forall x | x in FromPairs(AssignEntry(d, k, v))
      ensures x in FromPairs(d)[k := v]
    {
      AssignEntryKey(d, k, v, x);
    }
  }

  /** Two maps with the same keys and values are equal. */
  lemma MapsAgree<K, V>(a: map<K, V>, b: map<K, V>)
    requires forall x :: x in b ==> x in a && a[x] == b[x]
    requires forall x :: x in a ==> x in b
    ensures a == b
  {
    assert a.Keys == b.Keys;
  }

  lemma AssignEntryDistinct<K(!new), V(!new)>(d: seq<(K, V)>, k: K, v: V)
    requires NoDups(Firsts(d))
    ensures NoDups(Firsts(AssignEntry(d, k, v)))
  {
    if k !in Firsts(d) {
      assert Firsts(AssignEntry(d, k, v)) == Firsts(d) + [k];
    }
  }

  lemma AssignEntryValue<K(!new), V(!new)>(d: seq<(K, V)>, k: K, v: V, x: K)
    requires NoDups(Firsts(d))
    requires x in FromPairs(d)[k := v]
    ensures x in FromPairs(AssignEntry(d, k, v))
    ensures FromPairs(AssignEntry(d, k, v))[x] == FromPairs(d)[k := v][x]
  {
    var r := AssignEntry(d, k, v);
    AssignEntryAt(d, k, v);
    AssignEntryDistinct(d, k, v);
    if x == k {
      if k in Firsts(d) {
        var i :| 0 <= i < |d| && Firsts(d)[i] == k;
        FromPairsLast(r, i);
      } else {
        FromPairsLast(r, |d|);
      }
    } else {
      FromPairsValue(d, x);
      var i :| 0 <= i < |d| && d[i] == (x, FromPairs(d)[x]);
      FromPairsLast(r, i);
    }
  }

  lemma AssignEntryKey<K(!new), V(!new)>(d: seq<(K, V)>, k: K, v: V, x: K)
    requires NoDups(Firsts(d))
    requires x in FromPairs(AssignEntry(d, k, v))
    ensures x in FromPairs(d)[k := v]
  {
    var r := AssignEntry(d, k, v);
    AssignEntryAt(d, k, v);
    FromPairsValue(r, x);
    var i :| 0 <= i < |r| && r[i] == (x, FromPairs(r)[x]);
    if i < |d| && x != k {
      assert d[i] in d;
    }
  }

  /** The items of the dict that assigning the pairs in order builds. */
  function DictItems<K(==,!new), V>(ps: seq<(K, V)>): (items: seq<(K, V)>)
    ensures NoDups(Firsts(items))
  {
    if ps == [] then []
    else
      var d := DictItems(ps[..|ps| - 1]);
      var k := ps[|ps| - 1].0;
      var r := AssignEntry(d, k, ps[|ps| - 1].1);
      assert k !in Firsts(d) ==> Firsts(r) == Firsts(d) + [k];
      r
  }

  /** The dict lists each key once, where it was first assigned, with the value of its
      last assignment: its keys in `dict.fromkeys` order, its values those of `FromPairs`. */
  lemma {:induction false} DictItemsMeaning<K(!new), V(!new)>(ps: seq<(K, V)>)
    ensures Firsts(DictItems(ps)) == Dedupe(Firsts(ps))
    ensures forall i :: 0 <= i < |DictItems(ps)| ==>
      DictItems(ps)[i].0 in FromPairs(ps) && DictItems(ps)[i].1 == FromPairs(ps)[DictItems(ps)[i].0]
  {
    if ps != [] {
      var init := ps[..|ps| - 1];
      var (k, v) := ps[|ps| - 1];
      var d := DictItems(init);
      DictItemsMeaning(init);
      assert Firsts(ps)[..|ps| - 1] == Firsts(init);
      AssignEntryAt(d, k, v);
      var r := DictItems(ps);
      forall i | 0 <= i < |r|
        ensures r[i].0 in FromPairs(ps) && r[i].1 == FromPairs(ps)[r[i].0]
      {
        if i < |d| {
          assert r[i].0 == d[i].0;
        }
      }
    }
  }

  /** Every item of the dict is one of the pairs that built it. */
  lemma DictItemsFrom<K(!new), V(!new)>(ps: seq<(K, V)>, j: nat)
    requires j < |DictItems(ps)|
    ensures DictItems(ps)[j] in ps
  {
    var d := DictItems(ps);
    DictItemsMeaning(ps);
    FromPairsValue(ps, d[j].0);
  }

  /** The dict's items carry the same key-to-value mapping as the pairs that built it. */
  lemma DictItemsAgree<K(!new), V(!new)>(ps: seq<(K, V)>)
    ensures FromPairs(DictItems(ps)) == FromPairs(ps)
  {
    DictItemsMeaning(ps);
    DictItemsValues(ps);
    DictItemsHasKeys(ps);
    MapsAgree(FromPairs(ps), FromPairs(DictItems(ps)));
  }

  lemma DictItemsValues<K(!new), V(!new)>(ps: seq<(K, V)>)
    requires forall i :: 0 <= i < |DictItems(ps)| ==>
      DictItems(ps)[i].0 in FromPairs(ps) && DictItems(ps)[i].1 == FromPairs(ps)[DictItems(ps)[i].0]
    ensures forall k :: k in FromPairs(DictItems(ps)) ==> k in FromPairs(ps) && FromPairs(DictItems(ps))[k] == FromPairs(ps)[k]
  {
    var d := DictItems(ps);
    forall k | k in FromPairs(d)
      ensures k in FromPairs(ps) && FromPairs(d)[k] == FromPairs(ps)[k]
    {
      var i :| 0 <= i < |d| && d[i].0 == k;
      assert Firsts(d)[i] == k;
      FromPairsLast(d, i);
    }
  }

  lemma DictItemsHasKeys<K(!new), V(!new)>(ps: seq<(K, V)>)
    requires Firsts(DictItems(ps)) == Dedupe(Firsts(ps))
    ensures forall k :: k in FromPairs(ps) ==> k in FromPairs(DictItems(ps))
  {
    var d := DictItems(ps);
    KeyOrder(ps);
    forall k | k in FromPairs(ps)
      ensures k in FromPairs(d)
    {
      assert k in Firsts(d);
      var i :| 0 <= i < |d| && Firsts(d)[i] == k;
      assert d[i] in d;
    }
  }

  /** Assigning pairs whose keys are already distinct builds them back unchanged. */
  lemma {:induction false} DictItemsOfDistinct<K(!new), V(!new)>(d: seq<(K, V)>)
    requires NoDups(Firsts(d))
    ensures DictItems(d) == d
  {
    if d != [] {
      var init := d[..|d| - 1];
      var (k, v) := d[|d| - 1];
      assert d == init + [(k, v)];
      FirstsAppend(init, [(k, v)]);
      NoDupsSnoc(Firsts(init), k);
      DictItemsOfDistinct(init);
      AssignEntryNew(init, k, v);
      DictItemsLast(d);
      assert init + [(k, v)] == d;
    }
  }

  /** Assignments made on top of a dict continue the assignments that built it. */
  lemma {:induction false} DictItemsPrefix<K(!new), V(!new)>(a: seq<(K, V)>, b: seq<(K, V)>)
    ensures DictItems(DictItems(a) + b) == DictItems(a + b)
    decreases |b|
  {
    if b == [] {
      assert DictItems(a) + b == DictItems(a);
      assert a + b == a;
      DictItemsOfDistinct(DictItems(a));
    } else {
      var b0 := b[..|b| - 1];
      var p := b[|b| - 1];
      DictItemsPrefix(a, b0);
      DictItemsSnoc(DictItems(a), b);
      DictItemsSnoc(a, b);
    }
  }

  /** One more assignment after the pairs `a + b0`. */
  lemma DictItemsSnoc<K(!new), V(!new)>(a: seq<(K, V)>, b: seq<(K, V)>)
    requires b != []
    ensures DictItems(a + b) == AssignEntry(DictItems(a + b[..|b| - 1]), b[|b| - 1].0, b[|b| - 1].1)
  {
    AppendInit(a, b);
    DictItemsLast(a + b);
  }

  lemma AppendInit<T>(a: seq<T>, b: seq<T>)
    requires b != []
    ensures (a + b)[..|a + b| - 1] == a + b[..|b| - 1]
    ensures (a + b)[|a + b| - 1] == b[|b| - 1]
  {
  }

  lemma DictItemsLast<K(!new), V(!new)>(y: seq<(K, V)>)
    requires y != []
    ensures DictItems(y) == AssignEntry(DictItems(y[..|y| - 1]), y[|y| - 1].0, y[|y| - 1].1)
  {
  }

  /** Removing repeats from a tail first changes nothing about removing them from the whole. */
  lemma {:induction false} DedupeAppendDedupe<T(!new)>(s: seq<T>, t: seq<T>)
    ensures Dedupe(s + Dedupe(t)) == Dedupe(s + t)
    decreases |t|
  {
    if t == [] {
      assert s + t == s;
      assert s + Dedupe(t) == s;
    } else {
      var t0 := t[..|t| - 1];
      var x := t[|t| - 1];
      DedupeAppendDedupe(s, t0);
      assert t == t0 + [x];
      AppendSnoc(s, t0, x);
      DedupeSnoc(s + t0, x);
      DedupeSnoc(t0, x);
      if x in Dedupe(t0) {
        assert x in s + t0;
      } else {
        AppendSnoc(s, Dedupe(t0), x);
        DedupeSnoc(s + Dedupe(t0), x);
      }
    }
  }

  /** Two item lists with the same keys in the same order and the same mapping are equal. */
  lemma {:induction false} ItemsDetermined<K(!new), V(!new)>(x: seq<(K, V)>, y: seq<(K, V)>)
    requires NoDups(Firsts(x)) && Firsts(x) == Firsts(y) && FromPairs(x) == FromPairs(y)
    ensures x == y
  {
    assert |x| == |Firsts(x)| == |y|;
    forall i | 0 <= i < |x|
      ensures x[i] == y[i]
    {
      assert Firsts(x)[i] == x[i].0 && Firsts(y)[i] == y[i].0;
      FromPairsLast(x, i);
      FromPairsLast(y, i);
    }
  }

  /** `d.update(dict(b))` after the assignments `a`: the same dict as assigning all of
      `a` and then all of `b`. */
  lemma {:induction false} DictItemsSuffix<K(!new), V(!new)>(a: seq<(K, V)>, b: seq<(K, V)>)
    ensures DictItems(a + DictItems(b)) == DictItems(a + b)
  {
    SuffixKeys(a, b);
    SuffixValues(a, b);
    ItemsDetermined(DictItems(a + DictItems(b)), DictItems(a + b));
  }

  lemma DictItemsKeys<K(!new), V(!new)>(ps: seq<(K, V)>)
    ensures Firsts(DictItems(ps)) == Dedupe(Firsts(ps))
  {
    DictItemsMeaning(ps);
  }

  lemma SuffixKeys<K(!new), V(!new)>(a: seq<(K, V)>, b: seq<(K, V)>)
    ensures Firsts(DictItems(a + DictItems(b))) == Firsts(DictItems(a + b))
  {
    var fa, fb := Firsts(a), Firsts(b);
    calc {
      Firsts(DictItems(a + DictItems(b)));
      { DictItemsKeys(a + DictItems(b)); }
      Dedupe(Firsts(a + DictItems(b)));
      { FirstsAppend(a, DictItems(b)); }
      Dedupe(fa + Firsts(DictItems(b)));
      { DictItemsKeys(b); }
      Dedupe(fa + Dedupe(fb));
      { DedupeAppendDedupe(fa, fb); }
      Dedupe(fa + fb);
      { FirstsAppend(a, b); }
      Dedupe(Firsts(a + b));
      { DictItemsKeys(a + b); }
      Firsts(DictItems(a + b));
    }
  }

  lemma FirstsAppend<K, V>(a: seq<(K, V)>, b: seq<(K, V)>)
    ensures Firsts(a + b) == Firsts(a) + Firsts(b)
  {
  }

  lemma SuffixValues<K(!new), V(!new)>(a: seq<(K, V)>, b: seq<(K, V)>)
    ensures FromPairs(DictItems(a + DictItems(b))) == FromPairs(DictItems(a + b))
  {
    DictItemsAgree(a + DictItems(b));
    DictItemsAgree(a + b);
    DictItemsAgree(b);
    FromPairsAppend(a, DictItems(b));
    FromPairsAppend(a, b);
  }

  /** Two `update` calls in a row equal one update with all pairs. */
  lemma {:induction false} FromPairsAppend<K(!new), V(!new)>(a: seq<(K, V)>, b: seq<(K, V)>)
    ensures FromPairs(a + b) == FromPairs(a) + FromPairs(b)
  {
    if b == [] {
      assert a + b == a;
    } else {
      var b0 := b[..|b| - 1];
      assert (a + b)[..|a + b| - 1] == a + b0;
      FromPairsAppend(a, b0);
    }
  }

  /** Folding one more element into a dict built from the pairs each element contributes
      is one more `update`. */
  lemma FromPairsCollectSnoc<A, K(!new), V(!new)>(xs: seq<A>, x: A, f: A -> seq<(K, V)>)
    ensures FromPairs(Collect(xs + [x], f)) == FromPairs(Collect(xs, f)) + FromPairs(f(x))
  {
    CollectSnoc(xs, x, f);
    FromPairsAppend(Collect(xs, f), f(x));
  }

  lemma MapUnionAssoc<K, V>(m: map<K, V>, a: map<K, V>, b: map<K, V>)
    ensures m + a + b == m + (a + b)
  {
  }

  /** `[(x, tag) for x in xs]`. */
  function Tagged<A, B>(xs: seq<A>, tag: B): (ps: seq<(A, B)>)
    ensures |ps| == |xs|
    ensures forall i :: 0 <= i < |xs| ==> ps[i] == (xs[i], tag)
  {
    seq(|xs|, i requires 0 <= i < |xs| => (xs[i], tag))
  }

  lemma TaggedMember<A, B>(xs: seq<A>, tag: B, x: A, t: B)
    ensures (x, t) in Tagged(xs, tag) <==> t == tag && x in xs
  {
    var ps := Tagged(xs, tag);
    if (x, t) in ps {
      var i :| 0 <= i < |ps| && ps[i] == (x, t);
      assert xs[i] == x;
    }
    if t == tag && x in xs {
      var i :| 0 <= i < |xs| && xs[i] == x;
      assert ps[i] == (x, t);
    }
  }

  predicate StrictlyIncreasing(s: seq<int>) {
    forall i, j :: 0 <= i < j < |s| ==> s[i] < s[j]
  }

  /** Inserts `x` into a strictly increasing sequence, unless it is already there. */
  function Insert(s: seq<int>, x: int): (r: seq<int>)
    requires StrictlyIncreasing(s)
    ensures StrictlyIncreasing(r)
    ensures forall y :: y in r <==> y in s || y == x
  {
    if s == [] then [x]
    else
      HeadLeast(s);
      if x < s[0] then
        ConsIncreasing(x, s);
        [x] + s
      else if x == s[0] then s
      else
        var t := Insert(s[1..], x);
        ConsIncreasing(s[0], t);
        [s[0]] + t
  }

  /** The head of a strictly increasing sequence is below all the rest. */
  lemma HeadLeast(s: seq<int>)
    requires StrictlyIncreasing(s) && s != []
    ensures s == [s[0]] + s[1..]
    ensures StrictlyIncreasing(s[1..])
    ensures forall y :: y in s ==> s[0] <= y
    ensures forall y :: y in s[1..] ==> s[0] < y
    ensures forall y :: y in s <==> y == s[0] || y in s[1..]
  {
    forall y | y in s[1..]
      ensures s[0] < y
    {
      var j :| 0 <= j < |s[1..]| && s[1..][j] == y;
      assert s[j + 1] == y;
    }
  }

  /** A value below everything in a strictly increasing sequence extends it in front. */
  lemma ConsIncreasing(a: int, t: seq<int>)
    requires StrictlyIncreasing(t) && forall y :: y in t ==> a < y
    ensures StrictlyIncreasing([a] + t)
    ensures forall y :: y in [a] + t <==> y == a || y in t
  {
    var r := [a] + t;
    forall i, j | 0 <= i < j < |r|
      ensures r[i] < r[j]
    {
      assert r[j] == t[j - 1];
      if i > 0 {
        assert r[i] == t[i - 1];
      } else {
        assert t[j - 1] in t;
      }
    }
  }

  /** `sorted(set(s))` for a list of ints. */
  function SortedSet(s: seq<int>): (r: seq<int>)
    ensures StrictlyIncreasing(r)
    ensures forall y :: y in r <==> y in s
  {
    if s == [] then []
    else
      assert forall y :: y in s <==> y in s[..|s| - 1] || y == s[|s| - 1];
      Insert(SortedSet(s[..|s| - 1]), s[|s| - 1])
  }

  /** `sep.join(parts)`. */
  function Join(parts: seq<string>, sep: string): string
  {
    if parts == [] then ""
    else if |parts| == 1 then parts[0]
    else parts[0] + sep + Join(parts[1..], sep)
  }

  function DigitChar(d: nat): char
    requires d < 10
  {
    "0123456789"[d]
  }

  function NatToString(n: nat): string
  {
    if n < 10 then [DigitChar(n)] else NatToString(n / 10) + [DigitChar(n % 10)]
  }

  /** `str(i)` for an int. */
  function IntToString(i: int): string
  {
    if i < 0 then "-" + NatToString(-i) else NatToString(i)
  }

  // ---------------------------------------------------------------------------
  // Strings in lexicographic order: `sorted` on strings, and the least key of a dict

  /** `a < b` on Python strings: lexicographic by code point. */
  predicate Below(a: string, b: string) {
    b != [] && (a == [] || a[0] < b[0] || (a[0] == b[0] && Below(a[1..], b[1..])))
  }

  lemma BelowAsymmetric(a: string, b: string)
    ensures Below(a, b) ==> !Below(b, a)
  {
  }

  lemma BelowTransitive(a: string, b: string, c: string)
    requires Below(a, b) && Below(b, c)
    ensures Below(a, c)
  {
  }

  lemma BelowTotal(a: string, b: string)
    ensures a == b || Below(a, b) || Below(b, a)
  {
    if a != [] && b != [] && a[0] == b[0] {
      BelowTotal(a[1..], b[1..]);
      if a[1..] == b[1..] {
        assert a == [a[0]] + a[1..] && b == [b[0]] + b[1..];
      }
    }
  }

  /** A finite non-empty set of strings has a least element. */
  lemma HasLeast(s: set<string>)
    requires s != {}
    ensures exists m :: m in s && forall k :: k in s && k != m ==> Below(m, k)
  {
    var x :| x in s;
    if s != {x} {
      HasLeast(s - {x});
      var m :| m in s - {x} && forall k :: k in s - {x} && k != m ==> Below(m, k);
      BelowTotal(m, x);
      if Below(x, m) {
        forall k | k in s && k != x
          ensures Below(x, k)
        {
          if k != m {
            BelowTransitive(x, m, k);
          }
        }
      } else {
        assert forall k :: k in s && k != m ==> Below(m, k);
      }
    }
  }

  function Least(s: set<string>): (m: string)
    requires s != {}
    ensures m in s && forall k :: k in s && k != m ==> Below(m, k)
  {
    HasLeast(s);
    assert forall a, b :: Below(a, b) ==> !Below(b, a) by {
      forall a, b ensures Below(a, b) ==> !Below(b, a) {
        BelowAsymmetric(a, b);
      }
    }
    var m :| m in s && forall k :: k in s && k != m ==> Below(m, k);
    m
  }

  /** `sorted(s)` for a set of strings. */
  function SortedStrings(s: set<string>): (r: seq<string>)
    ensures forall x :: x in r <==> x in s
    ensures forall i, j :: 0 <= i < j < |r| ==> Below(r[i], r[j])
    decreases |s|
  {
    if s == {} then []
    else
      var m := Least(s);
      var rest := SortedStrings(s - {m});
      assert forall j :: 0 <= j < |rest| ==> Below(m, rest[j]) by {
        forall j | 0 <= j < |rest|
          ensures Below(m, rest[j])
        {
          assert rest[j] in s - {m};
        }
      }
      [m] + rest
  }

}
