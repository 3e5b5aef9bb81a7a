/** `generate_code`: the part of the generator that computes rather than
    emits tokens. The `States` enum lists the registry's variants sorted by
    name (a `String` comparison), whatever order the `HashMap` yields them
    in. The per-state match arms are the dispatch lists themselves; the
    runtime module interprets them. */
module Codegen {
  import opened Syntax

  // ---------------------------------------------------------------------
  // Name order: `String::cmp`, lexicographic by character

  predicate NameLe(a: string, b: string)
    decreases |a|
  {
    a == [] || (b != [] && (a[0] < b[0] || (a[0] == b[0] && NameLe(a[1..], b[1..]))))
  }

  predicate NameLt(a: string, b: string) {
    NameLe(a, b) && a != b
  }

  lemma {:induction false} NameLeTotal(a: string, b: string)
    ensures NameLe(a, b) || NameLe(b, a)
    decreases |a|
  {
    if a != [] && b != [] && a[0] == b[0] {
      NameLeTotal(a[1..], b[1..]);
    }
  }

  lemma {:induction false} NameLeAntisymmetric(a: string, b: string)
    requires NameLe(a, b) && NameLe(b, a)
    ensures a == b
    decreases |a|
  {
    if a != [] {
      NameLeAntisymmetric(a[1..], b[1..]);
      assert a == [a[0]] + a[1..] && b == [b[0]] + b[1..];
    }
  }

  lemma {:induction false} NameLeTransitive(a: string, b: string, c: string)
    requires NameLe(a, b) && NameLe(b, c)
    ensures NameLe(a, c)
    decreases |a|
  {
    if a != [] && a[0] == b[0] && b[0] == c[0] {
      NameLeTransitive(a[1..], b[1..], c[1..]);
    }
  }

  // ---------------------------------------------------------------------
  // `sort_by` on the names

  /** Each neighbour pair is in order. */
  predicate Sorted(vs: seq<Variant>) {
    forall i | 0 < i < |vs| :: NameLe(vs[i - 1].name, vs[i].name)
  }

  /** Every pair is strictly in order. */
  predicate StrictlySorted(vs: seq<Variant>) {
    forall i, j | 0 <= i < j < |vs| :: NameLt(vs[i].name, vs[j].name)
  }

  predicate DistinctNames(vs: seq<Variant>) {
    forall i, j | 0 <= i < j < |vs| :: vs[i].name != vs[j].name
  }

  function Insert(v: Variant, vs: seq<Variant>): (r: seq<Variant>)
    requires Sorted(vs)
    ensures Sorted(r) && multiset(r) == multiset(vs) + multiset{v} && |r| == |vs| + 1
    ensures r[0] == v || (vs != [] && r[0] == vs[0])
  {
    if vs == [] then [v]
    else if NameLe(v.name, vs[0].name) then [v] + vs
    else
      NameLeTotal(v.name, vs[0].name);
      var rest := Insert(v, vs[1..]);
      assert vs == [vs[0]] + vs[1..];
      [vs[0]] + rest
  }

  /** The sort of the collected variants (an insertion sort: `sort_by` is
      stable, and so is this). */
  function SortByName(vs: seq<Variant>): (r: seq<Variant>)
    ensures Sorted(r) && multiset(r) == multiset(vs) && |r| == |vs|
  {
    if vs == [] then []
    else
      assert vs == [vs[0]] + vs[1..];
      Insert(vs[0], SortByName(vs[1..]))
  }

  /** Sorted with no repeated name is strictly sorted. */
  lemma {:induction false} SortedStrictly(vs: seq<Variant>)
    requires Sorted(vs) && DistinctNames(vs)
    ensures StrictlySorted(vs)
  {
    if |vs| > 1 {
      var tail := vs[1..];
      assert forall i, j | 0 <= i < j < |tail| :: tail[i] == vs[i + 1] && tail[j] == vs[j + 1];
      SortedStrictly(tail);
      forall j | 1 < j < |vs|
        ensures NameLe(vs[0].name, vs[j].name)
      {
        assert tail[0] == vs[1] && tail[j - 1] == vs[j];
        NameLeTransitive(vs[0].name, vs[1].name, vs[j].name);
      }
    }
  }

  /** Two strictly sorted lists of the same variants are the same list. */
  lemma {:induction false} StrictlySortedUnique(a: seq<Variant>, b: seq<Variant>)
    requires StrictlySorted(a) && StrictlySorted(b) && multiset(a) == multiset(b)
    ensures a == b
  {
    if a != [] {
      assert b != [] by { assert a[0] in multiset(b); }
      SameHead(a, b);
      assert multiset(a) == multiset{a[0]} + multiset(a[1..]) by { assert a == [a[0]] + a[1..]; }
      assert multiset(b) == multiset{b[0]} + multiset(b[1..]) by { assert b == [b[0]] + b[1..]; }
      assert multiset(a[1..]) == multiset(a) - multiset{a[0]};
      assert multiset(b[1..]) == multiset(b) - multiset{b[0]};
      assert a == [a[0]] + a[1..] && b == [b[0]] + b[1..];
      StrictlySortedUnique(a[1..], b[1..]);
    }
  }

  /** Both lists start with their least variant. */
  lemma SameHead(a: seq<Variant>, b: seq<Variant>)
    requires StrictlySorted(a) && StrictlySorted(b) && multiset(a) == multiset(b)
    requires a != [] && b != []
    ensures a[0] == b[0]
  {
    assert a[0] in multiset(b) && b[0] in multiset(a);
    var k :| 0 <= k < |b| && b[k] == a[0];
    var m :| 0 <= m < |a| && a[m] == b[0];
    if k > 0 && m > 0 {
      assert NameLe(b[0].name, a[0].name) && NameLe(a[0].name, b[0].name);
      NameLeAntisymmetric(a[0].name, b[0].name);
      assert false;
    }
  }

  // ---------------------------------------------------------------------
  // The `States` list

  /** `order` is an iteration order of the registry: each key once. */
  predicate Enumerates(order: seq<string>, states: map<string, Variant>) {
    && (forall k | k in states :: k in order)
    && (forall i | 0 <= i < |order| :: order[i] in states)
    && (forall i, j | 0 <= i < j < |order| :: order[i] != order[j])
  }

  /** The `States` enum's variants: the registry's values in the iteration
      order, sorted by name. */
  function StateList(states: map<string, Variant>, order: seq<string>): (r: seq<Variant>)
    requires Enumerates(order, states)
    ensures |r| == |order|
  {
    SortByName(Collect(states, order))
  }

  /** The values in the iteration order (the `collect`). */
  function Collect(states: map<string, Variant>, order: seq<string>): (r: seq<Variant>)
    requires forall i | 0 <= i < |order| :: order[i] in states
    ensures |r| == |order| && forall i | 0 <= i < |r| :: r[i] == states[order[i]]
  {
    if order == [] then [] else [states[order[0]]] + Collect(states, order[1..])
  }

  /** Variants registered under their own, distinct names have distinct
      names in any iteration order. */
  lemma CollectDistinct(states: map<string, Variant>, order: seq<string>)
    requires Enumerates(order, states)
    requires forall k | k in states :: states[k].name == k
    ensures DistinctNames(Collect(states, order))
  {
  }

  /** The emitted `States` list holds each registered variant exactly once,
      strictly ordered by name, provided each variant is registered under its
      own name (as the builder does). */
  lemma StateListContents(states: map<string, Variant>, order: seq<string>)
    requires Enumerates(order, states)
    requires forall k | k in states :: states[k].name == k
    ensures var r := StateList(states, order);
      && StrictlySorted(r)
      && (forall k | k in states :: states[k] in r)
      && (forall i | 0 <= i < |r| :: r[i].name in states && r[i] == states[r[i].name])
  {
    var c := Collect(states, order);
    var r := StateList(states, order);
    assert multiset(r) == multiset(c);
    forall i | 0 <= i < |r|
      ensures r[i].name in states && r[i] == states[r[i].name]
    {
      assert r[i] in multiset(c);
    }
    CollectDistinct(states, order);
    SameElementsDistinct(c, r);
    SortedStrictly(r);
    forall k | k in states
      ensures states[k] in r
    {
      var p :| 0 <= p < |order| && order[p] == k;
      assert c[p] in multiset(r);
    }
  }

  /** A permutation of a list with distinct names has distinct names. */
  lemma SameElementsDistinct(c: seq<Variant>, r: seq<Variant>)
    requires DistinctNames(c) && multiset(r) == multiset(c)
    ensures DistinctNames(r)
  {
    forall i, j | 0 <= i < j < |r|
      ensures r[i].name != r[j].name
    {
      if r[i].name == r[j].name {
        assert r[i] in multiset(c) && r[j] in multiset(c);
        var p :| 0 <= p < |c| && c[p] == r[i];
        var q :| 0 <= q < |c| && c[q] == r[j];
        assert p == q;
        CountOnce(c, p);
        TwiceCounted(r, i, j);
        assert false;
      }
    }
  }

  /** Two positions holding the same variant count it twice. */
  lemma TwiceCounted(r: seq<Variant>, i: nat, j: nat)
    requires i < j < |r| && r[i] == r[j]
    ensures multiset(r)[r[i]] >= 2
  {
    assert r == r[..j] + [r[j]] + r[j + 1..];
    assert r[i] in r[..j];
  }

  /** An element that occurs at one index only occurs once. */
  lemma {:induction false} CountOnce(c: seq<Variant>, p: nat)
    requires p < |c| && forall q | 0 <= q < |c| && q != p :: c[q] != c[p]
    ensures multiset(c)[c[p]] == 1
  {
    assert c == c[..p] + [c[p]] + c[p + 1..];
    assert c[p] !in c[..p] && c[p] !in c[p + 1..];
  }

  /** The list does not depend on the order the `HashMap` yields its
      entries in. */
  lemma StateListDeterministic(states: map<string, Variant>, o1: seq<string>, o2: seq<string>)
    requires Enumerates(o1, states) && Enumerates(o2, states)
    requires forall k | k in states :: states[k].name == k
    ensures StateList(states, o1) == StateList(states, o2)
  {
    var r1, r2 := StateList(states, o1), StateList(states, o2);
    StateListContents(states, o1);
    StateListContents(states, o2);
    forall v
      ensures multiset(r1)[v] == multiset(r2)[v]
    {
      StrictCount(r1, v);
      StrictCount(r2, v);
      assert v in r1 ==> v in r2;
      assert v in r2 ==> v in r1;
    }
    assert multiset(r1) == multiset(r2);
    StrictlySortedUnique(r1, r2);
  }

  /** In a strictly sorted list a variant occurs at most once. */
  lemma StrictCount(r: seq<Variant>, v: Variant)
    requires StrictlySorted(r)
    ensures multiset(r)[v] == if v in r then 1 else 0
  {
    if v in r {
      var p :| 0 <= p < |r| && r[p] == v;
      CountOnce(r, p);
    }
  }
}
