/** Filtering and stable sorting of lists. */
module Sequences {
  function Filter<T(!new)>(keep: T -> bool, s: seq<T>): (r: seq<T>)
    ensures |r| <= |s|
  {
    if s == [] then [] else (if keep(s[0]) then [s[0]] else []) + Filter(keep, s[1..])
  }

  lemma {:induction false} FilterElements<T(!new)>(keep: T -> bool, s: seq<T>)
    ensures forall x :: x in Filter(keep, s) <==> x in s && keep(x)
  {
    if s != [] {
      FilterElements(keep, s[1..]);
    }
  }

  lemma FilterStep<T(!new)>(keep: T -> bool, x: T, s: seq<T>)
    ensures Filter(keep, [x] + s) == (if keep(x) then [x] else []) + Filter(keep, s)
  {
    assert ([x] + s)[1..] == s;
  }

  function Map<T, U>(f: T -> U, s: seq<T>): (r: seq<U>)
    ensures |r| == |s|
    ensures forall i :: 0 <= i < |s| ==> r[i] == f(s[i])
  {
    seq(|s|, i requires 0 <= i < |s| => f(s[i]))
  }

  lemma TakeOneMore<T>(s: seq<T>, i: nat)
    requires i < |s|
    ensures s[..i + 1] == s[..i] + [s[i]]
  {
  }

  lemma TakeOfTake<T>(s: seq<T>, i: nat, j: nat)
    requires i <= j <= |s|
    ensures s[..j][..i] == s[..i]
  {
  }

  function Take<T>(n: nat, s: seq<T>): (r: seq<T>)
    ensures r <= s && |r| == if n < |s| then n else |s|
  {
    if n < |s| then s[..n] else s
  }

  lemma {:induction false} FilterAppends<T(!new)>(keep: T -> bool, s: seq<T>, t: seq<T>)
    ensures Filter(keep, s + t) == Filter(keep, s) + Filter(keep, t)
  {
    if s == [] {
      assert s + t == t;
    } else {
      var first, rest := [s[0]], s[1..];
      var kept := if keep(s[0]) then first else [];
      calc {
        Filter(keep, s + t);
        { assert s + t == first + (rest + t); }
        Filter(keep, first + (rest + t));
        { FilterStep(keep, s[0], rest + t); }
        kept + Filter(keep, rest + t);
        { FilterAppends(keep, rest, t); }
        kept + (Filter(keep, rest) + Filter(keep, t));
        (kept + Filter(keep, rest)) + Filter(keep, t);
        Filter(keep, s) + Filter(keep, t);
      }
    }
  }

  /** Filtering a prefix gives a prefix. */
  lemma FilterKeepsPrefix<T(!new)>(keep: T -> bool, s: seq<T>, t: seq<T>)
    requires s <= t
    ensures Filter(keep, s) <= Filter(keep, t)
  {
    FilterAppends(keep, s, t[|s|..]);
    assert t == s + t[|s|..];
  }

  lemma {:induction false} FilterTwice<T(!new)>(p: T -> bool, q: T -> bool, both: T -> bool, s: seq<T>)
    requires forall x :: x in s ==> (both(x) <==> p(x) && q(x))
    ensures Filter(q, Filter(p, s)) == Filter(both, s)
  {
    if s != [] {
      FilterTwice(p, q, both, s[1..]);
      if p(s[0]) {
        FilterStep(q, s[0], Filter(p, s[1..]));
      } else {
        assert Filter(p, s) == Filter(p, s[1..]);
      }
      assert s[0] in s;
    }
  }

  lemma {:induction false} FilterSame<T(!new)>(p: T -> bool, q: T -> bool, s: seq<T>)
    requires forall x :: x in s ==> (p(x) <==> q(x))
    ensures Filter(p, s) == Filter(q, s)
  {
    if s != [] {
      FilterSame(p, q, s[1..]);
    }
  }

  lemma {:induction false} FilterAll<T(!new)>(keep: T -> bool, s: seq<T>)
    requires forall x :: x in s ==> keep(x)
    ensures Filter(keep, s) == s
  {
    if s != [] {
      FilterAll(keep, s[1..]);
    }
  }

  lemma {:induction false} FilterNone<T(!new)>(keep: T -> bool, s: seq<T>)
    requires forall x :: x in s ==> !keep(x)
    ensures Filter(keep, s) == []
  {
    if s != [] {
      FilterNone(keep, s[1..]);
    }
  }

  /** Filtering by a test and by its opposite splits the list. */
  lemma {:induction false} FilterSplits<T(!new)>(keep: T -> bool, drop: T -> bool, s: seq<T>)
    requires forall x :: x in s ==> (keep(x) <==> !drop(x))
    ensures |Filter(keep, s)| + |Filter(drop, s)| == |s|
  {
    if s != [] {
      FilterSplits(keep, drop, s[1..]);
    }
  }

  lemma {:induction false} FilterMultiset<T(!new)>(keep: T -> bool, s: seq<T>, x: T)
    ensures multiset(Filter(keep, s))[x] == if keep(x) then multiset(s)[x] else 0
  {
    if s != [] {
      FilterMultiset(keep, s[1..], x);
      assert s == [s[0]] + s[1..];
    }
  }

  /** How many pass a test does not depend on the order. */
  lemma FilterCountOfRearranged<T(!new)>(keep: T -> bool, s: seq<T>, t: seq<T>)
    requires multiset(s) == multiset(t)
    ensures |Filter(keep, s)| == |Filter(keep, t)|
  {
    forall x
      ensures multiset(Filter(keep, s))[x] == multiset(Filter(keep, t))[x]
    {
      FilterMultiset(keep, s, x);
      FilterMultiset(keep, t, x);
    }
    assert multiset(Filter(keep, s)) == multiset(Filter(keep, t));
    assert |multiset(Filter(keep, s))| == |Filter(keep, s)| && |multiset(Filter(keep, t))| == |Filter(keep, t)|;
  }

  /** One more element at the end of what is filtered. */
  lemma FilterGrows<T(!new)>(keep: T -> bool, s: seq<T>, n: nat)
    requires n < |s|
    ensures Filter(keep, s[..n + 1]) == Filter(keep, s[..n]) + if keep(s[n]) then [s[n]] else []
  {
    assert s[..n + 1] == s[..n] + [s[n]];
    FilterAppends(keep, s[..n], [s[n]]);
  }

  ghost predicate Distinct<T(!new)>(s: seq<T>) {
    forall i, j :: 0 <= i < j < |s| ==> s[i] != s[j]
  }

  // ----- keys and greatest elements -----

  /** The distinct keys of a list's elements, in order of first appearance. */
  function KeysOf<T(!new), K(==)>(key: T -> K, s: seq<T>): seq<K> {
    if s == [] then []
    else
      var before, k := KeysOf(key, s[..|s| - 1]), key(s[|s| - 1]);
      if k in before then before else before + [k]
  }

  lemma {:induction false} KeysAreDistinct<T(!new), K(!new)>(key: T -> K, s: seq<T>)
    ensures Distinct(KeysOf(key, s))
    ensures forall i :: 0 <= i < |s| ==> key(s[i]) in KeysOf(key, s)
    ensures forall k :: k in KeysOf(key, s) ==> exists i :: 0 <= i < |s| && key(s[i]) == k
  {
    if s != [] {
      var front, last := s[..|s| - 1], |s| - 1;
      KeysAreDistinct(key, front);
      forall k | k in KeysOf(key, s)
        ensures exists i :: 0 <= i < |s| && key(s[i]) == k
      {
        if k in KeysOf(key, front) {
          var i :| 0 <= i < |front| && key(front[i]) == k;
          assert key(s[i]) == k;
        } else {
          assert key(s[last]) == k;
        }
      }
      forall i | 0 <= i < |s|
        ensures key(s[i]) in KeysOf(key, s)
      {
        if i < last {
          assert key(front[i]) in KeysOf(key, front);
        }
      }
    }
  }

  /** The first of the elements of greatest weight. */
  function FirstGreatest<T>(weight: T -> int, s: seq<T>): (r: T)
    requires s != []
  {
    if |s| == 1 then s[0]
    else
      var best := FirstGreatest(weight, s[..|s| - 1]);
      if weight(best) < weight(s[|s| - 1]) then s[|s| - 1] else best
  }

  lemma {:induction false} FirstGreatestIsFirst<T(!new)>(weight: T -> int, s: seq<T>)
    requires s != []
    ensures exists i: nat :: i < |s| && s[i] == FirstGreatest(weight, s)
              && (forall k :: 0 <= k < |s| ==> weight(s[k]) <= weight(s[i]))
              && (forall k :: 0 <= k < i ==> weight(s[k]) < weight(s[i]))
  {
    if |s| == 1 {
      assert s[0] == FirstGreatest(weight, s);
    } else {
      var front, last := s[..|s| - 1], |s| - 1;
      FirstGreatestIsFirst(weight, front);
      var i: nat :| i < |front| && front[i] == FirstGreatest(weight, front)
                    && (forall k :: 0 <= k < |front| ==> weight(front[k]) <= weight(front[i]))
                    && (forall k :: 0 <= k < i ==> weight(front[k]) < weight(front[i]));
      assert forall k :: 0 <= k < last ==> s[k] == front[k];
      if weight(front[i]) < weight(s[last]) {
        assert s[last] == FirstGreatest(weight, s);
      } else {
        assert s[i] == FirstGreatest(weight, s);
      }
    }
  }

  // ----- stable sorting -----

  ghost predicate TotalPreorder<T(!new)>(le: (T, T) -> bool) {
    && (forall x, y :: le(x, y) || le(y, x))
    && (forall x, y, z :: le(x, y) && le(y, z) ==> le(x, z))
  }

  predicate Sorted<T>(le: (T, T) -> bool, s: seq<T>) {
    forall i, j :: 0 <= i < j < |s| ==> le(s[i], s[j])
  }

  function Insert<T>(le: (T, T) -> bool, x: T, s: seq<T>): (r: seq<T>)
    ensures |r| == |s| + 1
  {
    if s == [] then [x]
    else if le(x, s[0]) then [x] + s
    else [s[0]] + Insert(le, x, s[1..])
  }

  /** The stable sort: what comes first among equals stays first. */
  function Sort<T>(le: (T, T) -> bool, s: seq<T>): (r: seq<T>)
    ensures |r| == |s|
  {
    if s == [] then [] else Insert(le, s[0], Sort(le, s[1..]))
  }

  lemma {:induction false} InsertAddsOne<T>(le: (T, T) -> bool, x: T, s: seq<T>)
    ensures multiset(Insert(le, x, s)) == multiset(s) + multiset{x}
  {
    if s != [] {
      assert s == [s[0]] + s[1..];
      InsertAddsOne(le, x, s[1..]);
    }
  }

  lemma {:induction false} SortIsRearrangement<T>(le: (T, T) -> bool, s: seq<T>)
    ensures multiset(Sort(le, s)) == multiset(s)
  {
    if s != [] {
      assert s == [s[0]] + s[1..];
      SortIsRearrangement(le, s[1..]);
      InsertAddsOne(le, s[0], Sort(le, s[1..]));
    }
  }

  lemma SortKeepsElements<T(!new)>(le: (T, T) -> bool, s: seq<T>)
    ensures forall x :: x in Sort(le, s) <==> x in s
  {
    SortIsRearrangement(le, s);
    forall x
      ensures x in Sort(le, s) <==> x in s
    {
      assert x in Sort(le, s) <==> x in multiset(Sort(le, s));
    }
  }

  lemma {:induction false} InsertSorted<T(!new)>(le: (T, T) -> bool, x: T, s: seq<T>)
    requires TotalPreorder(le) && Sorted(le, s)
    ensures Sorted(le, Insert(le, x, s))
  {
    if s == [] || le(x, s[0]) {
    } else {
      InsertSorted(le, x, s[1..]);
      var rest := Insert(le, x, s[1..]);
      forall y | y in rest
        ensures le(s[0], y)
      {
        InsertAddsOne(le, x, s[1..]);
        assert y in multiset(rest);
        assert y == x || y in s[1..];
      }
    }
  }

  lemma {:induction false} SortSorted<T(!new)>(le: (T, T) -> bool, s: seq<T>)
    requires TotalPreorder(le)
    ensures Sorted(le, Sort(le, s))
  {
    if s != [] {
      SortSorted(le, s[1..]);
      InsertSorted(le, s[0], Sort(le, s[1..]));
    }
  }

  lemma {:induction false} FilterInsert<T(!new)>(le: (T, T) -> bool, keep: T -> bool, x: T, s: seq<T>)
    requires TotalPreorder(le) && Sorted(le, s)
    ensures Filter(keep, Insert(le, x, s)) == if keep(x) then Insert(le, x, Filter(keep, s)) else Filter(keep, s)
  {
    if s == [] {
      FilterStep(keep, x, []);
    } else if le(x, s[0]) {
      FilterStep(keep, x, s);
      if keep(x) && Filter(keep, s) != [] {
        KeptComesAfter(le, keep, x, s);
      }
    } else {
      var rest := s[1..];
      FilterInsert(le, keep, x, rest);
      FilterStep(keep, s[0], Insert(le, x, rest));
      if keep(s[0]) {
        InsertStep(le, x, s[0], Filter(keep, rest));
      } else {
        assert Filter(keep, s) == Filter(keep, rest);
      }
    }
  }

  lemma InsertStep<T(!new)>(le: (T, T) -> bool, x: T, h: T, s: seq<T>)
    requires !le(x, h)
    ensures Insert(le, x, [h] + s) == [h] + Insert(le, x, s)
  {
    assert ([h] + s)[1..] == s;
  }

  lemma KeptComesAfter<T(!new)>(le: (T, T) -> bool, keep: T -> bool, x: T, s: seq<T>)
    requires TotalPreorder(le) && Sorted(le, s) && s != [] && le(x, s[0]) && Filter(keep, s) != []
    ensures le(x, Filter(keep, s)[0])
  {
    var first := Filter(keep, s)[0];
    FilterElements(keep, s);
    assert first in Filter(keep, s);
    assert first in s;
    assert le(s[0], first);
  }

  /** Filtering commutes with stable sorting. */
  lemma {:induction false} FilterCommutesWithSort<T(!new)>(le: (T, T) -> bool, keep: T -> bool, s: seq<T>)
    requires TotalPreorder(le)
    ensures Filter(keep, Sort(le, s)) == Sort(le, Filter(keep, s))
  {
    if s != [] {
      FilterCommutesWithSort(le, keep, s[1..]);
      SortSorted(le, s[1..]);
      FilterInsert(le, keep, s[0], Sort(le, s[1..]));
      if keep(s[0]) {
        var kept := Filter(keep, s[1..]);
        assert Filter(keep, s) == [s[0]] + kept;
        assert ([s[0]] + kept)[1..] == kept;
      } else {
        assert Filter(keep, s) == Filter(keep, s[1..]);
      }
    }
  }

  lemma {:induction false} SortOfSorted<T(!new)>(le: (T, T) -> bool, s: seq<T>)
    requires TotalPreorder(le) && Sorted(le, s)
    ensures Sort(le, s) == s
  {
    if s != [] {
      SortOfSorted(le, s[1..]);
    }
  }

  predicate Tied<T>(le: (T, T) -> bool, x: T, y: T) {
    le(x, y) && le(y, x)
  }

  function TiedTo<T>(le: (T, T) -> bool, x: T): T -> bool {
    y => Tied(le, x, y)
  }

  /** `t` is `s` rearranged into order, with every class of equals as it stood in `s`. */
  ghost predicate StablySorted<T(!new)>(le: (T, T) -> bool, s: seq<T>, t: seq<T>) {
    && Sorted(le, t)
    && multiset(t) == multiset(s)
    && forall x :: x in s ==> Filter(TiedTo(le, x), t) == Filter(TiedTo(le, x), s)
  }

  lemma SortIsStable<T(!new)>(le: (T, T) -> bool, s: seq<T>)
    requires TotalPreorder(le)
    ensures StablySorted(le, s, Sort(le, s))
  {
    SortSorted(le, s);
    SortIsRearrangement(le, s);
    forall x | x in s
      ensures Filter(TiedTo(le, x), Sort(le, s)) == Filter(TiedTo(le, x), s)
    {
      TiedClassKept(le, x, s);
    }
  }

  lemma TiedClassKept<T(!new)>(le: (T, T) -> bool, x: T, s: seq<T>)
    requires TotalPreorder(le)
    ensures Filter(TiedTo(le, x), Sort(le, s)) == Filter(TiedTo(le, x), s)
  {
    var tied := TiedTo(le, x);
    FilterCommutesWithSort(le, tied, s);
    var group := Filter(tied, s);
    FilterElements(tied, s);
    forall i, j | 0 <= i < j < |group|
      ensures le(group[i], group[j])
    {
      assert group[i] in group && group[j] in group;
    }
    SortOfSorted(le, group);
  }

  lemma FirstIsLeast<T(!new)>(le: (T, T) -> bool, t: seq<T>, x: T)
    requires TotalPreorder(le) && Sorted(le, t) && x in t
    ensures le(t[0], x) && le(t[0], t[0])
  {
    assert le(t[0], t[0]);
  }

  lemma FirstOfClass<T(!new)>(le: (T, T) -> bool, x: T, s: seq<T>)
    requires s != [] && Tied(le, x, s[0])
    ensures Filter(TiedTo(le, x), s) != [] && Filter(TiedTo(le, x), s)[0] == s[0]
  {
    assert TiedTo(le, x)(s[0]);
  }

  lemma HeadsOfSameClasses<T(!new)>(le: (T, T) -> bool, t: seq<T>, u: seq<T>)
    requires TotalPreorder(le) && Sorted(le, t) && Sorted(le, u) && multiset(t) == multiset(u) && t != []
    requires Filter(TiedTo(le, t[0]), t) == Filter(TiedTo(le, t[0]), u)
    ensures u != [] && t[0] == u[0]
  {
    SameElements(t, u);
    FirstIsLeast(le, t, u[0]);
    FirstIsLeast(le, u, t[0]);
    FirstOfClass(le, t[0], t);
    FirstOfClass(le, t[0], u);
  }

  lemma SameElements<T>(t: seq<T>, u: seq<T>)
    requires multiset(t) == multiset(u)
    ensures |t| == |u| && forall i :: 0 <= i < |t| ==> t[i] in u && u[i] in t
  {
    assert |t| == |multiset(t)| && |u| == |multiset(u)|;
    forall i | 0 <= i < |t|
      ensures t[i] in u && u[i] in t
    {
      assert t[i] in multiset(t) && u[i] in multiset(u);
    }
  }

  lemma TailMultiset<T>(t: seq<T>)
    requires t != []
    ensures multiset(t[1..]) == multiset(t) - multiset{t[0]}
  {
    assert t == [t[0]] + t[1..];
  }

  lemma SameTail<T>(front: seq<T>, a: seq<T>, b: seq<T>)
    requires front + a == front + b
    ensures a == b
  {
    assert a == (front + a)[|front|..] && b == (front + b)[|front|..];
  }

  lemma ClassOfTail<T(!new)>(keep: T -> bool, t: seq<T>, u: seq<T>)
    requires t != [] && u != [] && t[0] == u[0] && Filter(keep, t) == Filter(keep, u)
    ensures Filter(keep, t[1..]) == Filter(keep, u[1..])
  {
    SameTail(if keep(t[0]) then [t[0]] else [], Filter(keep, t[1..]), Filter(keep, u[1..]));
  }

  lemma {:induction false} SortedWithSameClasses<T(!new)>(le: (T, T) -> bool, t: seq<T>, u: seq<T>)
    requires TotalPreorder(le) && Sorted(le, t) && Sorted(le, u) && multiset(t) == multiset(u)
    requires forall x :: x in t ==> Filter(TiedTo(le, x), t) == Filter(TiedTo(le, x), u)
    ensures t == u
  {
    if t == [] {
      assert |u| == |multiset(u)| == 0;
    } else {
      assert t[0] in t;
      HeadsOfSameClasses(le, t, u);
      TailMultiset(t);
      TailMultiset(u);
      forall x | x in t[1..]
        ensures Filter(TiedTo(le, x), t[1..]) == Filter(TiedTo(le, x), u[1..])
      {
        assert x in t;
        ClassOfTail(TiedTo(le, x), t, u);
      }
      SortedWithSameClasses(le, t[1..], u[1..]);
      assert t == [t[0]] + t[1..] && u == [u[0]] + u[1..];
    }
  }

  /** There is only one stable rearrangement, so `Sort` is what any stable sort returns. */
  lemma StableSortIsUnique<T(!new)>(le: (T, T) -> bool, s: seq<T>, t: seq<T>)
    requires TotalPreorder(le)
    ensures StablySorted(le, s, t) <==> t == Sort(le, s)
  {
    SortIsStable(le, s);
    if StablySorted(le, s, t) {
      var u := Sort(le, s);
      forall x | x in t
        ensures Filter(TiedTo(le, x), t) == Filter(TiedTo(le, x), u)
      {
        assert x in multiset(t);
        assert x in s;
      }
      SortedWithSameClasses(le, t, u);
    }
  }
}
