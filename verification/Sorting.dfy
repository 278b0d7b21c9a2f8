// Python's `sorted`: a stable sort by a comparison, and the sorting of a set.
module Sorting {

  /** The comparison orders the given elements, up to ties. */
  ghost predicate TotalPreorder<T>(s: seq<T>, le: (T, T) -> bool) {
    && (forall x, y :: x in s && y in s ==> le(x, y) || le(y, x))
    && (forall x, y, z :: x in s && y in s && z in s && le(x, y) && le(y, z) ==> le(x, z))
  }

  ghost predicate SortedBy<T>(s: seq<T>, le: (T, T) -> bool) {
    forall i, j :: 0 <= i < j < |s| ==> le(s[i], s[j])
  }

  ghost predicate StrictlyIncreasing(s: seq<int>) {
    forall i, j :: 0 <= i < j < |s| ==> s[i] < s[j]
  }

  function Insert<T>(x: T, s: seq<T>, le: (T, T) -> bool): (r: seq<T>)
    ensures multiset(r) == multiset{x} + multiset(s)
    ensures |r| == |s| + 1
  {
    if s == [] then [x]
    else if le(x, s[0]) then [x] + s
    else
      assert s == [s[0]] + s[1..];
      [s[0]] + Insert(x, s[1..], le)
  }

  /** The stable sort: an element goes before the elements it ties with that came after it. */
  function StableSort<T>(s: seq<T>, le: (T, T) -> bool): (r: seq<T>)
    ensures multiset(r) == multiset(s)
    ensures |r| == |s|
  {
    if s == [] then []
    else
      assert s == [s[0]] + s[1..];
      Insert(s[0], StableSort(s[1..], le), le)
  }

  lemma {:induction false} SortSorts<T>(s: seq<T>, le: (T, T) -> bool)
    requires TotalPreorder(s, le)
    ensures SortedBy(StableSort(s, le), le)
  {
    if s != [] {
      var rest := StableSort(s[1..], le);
      OrdersFewer(s, s[1..], le);
      SortSorts(s[1..], le);
      forall x | x in [s[0]] + rest ensures x in s {
        if x != s[0] {
          var j :| 0 <= j < |rest| && rest[j] == x;
          SortedFrom(s[1..], le, j);
        }
      }
      OrdersFewer(s, [s[0]] + rest, le);
      InsertSorts(s[0], rest, le);
    }
  }

  /** `a` stands before `b`. */
  ghost predicate Precedes<T(!new)>(s: seq<T>, a: T, b: T) {
    exists i, j :: 0 <= i < j < |s| && s[i] == a && s[j] == b
  }

  lemma PrecedesCons<T(!new)>(x: T, s: seq<T>, a: T, b: T)
    ensures Precedes([x] + s, a, b) <==> Precedes(s, a, b) || (a == x && b in s)
  {
    var t := [x] + s;
    assert forall k :: 0 <= k < |s| ==> t[k + 1] == s[k];
    if Precedes(t, a, b) {
      var i, j :| 0 <= i < j < |t| && t[i] == a && t[j] == b;
      assert s[j - 1] == b;
      if i > 0 { assert s[i - 1] == a; }
    }
    if Precedes(s, a, b) {
      var i, j :| 0 <= i < j < |s| && s[i] == a && s[j] == b;
      assert t[i + 1] == a && t[j + 1] == b;
    }
    if a == x && b in s {
      var j :| 0 <= j < |s| && s[j] == b;
      assert t[0] == a && t[j + 1] == b;
    }
  }

  lemma {:induction false} InsertPlaces<T(!new)>(x: T, s: seq<T>, le: (T, T) -> bool, a: T, b: T)
    ensures Precedes(s, a, b) ==> Precedes(Insert(x, s, le), a, b)
    ensures b in s && le(x, b) ==> Precedes(Insert(x, s, le), x, b)
  {
    if s == [] || le(x, s[0]) {
      PrecedesCons(x, s, a, b);
      PrecedesCons(x, s, x, b);
    } else {
      assert s == [s[0]] + s[1..];
      var rest := Insert(x, s[1..], le);
      InsertPlaces(x, s[1..], le, a, b);
      PrecedesCons(s[0], s[1..], a, b);
      PrecedesCons(s[0], rest, a, b);
      PrecedesCons(s[0], rest, x, b);
      InsertedIn(x, s[1..], le, b);
    }
  }

  lemma InsertedIn<T>(x: T, s: seq<T>, le: (T, T) -> bool, b: T)
    ensures b in Insert(x, s, le) <==> b == x || b in s
  {
    assert b in Insert(x, s, le) <==> b in multiset(Insert(x, s, le));
    assert b in s <==> b in multiset(s);
  }

  /** Elements that may keep their order keep it. */
  lemma {:induction false} SortStable<T(!new)>(s: seq<T>, le: (T, T) -> bool, a: T, b: T)
    requires Precedes(s, a, b) && le(a, b)
    ensures Precedes(StableSort(s, le), a, b)
  {
    var rest := StableSort(s[1..], le);
    assert s == [s[0]] + s[1..];
    PrecedesCons(s[0], s[1..], a, b);
    InsertPlaces(s[0], rest, le, a, b);
    if Precedes(s[1..], a, b) {
      SortStable(s[1..], le, a, b);
    } else {
      SameElements(s[1..], le);
    }
  }

  ghost predicate NoRepeats<T(!new)>(s: seq<T>) {
    forall i, j :: 0 <= i < j < |s| ==> s[i] != s[j]
  }

  lemma {:induction false} CountNoRepeats<T(!new)>(s: seq<T>)
    requires NoRepeats(s)
    ensures |set x | x in s| == |s|
  {
    if s != [] {
      var front, last := s[..|s| - 1], s[|s| - 1];
      CountNoRepeats(front);
      assert s == front + [last];
      assert (set x | x in s) == (set x | x in front) + {last};
      assert last !in front;
    }
  }

  lemma OrdersFewer<T>(s: seq<T>, t: seq<T>, le: (T, T) -> bool)
    requires TotalPreorder(s, le) && forall x :: x in t ==> x in s
    ensures TotalPreorder(t, le)
  {
  }

  lemma {:induction false} InsertSorts<T>(x: T, s: seq<T>, le: (T, T) -> bool)
    requires TotalPreorder([x] + s, le) && SortedBy(s, le)
    ensures SortedBy(Insert(x, s, le), le)
  {
    assert x in [x] + s && forall j :: 0 <= j < |s| ==> s[j] in [x] + s;
    if s != [] && !le(x, s[0]) {
      OrdersFewer([x] + s, [x] + s[1..], le);
      InsertSorts(x, s[1..], le);
      var r := Insert(x, s[1..], le);
      forall j | 0 <= j < |r| ensures le(s[0], r[j]) {
        assert r[j] in multiset(r);
        assert r[j] == x || r[j] in s[1..];
      }
    }
  }

  lemma SameElements<T>(s: seq<T>, le: (T, T) -> bool)
    ensures forall x :: x in s <==> x in StableSort(s, le)
  {
    forall x ensures x in s <==> x in StableSort(s, le) {
      assert x in s <==> x in multiset(s);
      assert x in StableSort(s, le) <==> x in multiset(StableSort(s, le));
    }
  }

  lemma SortedFrom<T>(s: seq<T>, le: (T, T) -> bool, i: nat)
    requires i < |s|
    ensures StableSort(s, le)[i] in s
  {
    assert StableSort(s, le)[i] in multiset(StableSort(s, le));
  }

  ghost predicate DistinctBy<T>(s: seq<T>, key: T -> int) {
    forall i, j :: 0 <= i < j < |s| ==> key(s[i]) != key(s[j])
  }

  lemma {:induction false} SortDistinct<T>(s: seq<T>, le: (T, T) -> bool, key: T -> int)
    requires DistinctBy(s, key)
    ensures DistinctBy(StableSort(s, le), key)
  {
    if s != [] {
      SortDistinct(s[1..], le, key);
      var rest := StableSort(s[1..], le);
      forall j | 0 <= j < |rest| ensures key(s[0]) != key(rest[j]) {
        SortedFrom(s[1..], le, j);
      }
      InsertDistinct(s[0], rest, le, key);
    }
  }

  lemma {:induction false} InsertDistinct<T>(x: T, s: seq<T>, le: (T, T) -> bool, key: T -> int)
    requires DistinctBy(s, key) && forall j :: 0 <= j < |s| ==> key(x) != key(s[j])
    ensures DistinctBy(Insert(x, s, le), key)
  {
    if s != [] && !le(x, s[0]) {
      InsertDistinct(x, s[1..], le, key);
      var r := Insert(x, s[1..], le);
      forall j | 0 <= j < |r| ensures key(s[0]) != key(r[j]) {
        assert r[j] in multiset(r);
        assert r[j] == x || r[j] in s[1..];
      }
    }
  }

  function Sum<T>(s: seq<T>, f: T -> int): int {
    if s == [] then 0 else f(s[0]) + Sum(s[1..], f)
  }

  lemma {:induction false} SumInsert<T>(x: T, s: seq<T>, le: (T, T) -> bool, f: T -> int)
    ensures Sum(Insert(x, s, le), f) == f(x) + Sum(s, f)
  {
    if s != [] && !le(x, s[0]) {
      SumInsert(x, s[1..], le, f);
      assert Insert(x, s, le)[1..] == Insert(x, s[1..], le);
    } else {
      assert ([x] + s)[1..] == s;
    }
  }

  lemma {:induction false} SumSort<T>(s: seq<T>, le: (T, T) -> bool, f: T -> int)
    ensures Sum(StableSort(s, le), f) == Sum(s, f)
  {
    if s != [] {
      SumSort(s[1..], le, f);
      SumInsert(s[0], StableSort(s[1..], le), le, f);
    }
  }

  lemma {:induction false} SumAppend<T>(s: seq<T>, t: seq<T>, f: T -> int)
    ensures Sum(s + t, f) == Sum(s, f) + Sum(t, f)
  {
    if s == [] {
      assert s + t == t;
    } else {
      SumAppend(s[1..], t, f);
      assert (s + t)[1..] == s[1..] + t;
    }
  }

  /** `sorted` over a set of integers. */
  method SortedElements(s: set<int>) returns (r: seq<int>)
    ensures StrictlyIncreasing(r)
    ensures forall x :: x in r <==> x in s
  {
    r := [];
    var rest := s;
    while rest != {}
      invariant rest <= s
      invariant StrictlyIncreasing(r)
      invariant forall x :: x in r <==> x in s && x !in rest
      invariant forall x, y :: x in r && y in rest ==> x < y
      decreases |rest|
    {
      var least := Least(rest);
      assert forall i :: 0 <= i < |r| ==> r[i] in r;
      r := r + [least];
      rest := rest - {least};
    }
  }

  method Least(s: set<int>) returns (m: int)
    requires s != {}
    ensures m in s && forall x :: x in s ==> m <= x
  {
    assert exists x :: x in s by { if forall x :: x !in s { assert false; } }
    m :| m in s;
    var rest := s - {m};
    while rest != {}
      invariant m in s && rest <= s
      invariant forall x :: x in s && x !in rest ==> m <= x
      decreases |rest|
    {
      assert exists x :: x in rest by { if forall x :: x !in rest { assert false; } }
      var x :| x in rest;
      if x < m { m := x; }
      rest := rest - {x};
    }
  }
}
