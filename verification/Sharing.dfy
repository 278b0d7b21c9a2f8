// Sharing a surplus of lines among items of limited capacity.
module Sharing {
  import opened Integers
  import opened Optional
  import opened Sorting

  function Share(allocations: map<int, int>, index: int): int {
    if index in allocations then allocations[index] else 0
  }

  function ShareOf(allocations: map<int, int>): ((int, int)) -> int {
    (item: (int, int)) => Share(allocations, item.0)
  }

  function CapacityOf(): ((int, int)) -> int {
    (item: (int, int)) => item.1
  }

  predicate SmallerCapacity(a: (int, int), b: (int, int)) {
    a.1 <= b.1
  }

  /** Items are named by distinct indices and have nonnegative capacities. */
  ghost predicate ProperItems(items: seq<(int, int)>) {
    && (forall i :: 0 <= i < |items| ==> items[i].1 >= 0)
    && (forall i, j :: 0 <= i < j < |items| ==> items[i].0 != items[j].0)
  }

  function Total(s: seq<int>): int {
    if s == [] then 0 else Total(s[..|s| - 1]) + s[|s| - 1]
  }

  /** n * v, by repeated addition. */
  function Times(n: nat, v: int): int {
    if n == 0 then 0 else v + Times(n - 1, v)
  }

  lemma {:induction false} TimesMonotone(n: nat, v: int, w: int)
    requires v <= w
    ensures Times(n, v) <= Times(n, w)
  {
    if n > 0 { TimesMonotone(n - 1, v, w); }
  }

  lemma {:induction false} TimesNext(n: nat, v: int)
    ensures Times(n, v + 1) == Times(n, v) + n
  {
    if n > 0 { TimesNext(n - 1, v); }
  }

  lemma {:induction false} TimesProduct(n: nat, v: int)
    ensures Times(n, v) == n * v
  {
    if n > 0 {
      TimesProduct(n - 1, v);
      assert n * v == (n - 1) * v + v;
    }
  }

  lemma Quotient(a: nat, n: nat)
    requires n > 0
    ensures 0 <= a / n && Times(n, a / n) <= a < Times(n, a / n + 1)
  {
    TimesProduct(n, a / n);
    TimesNext(n, a / n);
    assert a == n * (a / n) + a % n;
  }

  /** The first |given| of the ascending capacities have had their share. Either all of them are
      full, or the shares have levelled out at `level`, give or take one unit. */
  ghost predicate Dealt(caps: seq<int>, given: seq<int>, remaining: int, total: int, level: Option<int>) {
    && |given| <= |caps| && remaining >= 0 && remaining + Total(given) == total
    && (forall k :: 0 <= k < |given| ==> 0 <= given[k] <= caps[k])
    && match level
       case None => Full(caps, given, remaining)
       case Some(v) => Level(caps, given, remaining, v)
  }

  ghost predicate Full(caps: seq<int>, given: seq<int>, remaining: int)
    requires |given| <= |caps|
  {
    && (forall k :: 0 <= k < |given| ==> given[k] == caps[k])
    && (forall k :: 0 <= k < |given| ==> Times(|caps| - |given|, given[k]) <= remaining)
  }

  ghost predicate Level(caps: seq<int>, given: seq<int>, remaining: int, v: int)
    requires |given| <= |caps|
  {
    && 0 <= v && Times(|caps| - |given|, v) <= remaining <= Times(|caps| - |given|, v + 1)
    && (forall k :: 0 <= k < |given| ==> given[k] <= v + 1)
    && (forall k :: 0 <= k < |given| && given[k] < caps[k] ==> given[k] >= v)
    && (forall k :: |given| <= k < |caps| ==> caps[k] > v)
  }

  ghost predicate Ascending(caps: seq<int>) {
    forall i, j :: 0 <= i <= j < |caps| ==> 0 <= caps[i] <= caps[j]
  }

  function PerItem(remaining: nat, itemsLeft: nat): nat
    requires itemsLeft > 0
  {
    remaining / itemsLeft
  }

  /** What the next item of the ascending capacities is given. */
  function Give(caps: seq<int>, dealt: nat, remaining: nat): int
    requires dealt < |caps|
  {
    Min(PerItem(remaining, |caps| - dealt), caps[dealt])
  }

  /** The share fits `left` times, and one more unit would not, unless the item is full. */
  lemma GiveIsFair(caps: seq<int>, dealt: nat, remaining: nat)
    requires dealt < |caps| && caps[dealt] >= 0
    ensures var give, left := Give(caps, dealt, remaining), |caps| - dealt;
      && 0 <= give <= caps[dealt]
      && Times(left, give) <= remaining
      && (give < caps[dealt] ==> remaining < Times(left, give + 1))
  {
    var give, left := Give(caps, dealt, remaining), |caps| - dealt;
    Quotient(remaining, left);
    TimesMonotone(left, give, remaining / left);
  }

  /** One round of the dealing loop while every earlier item was filled. */
  lemma DealAfterFull(caps: seq<int>, given: seq<int>, remaining: nat, total: int) returns (level: Option<int>)
    requires |given| < |caps| && Ascending(caps)
    requires Dealt(caps, given, remaining, total, None)
    ensures var give := Give(caps, |given|, remaining);
      Dealt(caps, given + [give], remaining - give, total, level)
  {
    var p, left := |given|, |caps| - |given|;
    var give := Give(caps, p, remaining);
    GiveIsFair(caps, p, remaining);
    FillHolds(left, remaining, give, give, caps[p]);
    FillsEarlier(caps, given, remaining, total, give);
    hide Give, Times, Dealt, Ascending;
    if give == caps[p] {
      StaysFull(caps, given, remaining, total, give);
      level := None;
    } else {
      LevelsOut(caps, given, remaining, total, give);
      level := Some(give);
    }
  }

  lemma FillsEarlier(caps: seq<int>, given: seq<int>, remaining: nat, total: int, give: int)
    requires |given| < |caps| && Ascending(caps) && Dealt(caps, given, remaining, total, None)
    requires give == Give(caps, |given|, remaining)
    ensures forall k :: 0 <= k < |given| ==> given[k] <= give && Times(|caps| - |given| - 1, given[k]) <= remaining - give
  {
    var p, left := |given|, |caps| - |given|;
    GiveIsFair(caps, p, remaining);
    hide Give, Times;
    forall k | 0 <= k < p ensures given[k] <= give && Times(left - 1, given[k]) <= remaining - give {
      assert given[k] == caps[k] <= caps[p];
      FillHolds(left, remaining, given[k], give, caps[p]);
    }
  }

  lemma OneMoreGiven(given: seq<int>, give: int)
    ensures Total(given + [give]) == Total(given) + give
  {
    assert (given + [give])[..|given|] == given;
  }

  lemma StaysFull(caps: seq<int>, given: seq<int>, remaining: nat, total: int, give: int)
    requires |given| < |caps| && Dealt(caps, given, remaining, total, None) && 0 <= give == caps[|given|] <= remaining
    requires Times(|caps| - |given| - 1, give) <= remaining - give
    requires forall k :: 0 <= k < |given| ==> Times(|caps| - |given| - 1, given[k]) <= remaining - give
    ensures Dealt(caps, given + [give], remaining - give, total, None)
  {
    OneMoreGiven(given, give);
    hide Times, Total;
  }

  lemma LevelsOut(caps: seq<int>, given: seq<int>, remaining: nat, total: int, give: int)
    requires |given| < |caps| && Ascending(caps) && Dealt(caps, given, remaining, total, None)
    requires 0 <= give < caps[|given|] && give <= remaining
    requires Times(|caps| - |given| - 1, give) <= remaining - give <= Times(|caps| - |given| - 1, give + 1)
    requires forall k :: 0 <= k < |given| ==> given[k] <= give
    ensures Dealt(caps, given + [give], remaining - give, total, Some(give))
  {
    OneMoreGiven(given, give);
    hide Times, Total;
  }

  lemma FillHolds(left: nat, remaining: int, earlier: int, give: int, cap: int)
    requires left > 0 && 0 <= earlier <= cap && 0 <= give && Times(left, earlier) <= remaining
    requires Times(left, give) <= remaining && (give < cap ==> remaining < Times(left, give + 1))
    ensures earlier <= give && Times(left - 1, earlier) <= remaining - give && 0 <= remaining - give
    ensures give < cap ==> Times(left - 1, give) <= remaining - give <= Times(left - 1, give + 1)
  {
    if earlier > give { TimesMonotone(left, give + 1, earlier); }
    TimesMonotone(left - 1, earlier, give);
    TimesMonotone(left - 1, 0, give);
    TimesProduct(left - 1, 0);
    TimesNext(left, give);
    TimesNext(left - 1, give);
  }

  /** One round of the dealing loop once some item took less than its capacity. */
  lemma DealAtLevel(caps: seq<int>, given: seq<int>, remaining: nat, total: int, v: int)
    requires |given| < |caps| && Ascending(caps)
    requires Dealt(caps, given, remaining, total, Some(v))
    ensures var give := Give(caps, |given|, remaining);
      Dealt(caps, given + [give], remaining - give, total, Some(v))
  {
    var p, left := |given|, |caps| - |given|;
    var give := Give(caps, p, remaining);
    GiveIsFair(caps, p, remaining);
    hide Give, Times;
    LevelHolds(left, remaining, v, give, caps[p]);
    assert (given + [give])[..p] == given;
  }

  lemma LevelHolds(left: nat, remaining: int, v: int, give: int, cap: int)
    requires left > 0 && Times(left, v) <= remaining <= Times(left, v + 1) && cap > v
    requires Times(left, give) <= remaining && (give < cap ==> remaining < Times(left, give + 1))
    ensures v <= give <= v + 1
    ensures Times(left - 1, v) <= remaining - give <= Times(left - 1, v + 1)
    ensures 0 <= v ==> 0 <= remaining - give
  {
    if v >= 0 { TimesMonotone(left - 1, 0, v); TimesProduct(left - 1, 0); }
    if give < v { TimesMonotone(left, give + 1, v); }
    TimesNext(left, v + 1);
    if give > v + 1 { TimesMonotone(left, v + 2, give); }
    TimesNext(left, v);
    TimesNext(left - 1, v);
  }

  /** When everyone has been served, either the total is spent or everyone is full. */
  lemma {:induction false} DealtOut(caps: seq<int>, given: seq<int>, remaining: int, total: int, level: Option<int>)
    requires |given| == |caps| && Dealt(caps, given, remaining, total, level)
    ensures Total(given) == Min(total, Total(caps))
  {
    TotalAtMost(given, caps);
    if level.None? {
      assert given == caps;
    } else {
      assert remaining == 0;
    }
  }

  lemma {:induction false} TotalAtMost(a: seq<int>, b: seq<int>)
    requires |a| == |b| && forall k :: 0 <= k < |a| ==> a[k] <= b[k]
    ensures Total(a) <= Total(b)
  {
    if a != [] { TotalAtMost(a[..|a| - 1], b[..|b| - 1]); }
  }

  function Capacities(items: seq<(int, int)>): (caps: seq<int>)
    ensures |caps| == |items|
  {
    seq(|items|, k requires 0 <= k < |items| => items[k].1)
  }

  lemma {:induction false} SumIsTotal(items: seq<(int, int)>, f: ((int, int)) -> int, values: seq<int>)
    requires |values| == |items| && forall k :: 0 <= k < |items| ==> values[k] == f(items[k])
    ensures Sum(items, f) == Total(values)
  {
    if items != [] {
      var init, last := items[..|items| - 1], items[|items| - 1];
      SumIsTotal(init, f, values[..|values| - 1]);
      assert items == init + [last];
      SumAppend(init, [last], f);
      assert [last][1..] == [];
    }
  }

  lemma GiveIs(items: seq<(int, int)>, dealt: nat, remaining: nat)
    requires dealt < |items|
    ensures Give(Capacities(items), dealt, remaining) == Min(PerItem(remaining, |items| - dealt), items[dealt].1)
  {
  }

  lemma DealtLeaves(caps: seq<int>, given: seq<int>, remaining: int, total: int, level: Option<int>)
    requires Dealt(caps, given, remaining, total, level)
    ensures remaining >= 0
  {
  }

  ghost predicate SharesAre(items: seq<(int, int)>, given: seq<int>, allocations: map<int, int>) {
    |given| <= |items| && forall k :: 0 <= k < |given| ==> Share(allocations, items[k].0) == given[k]
  }

  lemma NextShare(items: seq<(int, int)>, given: seq<int>, allocations: map<int, int>, give: int)
    requires ProperItems(items) && |given| < |items| && SharesAre(items, given, allocations)
    ensures SharesAre(items, given + [give], allocations[items[|given|].0 := give])
  {
  }

  /** What the sorted items got, read as shares of the items in their given order. */
  lemma SharesOfSorted(items: seq<(int, int)>, sorted: seq<(int, int)>, given: seq<int>, total: int,
                       remaining: int, level: Option<int>, allocations: map<int, int>)
    requires sorted == StableSort(items, SmallerCapacity) && |given| == |sorted|
    requires Dealt(Capacities(sorted), given, remaining, total, level)
    requires SharesAre(sorted, given, allocations)
    ensures Fair(items, total, allocations)
  {
    SumOfShares(items, sorted, given, total, remaining, level, allocations);
    SameElements(items, SmallerCapacity);
    hide StableSort, Dealt, SharesAre, Capacities, SmallerCapacity, Share, Sum, ShareOf, CapacityOf;
    forall a, b | a in items && b in items
      ensures 0 <= Share(allocations, a.0) <= a.1
      ensures Share(allocations, a.0) < a.1 ==> Share(allocations, a.0) >= Share(allocations, b.0) - 1
    {
      assert a in sorted && b in sorted;
      SharesOfPair(sorted, given, total, remaining, level, allocations, a, b);
    }
  }

  lemma SharesOfPair(sorted: seq<(int, int)>, given: seq<int>, total: int, remaining: int, level: Option<int>,
                     allocations: map<int, int>, a: (int, int), b: (int, int))
    requires |given| == |sorted| && Dealt(Capacities(sorted), given, remaining, total, level)
    requires SharesAre(sorted, given, allocations) && a in sorted && b in sorted
    ensures 0 <= Share(allocations, a.0) <= a.1
    ensures Share(allocations, a.0) < a.1 ==> Share(allocations, a.0) >= Share(allocations, b.0) - 1
  {
    hide Dealt, Capacities, Share;
    var i :| 0 <= i < |sorted| && sorted[i] == a;
    var j :| 0 <= j < |sorted| && sorted[j] == b;
    SharesLevel(sorted, given, total, remaining, level, i, j);
  }

  lemma SharesLevel(sorted: seq<(int, int)>, given: seq<int>, total: int, remaining: int, level: Option<int>, i: nat, j: nat)
    requires i < |sorted| && j < |sorted| && |given| == |sorted|
    requires Dealt(Capacities(sorted), given, remaining, total, level)
    ensures 0 <= given[i] <= sorted[i].1
    ensures given[i] < sorted[i].1 ==> given[i] >= given[j] - 1
  {
    var caps := Capacities(sorted);
    assert given[i] <= caps[i] && given[j] <= caps[j];
  }

  lemma SumOfShares(items: seq<(int, int)>, sorted: seq<(int, int)>, given: seq<int>, total: int,
                    remaining: int, level: Option<int>, allocations: map<int, int>)
    requires sorted == StableSort(items, SmallerCapacity) && |given| == |sorted|
    requires Dealt(Capacities(sorted), given, remaining, total, level)
    requires SharesAre(sorted, given, allocations)
    ensures Sum(items, ShareOf(allocations)) == Min(total, Sum(items, CapacityOf()))
  {
    DealtOut(Capacities(sorted), given, remaining, total, level);
    hide Dealt;
    SumIsTotal(sorted, ShareOf(allocations), given);
    SumIsTotal(sorted, CapacityOf(), Capacities(sorted));
    SumSort(items, SmallerCapacity, ShareOf(allocations));
    SumSort(items, SmallerCapacity, CapacityOf());
  }

  /** Nothing is wasted, no capacity is exceeded, and an item that is not full gets at least
      every other item's share less one unit. */
  ghost predicate Fair(items: seq<(int, int)>, total: int, allocations: map<int, int>) {
    && Sum(items, ShareOf(allocations)) == Min(total, Sum(items, CapacityOf()))
    && (forall a :: a in items ==> 0 <= Share(allocations, a.0) <= a.1)
    && (forall a, b :: a in items && b in items && Share(allocations, a.0) < a.1
          ==> Share(allocations, a.0) >= Share(allocations, b.0) - 1)
  }

  /** `_distribute_evenly` */
  method DistributeEvenly(items: seq<(int, int)>, total: int) returns (allocations: map<int, int>)
    requires ProperItems(items)
    ensures total >= 0 ==> Fair(items, total, allocations)
    ensures total < 0 ==> allocations == map[]
  {
    hide *;
    if items == [] || total <= 0 {
      allocations := map[];
      NothingToShare(items, total);
      return;
    }
    var sorted := StableSort(items, SmallerCapacity);
    StartDealing(items, total);
    allocations := map[];
    var remaining := total;
    ghost var given: seq<int> := [];
    ghost var level: Option<int> := None;
    for pos := 0 to |sorted|
      invariant 0 <= remaining && |given| == pos
      invariant Dealt(Capacities(sorted), given, remaining, total, level)
      invariant SharesAre(sorted, given, allocations)
    {
      var (index, capacity) := sorted[pos];
      var itemsLeft := |sorted| - pos;
      var perItem := PerItem(remaining, itemsLeft);
      var give := Min(perItem, capacity);
      GiveIs(sorted, pos, remaining);
      if level.None? {
        level := DealAfterFull(Capacities(sorted), given, remaining, total);
      } else {
        DealAtLevel(Capacities(sorted), given, remaining, total, level.value);
      }
      NextShare(sorted, given, allocations, give);
      DealtLeaves(Capacities(sorted), given + [give], remaining - give, total, level);
      allocations := allocations[index := give];
      given := given + [give];
      remaining := remaining - give;
    }
    SharesOfSorted(items, sorted, given, total, remaining, level, allocations);
  }

  lemma SortedItems(items: seq<(int, int)>)
    requires ProperItems(items)
    ensures var sorted := StableSort(items, SmallerCapacity);
      ProperItems(sorted) && Ascending(Capacities(sorted)) && forall x :: x in sorted ==> x in items
  {
    var sorted := StableSort(items, SmallerCapacity);
    SortSorts(items, SmallerCapacity);
    SameElements(items, SmallerCapacity);
    forall i | 0 <= i < |sorted| ensures sorted[i].1 >= 0 {
      SortedFrom(items, SmallerCapacity, i);
    }
    forall i, j | 0 <= i <= j < |sorted| ensures 0 <= Capacities(sorted)[i] <= Capacities(sorted)[j] {
      assert i < j ==> SmallerCapacity(sorted[i], sorted[j]);
    }
    var index := (item: (int, int)) => item.0;
    assert forall i, j :: 0 <= i < j < |items| ==> index(items[i]) != index(items[j]);
    SortDistinct(items, SmallerCapacity, index);
    forall i, j | 0 <= i < j < |sorted| ensures sorted[i].0 != sorted[j].0 {
      assert index(sorted[i]) != index(sorted[j]);
    }
  }

  lemma StartDealing(items: seq<(int, int)>, total: nat)
    requires ProperItems(items)
    ensures var sorted := StableSort(items, SmallerCapacity);
      && ProperItems(sorted) && Ascending(Capacities(sorted))
      && Dealt(Capacities(sorted), [], total, total, None)
      && SharesAre(sorted, [], map[])
  {
    SortedItems(items);
  }

  lemma NothingToShare(items: seq<(int, int)>, total: int)
    requires ProperItems(items) && (items == [] || total <= 0)
    ensures total >= 0 ==> Fair(items, total, map[])
  {
    SumOfNothing(items);
  }

  lemma {:induction false} SumOfNothing(items: seq<(int, int)>)
    requires ProperItems(items)
    ensures Sum(items, ShareOf(map[])) == 0 <= Sum(items, CapacityOf())
  {
    if items != [] {
      SumOfNothing(items[1..]);
    }
  }
}
