// Which calls are folded and which files are shown, from what was observed: without the order of the steps.
module FoldedFiles {
  import opened Folding
  import opened Sorting

  predicate Looked(o: Observation) {
    o.tool != Write
  }

  ghost predicate LookedTwice(observations: seq<Observation>) {
    exists i, j :: 0 <= i < j < |observations| && Looked(observations[i]) && Looked(observations[j])
  }

  /** A file is worth a section if some call searched it, if it was read or searched twice, or, unless folding in
      the legacy manner, if it was read and not by a call of the newest file turn. */
  ghost predicate Worthwhile(a: Accumulator, s: Settings) {
    || (exists o :: o in a.observations && o.tool == Search)
    || LookedTwice(a.observations)
    || (!s.legacyMinimum && (exists o :: o in a.observations && Looked(o))
        && forall o :: o in a.observations && Looked(o) ==> o.callId !in s.newest)
  }

  lemma TwiceIn(all: seq<Observation>, i: nat, j: nat)
    requires i < j < |all| && Looked(all[i]) && Looked(all[j])
    ensures LookedTwice(all)
  {
  }

  lemma TwiceCons(first: Observation, rest: seq<Observation>)
    ensures LookedTwice(rest) || (Looked(first) && exists o :: o in rest && Looked(o)) ==> LookedTwice([first] + rest)
  {
    var all := [first] + rest;
    if LookedTwice(rest) {
      var i, j :| 0 <= i < j < |rest| && Looked(rest[i]) && Looked(rest[j]);
      hide LookedTwice, Looked;
      TwiceIn(all, i + 1, j + 1);
    } else if Looked(first) && exists o :: o in rest && Looked(o) {
      var o :| o in rest && Looked(o);
      hide LookedTwice, Looked;
      var j :| 0 <= j < |rest| && rest[j] == o;
      TwiceIn(all, 0, j + 1);
    }
  }

  lemma TwiceRest(first: Observation, rest: seq<Observation>)
    ensures LookedTwice([first] + rest) ==> LookedTwice(rest) || (Looked(first) && exists o :: o in rest && Looked(o))
  {
    var all := [first] + rest;
    if LookedTwice(all) {
      var i, j :| 0 <= i < j < |all| && Looked(all[i]) && Looked(all[j]);
      hide LookedTwice, Looked;
      assert all[j] == rest[j - 1] && rest[j - 1] in rest;
      if i > 0 {
        assert all[i] == rest[i - 1];
        TwiceIn(rest, i - 1, j - 1);
      }
    }
  }

  lemma {:induction false} TwoSeen(observations: seq<Observation>)
    ensures |ReadSearch(observations)| >= 2 <==> LookedTwice(observations)
  {
    if observations != [] {
      var first, rest := observations[0], observations[1..];
      var seen := ReadSearch(rest);
      TwoSeen(rest);
      assert observations == [first] + rest;
      assert |ReadSearch(observations)| == |seen| + if Looked(first) then 1 else 0;
      assert seen == [] <==> !exists o :: o in rest && Looked(o) by {
        if seen != [] { assert seen[0] in seen; }
      }
      hide LookedTwice, ReadSearch, Looked;
      TwiceCons(first, rest);
      TwiceRest(first, rest);
    }
  }

  lemma WorthwhileIff(a: Accumulator, s: Settings)
    requires s.minObservations == 2
    ensures ShouldRender(a, s) <==> Worthwhile(a, s)
  {
    var seen := ReadSearch(a.observations);
    TwoSeen(a.observations);
    hide ReadSearch;
    forall k | 0 <= k < |seen| ensures seen[k] in a.observations && Looked(seen[k]) {
      assert seen[k] in seen;
    }
    if o :| o in a.observations && Looked(o) {
      assert o in seen;
      assert seen != [];
    }
    if o :| o in a.observations && o.tool == Search {
      assert o in seen;
      var k :| 0 <= k < |seen| && seen[k] == o;
    }
    if o :| o in a.observations && Looked(o) && o.callId in s.newest {
      assert o in seen;
      var k :| 0 <= k < |seen| && seen[k] == o;
    }
  }

  // ----- the most recently observed

  /** The file's last observation is the newest of all. */
  ghost predicate LatestIs(a: Accumulator, n: nat) {
    && (exists o :: o in a.observations && o.sequenceIndex == n)
    && (forall o :: o in a.observations ==> o.sequenceIndex <= n)
  }

  lemma {:induction false} LatestMeans(observations: seq<Observation>)
    requires observations != []
    ensures LatestIs(Accumulator("", observations), LastSequenceIndex(observations))
  {
    var first, rest := observations[0], observations[1..];
    assert observations == [first] + rest;
    assert first in observations;
    if rest != [] {
      LatestMeans(rest);
      var n := LastSequenceIndex(rest);
      var o :| o in rest && o.sequenceIndex == n;
      assert o in observations;
      forall o | o in observations ensures o == first || o in rest {
      }
    } else {
      assert LastSequenceIndex(rest) == 0;
    }
  }

  /** The file of `b` was observed after that of `a`, or just as late and it was seen first. */
  ghost predicate Ahead(all: seq<Accumulator>, b: Accumulator, a: Accumulator) {
    exists m, n :: LatestIs(b, m) && LatestIs(a, n) && (m > n || (m == n && Precedes(all, b, a)))
  }

  /** Each file has one record, with at least one observation. */
  ghost predicate ProperRecords(all: seq<Accumulator>) {
    && (forall i, j :: 0 <= i < j < |all| ==> all[i].path != all[j].path)
    && (forall a :: a in all ==> a.observations != [])
  }

  /** The worthwhile files that come ahead of `a`. */
  ghost function Rivals(all: seq<Accumulator>, s: Settings, a: Accumulator): set<Accumulator> {
    set b | b in all && Worthwhile(b, s) && Ahead(all, b, a)
  }

  lemma LatestOf(a: Accumulator, n: nat)
    requires a.observations != []
    ensures LatestIs(a, n) <==> n == LastSequenceIndex(a.observations)
  {
    LatestMeans(a.observations);
    var m := LastSequenceIndex(a.observations);
    var o :| o in a.observations && o.sequenceIndex == m;
    hide LastSequenceIndex;
  }

  lemma AheadIs(all: seq<Accumulator>, b: Accumulator, a: Accumulator)
    requires a.observations != [] && b.observations != []
    ensures Ahead(all, b, a) <==> MoreRecent(b, a) && (MoreRecent(a, b) ==> Precedes(all, b, a))
  {
    var m, n := LastSequenceIndex(b.observations), LastSequenceIndex(a.observations);
    LatestOf(b, m);
    LatestOf(a, n);
    forall x: nat ensures LatestIs(b, x) <==> x == m { LatestOf(b, x); }
    forall x: nat ensures LatestIs(a, x) <==> x == n { LatestOf(a, x); }
    hide LatestIs, LastSequenceIndex, Precedes;
  }

  lemma {:induction false} CandidatesKeepOrder(all: seq<Accumulator>, s: Settings, a: Accumulator, b: Accumulator)
    ensures Precedes(Candidates(all, s), a, b) ==> Precedes(all, a, b)
    ensures Precedes(all, a, b) && ShouldRender(a, s) && ShouldRender(b, s) ==> Precedes(Candidates(all, s), a, b)
  {
    if all != [] {
      var first, rest, kept := all[0], all[1..], Candidates(all[1..], s);
      assert all == [first] + rest;
      assert Candidates(all, s) == if ShouldRender(first, s) then [first] + kept else kept;
      CandidatesKeepOrder(rest, s, a, b);
      hide *;
      assert b in kept <==> b in rest && ShouldRender(b, s);
      PrecedesCons(first, rest, a, b);
      PrecedesCons(first, kept, a, b);
    } else {
      hide ShouldRender;
    }
  }

  lemma PrecedesOnce<T(!new)>(s: seq<T>, a: T, b: T)
    requires NoRepeats(s) && Precedes(s, a, b)
    ensures a != b && !Precedes(s, b, a)
  {
  }

  lemma PrecedesTotal<T(!new)>(s: seq<T>, a: T, b: T)
    requires a in s && b in s && a != b
    ensures Precedes(s, a, b) || Precedes(s, b, a)
  {
    var i :| 0 <= i < |s| && s[i] == a;
    var j :| 0 <= j < |s| && s[j] == b;
    assert i < j || j < i;
  }

  lemma {:induction false} NoRepeatsOnce<T(!new)>(s: seq<T>)
    ensures NoRepeats(s) <==> forall x :: x in s ==> multiset(s)[x] == 1
  {
    if s != [] {
      var first, rest := s[0], s[1..];
      NoRepeatsOnce(rest);
      assert s == [first] + rest;
      if NoRepeats(s) {
        forall i, j | 0 <= i < j < |rest| ensures rest[i] != rest[j] { assert s[i + 1] != s[j + 1]; }
        forall k | 0 <= k < |rest| ensures first != rest[k] { assert s[0] != s[k + 1]; }
        forall x | x in s ensures multiset(s)[x] == 1 {
          assert x == first || x in rest;
        }
      }
      if forall x :: x in s ==> multiset(s)[x] == 1 {
        assert multiset(s) == multiset{first} + multiset(rest);
        assert first in s && multiset(s)[first] == 1;
        assert first !in rest;
        forall x | x in rest ensures multiset(rest)[x] == 1 {
          assert x in s;
        }
      }
    }
  }

  /** Before `a` in the sorted candidates come exactly its rivals. */
  lemma SortedAfterRivals(all: seq<Accumulator>, s: Settings, a: Accumulator, b: Accumulator)
    requires ProperRecords(all) && s.minObservations == 2
    requires a in Candidates(all, s)
    ensures Precedes(StableSort(Candidates(all, s), MoreRecent), b, a) <==> b in Rivals(all, s, a)
  {
    var candidates := Candidates(all, s);
    var sorted := StableSort(candidates, MoreRecent);
    SortedNoRepeats(all, s);
    SameElements(candidates, MoreRecent);
    MostRecentFirst(candidates);
    WorthwhileIff(b, s);
    hide StableSort, MoreRecent, ShouldRender, Worthwhile, ProperRecords, Ahead;
    assert a in all && (forall x :: x in all ==> x.observations != []) by { ProperHave(all); }
    if Precedes(sorted, b, a) {
      PrecedesOnce(sorted, b, a);
      assert b in sorted;
      AheadIs(all, b, a);
      PrecedesMore(sorted, b, a);
      if MoreRecent(a, b) {
        PrecedesTotal(candidates, a, b);
        if Precedes(candidates, a, b) { SortStable(candidates, MoreRecent, a, b); }
        CandidatesKeepOrder(all, s, b, a);
      }
    }
    if b in Rivals(all, s, a) {
      AheadIs(all, b, a);
      CandidatesKeepOrder(all, s, b, a);
      if MoreRecent(a, b) {
        SortStable(candidates, MoreRecent, b, a);
      } else {
        NotMoreRecent(a, b);
        PrecedesTotal(sorted, a, b);
        if Precedes(sorted, a, b) { PrecedesMore(sorted, a, b); }
      }
    }
  }

  lemma NotMoreRecent(a: Accumulator, b: Accumulator)
    requires !MoreRecent(a, b)
    ensures a != b
  {
  }

  lemma ProperHave(all: seq<Accumulator>)
    requires ProperRecords(all)
    ensures forall x :: x in all ==> x.observations != []
  {
  }

  lemma PrecedesMore(sorted: seq<Accumulator>, a: Accumulator, b: Accumulator)
    requires SortedBy(sorted, MoreRecent) && Precedes(sorted, a, b)
    ensures MoreRecent(a, b)
  {
    hide MoreRecent;
  }

  lemma {:induction false} CandidatesNoRepeats(all: seq<Accumulator>, s: Settings)
    requires NoRepeats(all)
    ensures NoRepeats(Candidates(all, s))
  {
    if all != [] {
      hide ShouldRender;
      CandidatesNoRepeats(all[1..], s);
      var rest := Candidates(all[1..], s);
      forall k | 0 <= k < |rest| ensures rest[k] != all[0] {
        assert rest[k] in rest;
      }
    }
  }

  lemma SortedNoRepeats(all: seq<Accumulator>, s: Settings)
    requires ProperRecords(all)
    ensures NoRepeats(Candidates(all, s)) && NoRepeats(StableSort(Candidates(all, s), MoreRecent))
  {
    var candidates := Candidates(all, s);
    CandidatesNoRepeats(all, s);
    NoRepeatsOnce(candidates);
    var sorted := StableSort(candidates, MoreRecent);
    NoRepeatsOnce(sorted);
    SameElements(candidates, MoreRecent);
  }

  /** A place in a list is as far in as there are elements before it. */
  lemma PlaceIs<T(!new)>(s: seq<T>, a: T, before: set<T>, n: nat)
    requires NoRepeats(s) && a in s && (forall b :: Precedes(s, b, a) <==> b in before)
    ensures a in (if |s| <= n then s else s[..n]) <==> |before| < n || |s| <= n
    ensures |s| <= n ==> |before| < n
  {
    var k :| 0 <= k < |s| && s[k] == a;
    forall b ensures b in s[..k] <==> b in before {
      if b in s[..k] {
        var i :| 0 <= i < k && s[i] == b;
      }
    }
    assert (set b | b in s[..k]) == before;
    CountNoRepeats(s[..k]);
    if n < |s| {
      if k < n { assert s[..n][k] == a; }
    }
  }

  /** The files selected: the worthwhile ones with fewer than six rivals. */
  lemma SelectedIff(all: seq<Accumulator>, s: Settings, a: Accumulator)
    requires ProperRecords(all) && s.minObservations == 2
    ensures a in Selected(all, s) <==> a in all && Worthwhile(a, s) && |Rivals(all, s, a)| < 6
  {
    var candidates := Candidates(all, s);
    var sorted := StableSort(candidates, MoreRecent);
    WorthwhileIff(a, s);
    SelectedAreCandidates(all, s);
    SortedNoRepeats(all, s);
    SameElements(candidates, MoreRecent);
    hide ShouldRender, Worthwhile, ProperRecords, StableSort, MoreRecent, Rivals;
    if a in candidates {
      forall b ensures Precedes(sorted, b, a) <==> b in Rivals(all, s, a) {
        SortedAfterRivals(all, s, a, b);
      }
      PlaceIs(sorted, a, Rivals(all, s, a), 6);
    }
  }

  /** The file has a section to give: it is worthwhile, can be shown and has fewer than six rivals. */
  ghost predicate Showable(all: seq<Accumulator>, s: Settings, view: Accumulator -> string, a: Accumulator) {
    a in all && Worthwhile(a, s) && view(a) != "" && |Rivals(all, s, a)| < 6
  }

  /** The call looked at some worthwhile file, is not protected, and every worthwhile file it looked at is showable. */
  ghost predicate Foldable(all: seq<Accumulator>, s: Settings, protected: set<string>, view: Accumulator -> string,
                           callId: string) {
    && callId !in protected
    && (exists a :: a in all && Worthwhile(a, s) && Observes(a, callId))
    && (forall a :: a in all && Worthwhile(a, s) && Observes(a, callId) ==> Showable(all, s, view, a))
  }

  /** Which calls are folded, exactly. */
  lemma FoldedIff(all: seq<Accumulator>, s: Settings, protected: set<string>, view: Accumulator -> string, callId: string)
    requires ProperRecords(all) && s.minObservations == 2
    ensures IsFolded(all, s, protected, view, callId) <==> Foldable(all, s, protected, view, callId)
  {
    forall a ensures ShouldRender(a, s) <==> Worthwhile(a, s) {
      WorthwhileIff(a, s);
    }
    forall a ensures a in Renderable(Selected(all, s), view) <==> Showable(all, s, view, a) {
      SelectedIff(all, s, a);
    }
    PathsProper(all);
    hide ShouldRender, Worthwhile, Selected, Rivals, Observes, ProperRecords;
    var candidates, shown := Candidates(all, s), Renderable(Selected(all, s), view);
    forall a | a in candidates ensures a.path in Paths(shown) <==> Showable(all, s, view, a) {
      if a.path in Paths(shown) {
        var b :| b in shown && b.path == a.path;
        assert b == a;
      }
    }
  }

  lemma PathsProper(all: seq<Accumulator>)
    requires ProperRecords(all)
    ensures DistinctPaths(all)
  {
  }

  /** Which files the sections are of: the showable ones that a folded call looked at. */
  lemma SectionIff(all: seq<Accumulator>, s: Settings, view: Accumulator -> string, folded: set<string>, a: Accumulator)
    requires ProperRecords(all) && s.minObservations == 2
    ensures a in Mentioning(Renderable(Selected(all, s), view), folded) <==>
      Showable(all, s, view, a) && exists id :: id in folded && Observes(a, id)
  {
    SelectedIff(all, s, a);
    MentionsMeans(a, folded);
    hide Worthwhile, Selected, Rivals, Observes, Mentions, ProperRecords;
  }

  // ----- the records of what was seen

  /** What was observed of the file, in order. */
  function Of(seen: seq<Sighting>, path: string): seq<Observation> {
    if seen == [] then []
    else Of(seen[..|seen| - 1], path) + if seen[|seen| - 1].path == path then [seen[|seen| - 1].observation] else []
  }

  /** The file `p` was seen before `q` ever was. */
  ghost predicate SeenBefore(seen: seq<Sighting>, p: string, q: string) {
    exists i :: 0 <= i < |seen| && seen[i].path == p && Unseen(seen[..i + 1], q)
  }

  predicate Unseen(seen: seq<Sighting>, path: string) {
    forall g :: g in seen ==> g.path != path
  }

  lemma {:induction false} OfNone(seen: seq<Sighting>, path: string)
    ensures Of(seen, path) == [] <==> Unseen(seen, path)
  {
    if seen != [] {
      var front, last := seen[..|seen| - 1], seen[|seen| - 1];
      OfNone(front, path);
      assert seen == front + [last];
    }
  }

  lemma SeenStays(front: seq<Sighting>, last: Sighting, p: string, q: string)
    requires SeenBefore(front, p, q)
    ensures SeenBefore(front + [last], p, q)
  {
    hide Unseen;
    var seen := front + [last];
    var i :| 0 <= i < |front| && front[i].path == p && Unseen(front[..i + 1], q);
    assert seen[i].path == p && seen[..i + 1] == front[..i + 1];
  }

  /** Each record has what was observed of a readable file, and the file seen first comes first. */
  ghost predicate RecordsInOrder(all: seq<Accumulator>, seen: seq<Sighting>, readable: string -> bool) {
    && (forall i :: 0 <= i < |all| ==> RecordIs(all[i], seen, readable))
    && (forall p :: readable(p) && Of(seen, p) != [] ==> HasRecord(all, p))
    && (forall i, j :: 0 <= i < j < |all| ==> all[i].path != all[j].path && SeenBefore(seen, all[i].path, all[j].path))
  }

  predicate RecordIs(a: Accumulator, seen: seq<Sighting>, readable: string -> bool) {
    readable(a.path) && a.observations == Of(seen, a.path) != []
  }

  ghost predicate HasRecord(all: seq<Accumulator>, path: string) {
    exists i :: 0 <= i < |all| && all[i].path == path
  }

  lemma {:induction false} AccumulatedInOrder(seen: seq<Sighting>, readable: string -> bool)
    ensures RecordsInOrder(Accumulated(seen, readable), seen, readable)
  {
    if seen != [] {
      var front, last := seen[..|seen| - 1], seen[|seen| - 1];
      AccumulatedInOrder(front, readable);
      assert seen == front + [last];
      hide RecordsInOrder, Recorded;
      if readable(last.path) {
        RecordsStayInOrder(Accumulated(front, readable), front, last, readable);
      } else {
        NotRecorded(Accumulated(front, readable), front, last, readable);
      }
    }
  }

  lemma OfMore(front: seq<Sighting>, last: Sighting, path: string)
    ensures Of(front + [last], path) == Of(front, path) + if last.path == path then [last.observation] else []
  {
    assert (front + [last])[..|front|] == front;
  }

  lemma NotRecorded(all: seq<Accumulator>, front: seq<Sighting>, last: Sighting, readable: string -> bool)
    requires RecordsInOrder(all, front, readable) && !readable(last.path)
    ensures RecordsInOrder(all, front + [last], readable)
  {
    hide Of, SeenBefore;
    forall p ensures Of(front + [last], p) == Of(front, p) + if last.path == p then [last.observation] else [] {
      OfMore(front, last, p);
    }
    forall i, j | 0 <= i < j < |all| ensures SeenBefore(front + [last], all[i].path, all[j].path) {
      SeenStays(front, last, all[i].path, all[j].path);
    }
  }

  lemma RecordsStayInOrder(all: seq<Accumulator>, front: seq<Sighting>, last: Sighting, readable: string -> bool)
    requires RecordsInOrder(all, front, readable) && readable(last.path)
    ensures RecordsInOrder(Recorded(all, last), front + [last], readable)
  {
    var i, more := RecordOf(all, last.path), Recorded(all, last);
    assert |more| == if i < |all| then |all| else |all| + 1;
    assert more[i].path == last.path;
    assert more[i].observations == (if i < |all| then all[i].observations else []) + [last.observation];
    assert forall k :: 0 <= k < |all| && k != i ==> more[k] == all[k];
    assert i == |all| ==> forall k :: 0 <= k < |all| ==> all[k].path != last.path;
    hide Recorded, RecordOf;
    RecordsStay(all, more, i, front, last, readable);
    PathsStay(all, more, i, front, last, readable);
    OrderStays(all, more, i, front, last, readable);
  }

  /** `more` is `all` with the sighting recorded at position i. */
  ghost predicate IsRecorded(all: seq<Accumulator>, more: seq<Accumulator>, i: nat, last: Sighting) {
    && i <= |all| && |more| == (if i < |all| then |all| else |all| + 1)
    && more[i].path == last.path
    && (i < |all| ==> all[i].path == last.path)
    && more[i].observations == (if i < |all| then all[i].observations else []) + [last.observation]
    && (forall k :: 0 <= k < |all| && k != i ==> more[k] == all[k] && all[k].path != last.path)
  }

  lemma RecordsStay(all: seq<Accumulator>, more: seq<Accumulator>, i: nat, front: seq<Sighting>, last: Sighting,
                    readable: string -> bool)
    requires RecordsInOrder(all, front, readable) && readable(last.path) && IsRecorded(all, more, i, last)
    ensures forall k :: 0 <= k < |more| ==> RecordIs(more[k], front + [last], readable)
  {
    hide Of, SeenBefore;
    forall k | 0 <= k < |more| ensures RecordIs(more[k], front + [last], readable) {
      OfMore(front, last, more[k].path);
      if i == k == |all| {
        assert !HasRecord(all, last.path);
      } else {
        assert RecordIs(all[k], front, readable);
      }
    }
  }

  lemma PathsStay(all: seq<Accumulator>, more: seq<Accumulator>, i: nat, front: seq<Sighting>, last: Sighting,
                  readable: string -> bool)
    requires RecordsInOrder(all, front, readable) && IsRecorded(all, more, i, last)
    ensures forall p :: readable(p) && Of(front + [last], p) != [] ==> HasRecord(more, p)
  {
    hide Of, SeenBefore, RecordIs;
    forall p | readable(p) && Of(front + [last], p) != [] ensures HasRecord(more, p) {
      OfMore(front, last, p);
      if p == last.path {
        assert more[i].path == p;
      } else {
        assert HasRecord(all, p);
        var k :| 0 <= k < |all| && all[k].path == p;
        assert more[k].path == p;
      }
    }
  }

  lemma OrderStays(all: seq<Accumulator>, more: seq<Accumulator>, i: nat, front: seq<Sighting>, last: Sighting,
                   readable: string -> bool)
    requires RecordsInOrder(all, front, readable) && readable(last.path) && IsRecorded(all, more, i, last)
    ensures forall j, k :: 0 <= j < k < |more| ==>
      more[j].path != more[k].path && SeenBefore(front + [last], more[j].path, more[k].path)
  {
    hide Of, SeenBefore;
    forall j, k | 0 <= j < k < |more|
      ensures more[j].path != more[k].path && SeenBefore(front + [last], more[j].path, more[k].path)
    {
      if k < |all| {
        assert more[j].path == all[j].path && more[k].path == all[k].path;
      } else {
        assert RecordIs(all[j], front, readable) && !HasRecord(all, last.path);
        SeenThenNew(front, all[j].path, last.path);
      }
      SeenStays(front, last, more[j].path, more[k].path);
    }
  }

  lemma SeenThenNew(front: seq<Sighting>, p: string, q: string)
    requires Of(front, p) != [] && Of(front, q) == []
    ensures SeenBefore(front, p, q)
  {
    OfNone(front, p);
    OfNone(front, q);
    var g :| g in front && g.path == p;
    var i :| 0 <= i < |front| && front[i] == g;
    assert Unseen(front[..i + 1], q);
  }

  /** So for every history, what it observed of the files readable now decides which calls are folded. */
  lemma HistoryFoldedIff(seen: seq<Sighting>, readable: string -> bool, s: Settings, protected: set<string>,
                         view: Accumulator -> string, callId: string)
    requires s.minObservations == 2
    ensures IsFolded(Accumulated(seen, readable), s, protected, view, callId) <==>
      Foldable(Accumulated(seen, readable), s, protected, view, callId)
  {
    AccumulatedRecords(seen, readable);
    hide Accumulated, IsFolded, Foldable;
    FoldedIff(Accumulated(seen, readable), s, protected, view, callId);
  }
}
