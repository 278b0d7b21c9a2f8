// The planner of file observation replacements: three passes over one dictionary.
module ObservationPlanner {
  import opened Observations
  import opened Optional

  /** `LiveWorkspaceFileSnapshot`: the first content seen for a path is the content for good. */
  class LiveWorkspaceFileSnapshot {
    var contentByPath: map<Path, Live>

    constructor ()
      ensures contentByPath == map[]
    {
      contentByPath := map[];
    }

    /** `content_for`, where `disk` is what a read of each path would find right now. */
    method ContentFor(path: Path, disk: Path -> Live) returns (content: Live)
      modifies this
      ensures path in contentByPath && content == contentByPath[path]
      ensures content == if path in old(contentByPath) then old(contentByPath)[path] else disk(path)
      ensures contentByPath.Keys == old(contentByPath).Keys + {path}
      ensures forall p :: p in old(contentByPath) ==> contentByPath[p] == old(contentByPath)[p]
    {
      if path !in contentByPath {
        contentByPath := contentByPath[path := disk(path)];
      }
      content := contentByPath[path];
    }
  }

  // ----- visible calls

  /** A stored tool call; a detail-collapsed one is not visible. */
  datatype StoredCall = StoredCall(call: Call, detailCollapsed: bool)

  /** A history node: an assistant turn, or anything else. */
  datatype Node = Turn(collapsed: bool, calls: seq<StoredCall>) | NotATurn

  function VisibleInTurn(calls: seq<StoredCall>): seq<Call> {
    if calls == [] then []
    else (if calls[0].detailCollapsed then [] else [calls[0].call]) + VisibleInTurn(calls[1..])
  }

  /** `_visible_tool_nodes` */
  function VisibleCalls(nodes: seq<Node>): seq<Call> {
    if nodes == [] then []
    else
      (if nodes[0].Turn? && !nodes[0].collapsed then VisibleInTurn(nodes[0].calls) else [])
      + VisibleCalls(nodes[1..])
  }

  // ----- the plan as a dictionary

  /** The plan holds exactly the decisions of the calls at the positions in `decided`. */
  ghost predicate PlanOf(plan: map<string, Replacement>, w: World, policy: Policy, calls: seq<Call>, decided: set<nat>) {
    && (forall i :: i in decided ==> i < |calls| && Decision(w, policy, calls, i).Some?)
    && (forall i :: 0 <= i < |calls| ==> (calls[i].id in plan <==> i in decided))
    && (forall i :: i in decided ==>
          i < |calls| && calls[i].id in plan && plan[calls[i].id] == Decision(w, policy, calls, i).value)
  }

  lemma Decide(plan: map<string, Replacement>, w: World, policy: Policy, calls: seq<Call>, decided: set<nat>, i: nat)
    requires PlanOf(plan, w, policy, calls, decided) && UniqueIds(calls)
    requires i < |calls| && Decision(w, policy, calls, i).Some?
    ensures PlanOf(plan[calls[i].id := Decision(w, policy, calls, i).value], w, policy, calls, decided + {i})
  {
    var next := plan[calls[i].id := Decision(w, policy, calls, i).value];
    hide Decision;
    forall k | 0 <= k < |calls|
      ensures calls[k].id in next <==> k in decided + {i}
      ensures k in decided ==> next[calls[k].id] == Decision(w, policy, calls, k).value
    {
      assert k != i ==> calls[k].id != calls[i].id;
    }
  }

  /** The paths of the reads, in the order they are first observed. */
  method ReadPaths(w: World, calls: seq<Call>) returns (paths: seq<Path>)
    ensures forall i :: 0 <= i < |calls| && IsRead(w, calls[i]) ==> PathOf(w, calls, i) in paths
  {
    paths := [];
    for i := 0 to |calls|
      invariant forall k :: 0 <= k < i && IsRead(w, calls[k]) ==> PathOf(w, calls, k) in paths
    {
      if IsRead(w, calls[i]) && PathOf(w, calls, i) !in paths {
        paths := paths + [PathOf(w, calls, i)];
      }
    }
  }

  // ----- the first pass: reads

  /** The positions of all current reads of the path, ascending. */
  ghost predicate CurrentList(w: World, calls: seq<Call>, path: Path, current: seq<nat>, upTo: int) {
    && (forall a :: 0 <= a < |current| ==> current[a] < |calls| && IsCurrentRead(w, calls[current[a]], path))
    && (forall a :: 0 <= a < |current| ==> current[a] < upTo)
    && (forall a, b :: 0 <= a < b < |current| ==> current[a] < current[b])
    && (forall i :: 0 <= i < |calls| && i < upTo && IsCurrentRead(w, calls[i], path) ==> i in current)
  }

  /** The search for a newer read with all the lines, and what it finds. */
  method NewerCover(w: World, calls: seq<Call>, path: Path, current: seq<nat>, a: nat) returns (b: nat)
    requires a < |current| && CurrentList(w, calls, path, current, |calls|)
    ensures b <= |current|
    ensures var cover := FirstCover(w, calls, current[a] + 1, path, w.readLines(calls[current[a]].content));
      if b < |current| then cover == current[b] else cover == |calls|
  {
    var lines := w.readLines(calls[current[a]].content);
    b := a + 1;
    while b < |current|
      invariant a < b <= |current|
      invariant forall c :: a < c < b ==> !CoveringRead(w, calls[current[c]], path, lines)
    {
      if Includes(w.readLines(calls[current[b]].content), lines) {
        break;
      }
      b := b + 1;
    }
    CoverInList(w, calls, path, current, a, b);
  }

  lemma CoverInList(w: World, calls: seq<Call>, path: Path, current: seq<nat>, a: nat, b: nat)
    requires a < b <= |current| && CurrentList(w, calls, path, current, |calls|)
    requires forall c :: a < c < b ==> !CoveringRead(w, calls[current[c]], path, w.readLines(calls[current[a]].content))
    requires b < |current| ==> CoveringRead(w, calls[current[b]], path, w.readLines(calls[current[a]].content))
    ensures var cover := FirstCover(w, calls, current[a] + 1, path, w.readLines(calls[current[a]].content));
      if b < |current| then cover == current[b] else cover == |calls|
  {
    var lines := w.readLines(calls[current[a]].content);
    var cover := FirstCover(w, calls, current[a] + 1, path, lines);
    assert b < |current| ==> current[a] < current[b];
    if cover < |calls| {
      assert cover in current;
      var c :| 0 <= c < |current| && current[c] == cover;
      assert a < c;
      assert b <= c;
    }
  }

  function PathOf(w: World, calls: seq<Call>, i: nat): Path
    requires i < |calls| && IsRead(w, calls[i])
  {
    w.readPath(calls[i].arguments).value
  }

  predicate IsStaleRead(w: World, c: Call, path: Path) {
    && IsRead(w, c) && w.readPath(c.arguments).value == path
    && ObservationState(w.live(path), w.readLines(c.content)) == Stale
  }

  /** The stale reads of the path below `upTo` are in the plan. */
  ghost predicate StaleDone(w: World, calls: seq<Call>, path: Path, upTo: int, decided: set<nat>) {
    forall i :: 0 <= i < |calls| && i < upTo && IsStaleRead(w, calls[i], path) ==> i in decided
  }

  ghost predicate OnlyReads(w: World, calls: seq<Call>, decided: set<nat>) {
    forall i :: i in decided ==> i < |calls| && IsRead(w, calls[i])
  }

  lemma NothingSorted(w: World, calls: seq<Call>, path: Path, decided: set<nat>)
    ensures CurrentList(w, calls, path, [], 0) && StaleDone(w, calls, path, 0, decided)
  {
  }

  /** One call of the loop below. */
  lemma SortOne(w: World, policy: Policy, calls: seq<Call>, path: Path, plan: map<string, Replacement>, current: seq<nat>,
                decided: set<nat>, i: nat)
    requires i < |calls|
    requires UniqueIds(calls) ==> PlanOf(plan, w, policy, calls, decided) && OnlyReads(w, calls, decided)
    requires CurrentList(w, calls, path, current, i) && StaleDone(w, calls, path, i, decided)
    ensures IsStaleRead(w, calls[i], path) ==>
      && StaleDone(w, calls, path, i + 1, decided + {i})
      && (UniqueIds(calls) ==>
            && PlanOf(plan[calls[i].id := StaleObservation(calls[i].id)], w, policy, calls, decided + {i})
            && OnlyReads(w, calls, decided + {i}))
    ensures !IsStaleRead(w, calls[i], path) ==> StaleDone(w, calls, path, i + 1, decided)
    ensures IsStaleRead(w, calls[i], path) || !IsCurrentRead(w, calls[i], path) ==> CurrentList(w, calls, path, current, i + 1)
    ensures IsCurrentRead(w, calls[i], path) ==> CurrentList(w, calls, path, current + [i], i + 1)
  {
    if UniqueIds(calls) && IsStaleRead(w, calls[i], path) {
      Decide(plan, w, policy, calls, decided, i);
    }
    hide PlanOf, UniqueIds, Decision;
    CurrentNext(w, calls, path, current, i);
    hide CurrentList;
  }

  lemma CurrentNext(w: World, calls: seq<Call>, path: Path, current: seq<nat>, i: nat)
    requires i < |calls| && CurrentList(w, calls, path, current, i)
    ensures !IsCurrentRead(w, calls[i], path) ==> CurrentList(w, calls, path, current, i + 1)
    ensures IsCurrentRead(w, calls[i], path) ==> CurrentList(w, calls, path, current + [i], i + 1)
    ensures IsStaleRead(w, calls[i], path) ==> !IsCurrentRead(w, calls[i], path)
  {
    assert !IsStaleRead(w, calls[i], path) || !IsCurrentRead(w, calls[i], path);
    hide IsCurrentRead, IsStaleRead;
    assert forall x :: x in current ==> x in current + [i];
    assert i in current + [i];
  }

  /** The loop over the reads of a path: stale ones are planned, current ones collected. */
  method SortReads(w: World, policy: Policy, calls: seq<Call>, path: Path, plan0: map<string, Replacement>,
                   ghost decided0: set<nat>)
    returns (plan: map<string, Replacement>, current: seq<nat>, ghost decided: set<nat>)
    requires UniqueIds(calls) ==> PlanOf(plan0, w, policy, calls, decided0) && OnlyReads(w, calls, decided0)
    ensures UniqueIds(calls) ==> PlanOf(plan, w, policy, calls, decided) && OnlyReads(w, calls, decided)
    ensures CurrentList(w, calls, path, current, |calls|)
    ensures decided0 <= decided && StaleDone(w, calls, path, |calls|, decided)
  {
    plan, current, decided := plan0, [], decided0;
    NothingSorted(w, calls, path, decided);
    hide *;
    for i := 0 to |calls|
      invariant UniqueIds(calls) ==> PlanOf(plan, w, policy, calls, decided) && OnlyReads(w, calls, decided)
      invariant CurrentList(w, calls, path, current, i)
      invariant decided0 <= decided && StaleDone(w, calls, path, i, decided)
    {
      SortOne(w, policy, calls, path, plan, current, decided, i);
      if IsStaleRead(w, calls[i], path) {
        plan := plan[calls[i].id := StaleObservation(calls[i].id)];
        decided := decided + {i};
      } else if IsCurrentRead(w, calls[i], path) {
        current := current + [i];
      }
    }
  }

  predicate DecidedRead(w: World, policy: Policy, calls: seq<Call>, i: nat, path: Path)
    requires i < |calls|
  {
    IsRead(w, calls[i]) && PathOf(w, calls, i) == path && Decision(w, policy, calls, i).Some?
  }

  /** Every read of the path that has a decision is in the plan. */
  ghost predicate PathDone(w: World, policy: Policy, calls: seq<Call>, path: Path, decided: set<nat>) {
    forall i :: 0 <= i < |calls| && DecidedRead(w, policy, calls, i, path) ==> i in decided
  }

  predicate HasNewerCover(w: World, calls: seq<Call>, path: Path, i: nat) {
    i < |calls| && FirstCover(w, calls, i + 1, path, w.readLines(calls[i].content)) < |calls|
  }

  /** The current reads before position `a` of the list that have a newer cover are in the plan. */
  ghost predicate CoveredDone(w: World, calls: seq<Call>, path: Path, current: seq<nat>, a: int, decided: set<nat>) {
    forall k :: 0 <= k < a && k < |current| && HasNewerCover(w, calls, path, current[k]) ==> current[k] in decided
  }

  /** The first pass for one path. */
  method PlanPath(w: World, policy: Policy, calls: seq<Call>, path: Path, plan0: map<string, Replacement>,
                  ghost decided0: set<nat>)
    returns (plan: map<string, Replacement>, ghost decided: set<nat>)
    requires UniqueIds(calls) ==> PlanOf(plan0, w, policy, calls, decided0) && OnlyReads(w, calls, decided0)
    ensures UniqueIds(calls) ==> PlanOf(plan, w, policy, calls, decided) && OnlyReads(w, calls, decided)
    ensures decided0 <= decided && PathDone(w, policy, calls, path, decided)
  {
    hide *;
    var current;
    plan, current, decided := SortReads(w, policy, calls, path, plan0, decided0);
    CoveredStart(w, calls, path, current, decided);
    for a := 0 to |current|
      invariant UniqueIds(calls) ==> PlanOf(plan, w, policy, calls, decided) && OnlyReads(w, calls, decided)
      invariant decided0 <= decided && StaleDone(w, calls, path, |calls|, decided)
      invariant CoveredDone(w, calls, path, current, a, decided)
    {
      CurrentAt(w, calls, path, current, a);
      var i := current[a];
      var b := NewerCover(w, calls, path, current, a);
      if b < |current| {
        CurrentAt(w, calls, path, current, b);
        var r := RedundantObservation(calls[i].id, calls[current[b]].id);
        CoverDecides(w, policy, calls, path, i, current[b]);
        if UniqueIds(calls) {
          Decide(plan, w, policy, calls, decided, i);
          MoreReads(w, calls, decided, i);
        }
        MoreDecided(w, calls, path, current, a, decided, i);
        plan := plan[calls[i].id := r];
        decided := decided + {i};
      } else {
        NotCovered(w, calls, path, current, a, decided);
      }
    }
    AllDone(w, policy, calls, path, current, decided);
  }

  lemma CoveredStart(w: World, calls: seq<Call>, path: Path, current: seq<nat>, decided: set<nat>)
    ensures CoveredDone(w, calls, path, current, 0, decided)
  {
  }

  lemma CurrentAt(w: World, calls: seq<Call>, path: Path, current: seq<nat>, a: nat)
    requires CurrentList(w, calls, path, current, |calls|) && a < |current|
    ensures current[a] < |calls| && IsCurrentRead(w, calls[current[a]], path)
    ensures IsRead(w, calls[current[a]])
  {
  }

  lemma CoverDecides(w: World, policy: Policy, calls: seq<Call>, path: Path, i: nat, j: nat)
    requires i < |calls| && j < |calls| && IsCurrentRead(w, calls[i], path)
    requires FirstCover(w, calls, i + 1, path, w.readLines(calls[i].content)) == j
    ensures Decision(w, policy, calls, i) == Some(RedundantObservation(calls[i].id, calls[j].id))
  {
  }

  lemma MoreReads(w: World, calls: seq<Call>, decided: set<nat>, i: nat)
    requires OnlyReads(w, calls, decided) && i < |calls| && IsRead(w, calls[i])
    ensures OnlyReads(w, calls, decided + {i})
  {
  }

  lemma MoreDecided(w: World, calls: seq<Call>, path: Path, current: seq<nat>, a: nat, decided: set<nat>, i: nat)
    requires a < |current| && current[a] == i
    requires StaleDone(w, calls, path, |calls|, decided) && CoveredDone(w, calls, path, current, a, decided)
    ensures StaleDone(w, calls, path, |calls|, decided + {i})
    ensures CoveredDone(w, calls, path, current, a + 1, decided + {i})
  {
  }

  lemma NotCovered(w: World, calls: seq<Call>, path: Path, current: seq<nat>, a: nat, decided: set<nat>)
    requires a < |current| && CoveredDone(w, calls, path, current, a, decided)
    requires current[a] < |calls|
    requires FirstCover(w, calls, current[a] + 1, path, w.readLines(calls[current[a]].content)) == |calls|
    ensures CoveredDone(w, calls, path, current, a + 1, decided)
  {
  }

  lemma AllDone(w: World, policy: Policy, calls: seq<Call>, path: Path, current: seq<nat>, decided: set<nat>)
    requires CurrentList(w, calls, path, current, |calls|)
    requires StaleDone(w, calls, path, |calls|, decided)
    requires CoveredDone(w, calls, path, current, |current|, decided)
    ensures PathDone(w, policy, calls, path, decided)
  {
    forall i | 0 <= i < |calls| && DecidedRead(w, policy, calls, i, path) ensures i in decided {
      if IsCurrentRead(w, calls[i], path) {
        assert i in current;
        var a :| 0 <= a < |current| && current[a] == i;
      }
    }
  }

  /** The first pass. */
  method PlanReads(w: World, policy: Policy, calls: seq<Call>)
    returns (plan: map<string, Replacement>, ghost decided: set<nat>)
    ensures UniqueIds(calls) ==> PlanOf(plan, w, policy, calls, decided) && OnlyReads(w, calls, decided)
    ensures forall i :: 0 <= i < |calls| && IsRead(w, calls[i]) && Decision(w, policy, calls, i).Some? ==> i in decided
  {
    var paths := ReadPaths(w, calls);
    plan, decided := map[], {};
    for k := 0 to |paths|
      invariant UniqueIds(calls) ==> PlanOf(plan, w, policy, calls, decided) && OnlyReads(w, calls, decided)
      invariant forall j :: 0 <= j < k ==> PathDone(w, policy, calls, paths[j], decided)
    {
      plan, decided := PlanPath(w, policy, calls, paths[k], plan, decided);
    }
    forall i | 0 <= i < |calls| && IsRead(w, calls[i]) && Decision(w, policy, calls, i).Some? ensures i in decided {
      assert PathOf(w, calls, i) in paths;
    }
  }

  // ----- the second pass: searches subsumed by a read

  /** The newest-first search for a read that holds all the search's lines. */
  method NewestCover(w: World, calls: seq<Call>, i: nat) returns (j: nat)
    requires i < |calls|
    ensures j == SubsumingRead(w, calls, i)
  {
    j := i;
    if !SingleCompleteSearch(w, calls[i]) {
      return;
    }
    var hit := w.searchHits(calls[i].content)[0];
    var k := |calls|;
    while k > i + 1
      invariant i < k <= |calls|
      invariant LastCover(w, calls, i, k, hit.path, hit.lines) == LastCover(w, calls, i, |calls|, hit.path, hit.lines)
    {
      k := k - 1;
      if CoveringRead(w, calls[k], hit.path, hit.lines) {
        return k;
      }
    }
  }

  predicate IsSubsumed(w: World, calls: seq<Call>, i: nat)
    requires i < |calls|
  {
    IsSearch(calls[i]) && SubsumingRead(w, calls, i) > i
  }

  ghost predicate SearchesDone(w: World, policy: Policy, calls: seq<Call>, upTo: int, decided: set<nat>) {
    policy == CompleteCurrentRead ==>
      forall i :: 0 <= i < |calls| && i < upTo && IsSubsumed(w, calls, i) ==> i in decided
  }

  /** What the second pass may have decided: reads, and searches subsumed by a read. */
  ghost predicate ReadsAndSubsumed(w: World, policy: Policy, calls: seq<Call>, decided: set<nat>) {
    forall i :: i in decided ==>
      i < |calls| && (IsRead(w, calls[i]) || (policy == CompleteCurrentRead && IsSubsumed(w, calls, i)))
  }

  /** The state of the second pass before call i, ids being unique. */
  ghost predicate Subsuming(plan: map<string, Replacement>, w: World, policy: Policy, calls: seq<Call>, i: int, decided: set<nat>) {
    UniqueIds(calls) ==>
      PlanOf(plan, w, policy, calls, decided) && ReadsAndSubsumed(w, policy, calls, decided)
      && SearchesDone(w, policy, calls, i, decided)
  }

  lemma SubsumeOne(plan: map<string, Replacement>, w: World, policy: Policy, calls: seq<Call>, i: nat, decided: set<nat>)
    requires i < |calls| && policy == CompleteCurrentRead && Subsuming(plan, w, policy, calls, i, decided)
    ensures !IsSubsumed(w, calls, i) || calls[i].id in plan ==> Subsuming(plan, w, policy, calls, i + 1, decided)
    ensures IsSubsumed(w, calls, i) ==> SubsumingRead(w, calls, i) < |calls|
    ensures IsSubsumed(w, calls, i) && calls[i].id !in plan ==>
      var r := RedundantObservation(calls[i].id, calls[SubsumingRead(w, calls, i)].id);
      Subsuming(plan[calls[i].id := r], w, policy, calls, i + 1, decided + {i})
  {
    if UniqueIds(calls) && IsSubsumed(w, calls, i) {
      Decide(plan, w, policy, calls, decided, i);
    }
    hide UniqueIds, Decision;
  }

  method PlanSubsumedSearches(w: World, policy: Policy, calls: seq<Call>, plan0: map<string, Replacement>,
                              ghost decided0: set<nat>)
    returns (plan: map<string, Replacement>, ghost decided: set<nat>)
    requires UniqueIds(calls) ==> PlanOf(plan0, w, policy, calls, decided0) && OnlyReads(w, calls, decided0)
    ensures UniqueIds(calls) ==>
      PlanOf(plan, w, policy, calls, decided) && ReadsAndSubsumed(w, policy, calls, decided)
      && SearchesDone(w, policy, calls, |calls|, decided)
    ensures decided0 <= decided
  {
    plan, decided := plan0, decided0;
    assert Subsuming(plan, w, policy, calls, 0, decided);
    if policy != CompleteCurrentRead {
      return;
    }
    hide PlanOf, ReadsAndSubsumed, SearchesDone, Decision, UniqueIds, Subsuming;
    for i := 0 to |calls|
      invariant Subsuming(plan, w, policy, calls, i, decided) && decided0 <= decided
    {
      SubsumeOne(plan, w, policy, calls, i, decided);
      if IsSearch(calls[i]) {
        var j := NewestCover(w, calls, i);
        if j > i && calls[i].id !in plan {
          plan := plan[calls[i].id := RedundantObservation(calls[i].id, calls[j].id)];
          decided := decided + {i};
        }
      }
    }
    SubsumingEnds(plan, w, policy, calls, decided);
  }

  lemma SubsumingEnds(plan: map<string, Replacement>, w: World, policy: Policy, calls: seq<Call>, decided: set<nat>)
    requires Subsuming(plan, w, policy, calls, |calls|, decided)
    ensures UniqueIds(calls) ==>
      PlanOf(plan, w, policy, calls, decided) && ReadsAndSubsumed(w, policy, calls, decided)
      && SearchesDone(w, policy, calls, |calls|, decided)
  {
  }

  // ----- the third pass: exact duplicates

  /** The dictionary of the scan from the newest call down to position i. */
  ghost predicate LatestFrom(latest: map<(string, string), nat>, w: World, calls: seq<Call>, i: int) {
    && (forall s :: s in latest ==>
          i <= latest[s] < |calls| && IsSearch(calls[latest[s]]) && s == Signature(w, calls[latest[s]]))
    && (forall k :: i <= k < |calls| && 0 <= k && IsSearch(calls[k]) ==>
          Signature(w, calls[k]) in latest && k <= latest[Signature(w, calls[k])])
  }

  lemma ScanOne(latest: map<(string, string), nat>, w: World, calls: seq<Call>, i: nat)
    requires i < |calls| && LatestFrom(latest, w, calls, i + 1)
    ensures !IsSearch(calls[i]) ==> LatestFrom(latest, w, calls, i) && LastSame(w, calls, i, |calls|) == i
    ensures IsSearch(calls[i]) && Signature(w, calls[i]) in latest ==>
      LatestFrom(latest, w, calls, i) && LastSame(w, calls, i, |calls|) == latest[Signature(w, calls[i])]
    ensures IsSearch(calls[i]) && Signature(w, calls[i]) !in latest ==>
      LatestFrom(latest[Signature(w, calls[i]) := i], w, calls, i) && LastSame(w, calls, i, |calls|) == i
  {
    var j := LastSame(w, calls, i, |calls|);
    assert j > i ==> Signature(w, calls[j]) == Signature(w, calls[i]);
    if IsSearch(calls[i]) && Signature(w, calls[i]) in latest {
      var k := latest[Signature(w, calls[i])];
      assert SameSearch(w, calls[i], calls[k]);
    }
  }

  /** `_exact_duplicate_search_pairs`: for each search, the newest one with the same signature. */
  method NewestDuplicates(w: World, calls: seq<Call>) returns (newest: seq<nat>)
    ensures |newest| == |calls|
    ensures forall i :: 0 <= i < |calls| ==> newest[i] == LastSame(w, calls, i, |calls|)
  {
    newest := [];
    var latestBySignature: map<(string, string), nat> := map[];
    assert LatestFrom(latestBySignature, w, calls, |calls|);
    hide *;
    for i := |calls| downto 0
      invariant |newest| == |calls| - i
      invariant forall k :: i <= k < |calls| ==> newest[k - i] == LastSame(w, calls, k, |calls|)
      invariant LatestFrom(latestBySignature, w, calls, i)
    {
      var n := i;
      ScanOne(latestBySignature, w, calls, i);
      if IsSearch(calls[i]) {
        var signature := Signature(w, calls[i]);
        if signature in latestBySignature {
          n := latestBySignature[signature];
        } else {
          latestBySignature := latestBySignature[signature := i];
        }
      }
      newest := [n] + newest;
    }
  }

  function Signature(w: World, c: Call): (string, string) {
    (w.canonical(c.arguments), c.content)
  }

  /** All decided calls with a decision. */
  ghost predicate DecidedBelow(w: World, policy: Policy, calls: seq<Call>, upTo: int, decided: set<nat>) {
    forall i :: 0 <= i < |calls| && i < upTo && Decision(w, policy, calls, i).Some? ==> i in decided
  }

  method PlanDuplicates(w: World, policy: Policy, calls: seq<Call>, plan0: map<string, Replacement>,
                        ghost decided0: set<nat>)
    returns (plan: map<string, Replacement>, ghost decided: set<nat>)
    requires UniqueIds(calls) ==>
      PlanOf(plan0, w, policy, calls, decided0) && ReadsAndSubsumed(w, policy, calls, decided0)
      && SearchesDone(w, policy, calls, |calls|, decided0)
    requires forall i :: 0 <= i < |calls| && IsRead(w, calls[i]) && Decision(w, policy, calls, i).Some? ==> i in decided0
    ensures UniqueIds(calls) ==> CompletePlan(plan, w, policy, calls, decided)
  {
    plan, decided := plan0, decided0;
    var newest := NewestDuplicates(w, calls);
    assert Deduplicating(plan, w, policy, calls, 0, decided0, decided);
    hide *;
    for i := 0 to |calls|
      invariant Deduplicating(plan, w, policy, calls, i, decided0, decided)
    {
      DeduplicateOne(plan, w, policy, calls, i, decided0, decided);
      if newest[i] > i && calls[i].id !in plan {
        plan := plan[calls[i].id := RedundantObservation(calls[i].id, calls[newest[i]].id)];
        decided := decided + {i};
      }
    }
    DeduplicatingEnds(plan, w, policy, calls, decided0, decided);
  }

  /** The state of the third pass before call i, ids being unique. */
  ghost predicate Deduplicating(plan: map<string, Replacement>, w: World, policy: Policy, calls: seq<Call>, i: int,
                                decided0: set<nat>, decided: set<nat>) {
    && decided0 <= decided && (forall k :: k in decided && k !in decided0 ==> k < i)
    && (UniqueIds(calls) ==>
          PlanOf(plan, w, policy, calls, decided) && DecidedBelow(w, policy, calls, i, decided))
  }

  lemma DeduplicateOne(plan: map<string, Replacement>, w: World, policy: Policy, calls: seq<Call>, i: nat,
                       decided0: set<nat>, decided: set<nat>)
    requires i < |calls| && Deduplicating(plan, w, policy, calls, i, decided0, decided)
    requires UniqueIds(calls) ==>
      ReadsAndSubsumed(w, policy, calls, decided0) && SearchesDone(w, policy, calls, |calls|, decided0)
    requires forall k :: 0 <= k < |calls| && IsRead(w, calls[k]) && Decision(w, policy, calls, k).Some? ==> k in decided0
    ensures var n := LastSame(w, calls, i, |calls|);
      if n > i && calls[i].id !in plan then
        n < |calls| &&
        Deduplicating(plan[calls[i].id := RedundantObservation(calls[i].id, calls[n].id)], w, policy, calls, i + 1,
                      decided0, decided + {i})
      else Deduplicating(plan, w, policy, calls, i + 1, decided0, decided)
  {
    if UniqueIds(calls) && LastSame(w, calls, i, |calls|) > i && calls[i].id !in plan {
      Decide(plan, w, policy, calls, decided, i);
    }
  }

  lemma DeduplicatingEnds(plan: map<string, Replacement>, w: World, policy: Policy, calls: seq<Call>,
                          decided0: set<nat>, decided: set<nat>)
    requires Deduplicating(plan, w, policy, calls, |calls|, decided0, decided)
    ensures UniqueIds(calls) ==> CompletePlan(plan, w, policy, calls, decided)
  {
    hide Decision;
  }

  // ----- the planner

  ghost predicate CompletePlan(plan: map<string, Replacement>, w: World, policy: Policy, calls: seq<Call>, decided: set<nat>) {
    && UniqueIds(calls)
    && PlanOf(plan, w, policy, calls, decided) && DecidedBelow(w, policy, calls, |calls|, decided)
  }

  lemma PlannedNext(plan: map<string, Replacement>, w: World, policy: Policy, calls: seq<Call>, decided: set<nat>, i: nat)
    requires CompletePlan(plan, w, policy, calls, decided) && i < |calls|
    ensures Planned(w, policy, calls, i + 1) ==
      Planned(w, policy, calls, i) + if calls[i].id in plan then [plan[calls[i].id]] else []
  {
    hide Decision;
  }

  /** The plan's replacements in call order. */
  method InCallOrder(w: World, policy: Policy, calls: seq<Call>, plan: map<string, Replacement>, ghost decided: set<nat>)
    returns (r: seq<Replacement>)
    ensures CompletePlan(plan, w, policy, calls, decided) ==> r == Planned(w, policy, calls, |calls|)
  {
    r := [];
    assert Planned(w, policy, calls, 0) == [];
    hide *;
    for i := 0 to |calls|
      invariant CompletePlan(plan, w, policy, calls, decided) ==> r == Planned(w, policy, calls, i)
    {
      if CompletePlan(plan, w, policy, calls, decided) {
        PlannedNext(plan, w, policy, calls, decided, i);
      }
      if calls[i].id in plan {
        r := r + [plan[calls[i].id]];
      }
    }
  }

  /** `plan_file_observation_replacements` */
  method PlanFileObservationReplacements(w: World, policy: Policy, nodes: seq<Node>) returns (r: seq<Replacement>)
    ensures UniqueIds(VisibleCalls(nodes)) ==> r == Planned(w, policy, VisibleCalls(nodes), |VisibleCalls(nodes)|)
  {
    var calls := VisibleCalls(nodes);
    hide *;
    var plan;
    ghost var decided;
    plan, decided := PlanReads(w, policy, calls);
    plan, decided := PlanSubsumedSearches(w, policy, calls, plan, decided);
    plan, decided := PlanDuplicates(w, policy, calls, plan, decided);
    r := InCallOrder(w, policy, calls, plan, decided);
  }
}
