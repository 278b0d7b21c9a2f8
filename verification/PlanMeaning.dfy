// What the planner's decisions mean, call by call and line by line.
module PlanMeaning {
  import opened LineNumbers
  import opened Observations
  import opened Optional

  /** A successful read of the file that returned lines, all of which are still there. */
  ghost predicate StillTrue(w: World, c: Call, path: Path) {
    && !c.isError && c.tool == ReadFile && w.readPath(c.arguments) == Some(path) && w.readLines(c.content) != []
    && w.live(path).Readable?
    && forall x :: x in w.readLines(c.content) ==>
         1 <= x.number <= |w.live(path).lines| && w.live(path).lines[x.number - 1] == x.content
  }

  /** Call j comes after call i, is a read of the file that is still true, and holds all these lines. */
  ghost predicate HoldsLater(w: World, calls: seq<Call>, i: nat, j: nat, path: Path, lines: seq<FileLine>) {
    && i < j < |calls| && StillTrue(w, calls[j], path)
    && forall x :: x in lines ==> x in w.readLines(calls[j].content)
  }

  /** Call j is a later read that holds every line of the search at i, whose result is complete and about one
      file. */
  ghost predicate Subsumes(w: World, calls: seq<Call>, i: nat, j: nat)
    requires i < |calls|
  {
    var c := calls[i];
    && !c.isError && c.tool == SearchFiles && |w.searchHits(c.content)| == 1 && w.searchComplete(c.content)
    && w.searchHits(c.content)[0].lines != []
    && HoldsLater(w, calls, i, j, w.searchHits(c.content)[0].path, w.searchHits(c.content)[0].lines)
  }

  /** Call j repeats the search at i later, with the same result. */
  ghost predicate Repeats(w: World, calls: seq<Call>, i: nat, j: nat)
    requires i < |calls|
  {
    && i < j < |calls|
    && !calls[i].isError && calls[i].tool == SearchFiles && !calls[j].isError && calls[j].tool == SearchFiles
    && w.canonical(calls[i].arguments) == w.canonical(calls[j].arguments) && calls[i].content == calls[j].content
  }

  lemma CurrentIff(w: World, c: Call, path: Path)
    ensures IsCurrentRead(w, c, path) <==> StillTrue(w, c, path)
  {
    var lines := w.readLines(c.content);
    if IsCurrentRead(w, c, path) {
      forall x | x in lines
        ensures 1 <= x.number <= |w.live(path).lines| && w.live(path).lines[x.number - 1] == x.content
      {
        var k :| 0 <= k < |lines| && lines[k] == x;
      }
    }
    if StillTrue(w, c, path) {
      forall k | 0 <= k < |lines|
        ensures 1 <= lines[k].number <= |w.live(path).lines| && w.live(path).lines[lines[k].number - 1] == lines[k].content
      {
        assert lines[k] in lines;
      }
    }
  }

  lemma CoverIff(w: World, calls: seq<Call>, i: nat, j: nat, path: Path, lines: seq<FileLine>)
    requires i < j < |calls|
    ensures CoveringRead(w, calls[j], path, lines) <==> HoldsLater(w, calls, i, j, path, lines)
  {
    CurrentIff(w, calls[j], path);
    hide IsCurrentRead, StillTrue;
  }

  // ----- the plan, decision by decision

  lemma {:induction false} PlannedIs(w: World, policy: Policy, calls: seq<Call>, n: nat, r: Replacement)
    requires n <= |calls|
    ensures r in Planned(w, policy, calls, n) <==> exists i :: 0 <= i < n && Decision(w, policy, calls, i) == Some(r)
  {
    hide Decision;
    if n > 0 {
      PlannedIs(w, policy, calls, n - 1, r);
    }
  }

  function IdOf(r: Replacement): string {
    match r
    case StaleObservation(id) => id
    case RedundantObservation(id, _) => id
  }

  lemma DecidesOwn(w: World, policy: Policy, calls: seq<Call>, i: nat)
    requires i < |calls|
    ensures Decision(w, policy, calls, i).Some? ==> IdOf(Decision(w, policy, calls, i).value) == calls[i].id
  {
  }

  /** With unique identifiers the plan holds for a call what was decided for it. */
  lemma PlannedFor(w: World, policy: Policy, calls: seq<Call>, i: nat, r: Replacement)
    requires UniqueIds(calls) && i < |calls| && IdOf(r) == calls[i].id
    ensures r in Planned(w, policy, calls, |calls|) <==> Decision(w, policy, calls, i) == Some(r)
  {
    PlannedIs(w, policy, calls, |calls|, r);
    hide Decision, Planned;
    forall k | 0 <= k < |calls| && Decision(w, policy, calls, k) == Some(r) ensures k == i {
      DecidesOwn(w, policy, calls, k);
    }
  }

  /** The first call of which it holds, and it alone, is found by looking for the first cover. */
  lemma FirstCoverIs(w: World, calls: seq<Call>, i: nat, j: nat, path: Path, lines: seq<FileLine>)
    requires i < |calls| && j < |calls|
    ensures FirstCover(w, calls, i + 1, path, lines) == j <==>
      HoldsLater(w, calls, i, j, path, lines) && forall k: nat :: i < k < j ==> !HoldsLater(w, calls, i, k, path, lines)
  {
    var found := FirstCover(w, calls, i + 1, path, lines);
    forall k: nat | i < k < |calls|
      ensures CoveringRead(w, calls[k], path, lines) <==> HoldsLater(w, calls, i, k, path, lines)
    {
      CoverIff(w, calls, i, k, path, lines);
    }
    hide FirstCover, CoveringRead, StillTrue;
  }

  /** A read is planned as redundant if and only if it is still true and a later read of the file that is still
      true holds every one of its lines; the call named is the earliest such read. */
  lemma ReadRedundantIff(w: World, policy: Policy, calls: seq<Call>, i: nat, j: nat)
    requires UniqueIds(calls) && i < |calls| && j < |calls| && calls[i].tool == ReadFile
    ensures RedundantObservation(calls[i].id, calls[j].id) in Planned(w, policy, calls, |calls|) <==>
      exists path ::
        && StillTrue(w, calls[i], path) && HoldsLater(w, calls, i, j, path, w.readLines(calls[i].content))
        && forall k: nat :: i < k < j ==> !HoldsLater(w, calls, i, k, path, w.readLines(calls[i].content))
  {
    var c := calls[i];
    PlannedFor(w, policy, calls, i, RedundantObservation(c.id, calls[j].id));
    if IsRead(w, c) {
      var path, lines := w.readPath(c.arguments).value, w.readLines(c.content);
      CurrentIff(w, c, path);
      FirstCoverIs(w, calls, i, j, path, lines);
      NamedIs(calls, FirstCover(w, calls, i + 1, path, lines), j);
      hide FirstCover, HoldsLater, Planned;
    }
  }

  lemma NamedIs(calls: seq<Call>, found: nat, j: nat)
    requires UniqueIds(calls) && j < |calls|
    ensures found < |calls| ==> (calls[found].id == calls[j].id <==> found == j)
  {
  }

  /** A read is planned as stale if and only if it returned lines and the file is gone or one of them is not
      there any more; for an unreadable file nothing is planned. */
  lemma ReadStaleIff(w: World, policy: Policy, calls: seq<Call>, i: nat)
    requires UniqueIds(calls) && i < |calls|
    ensures StaleObservation(calls[i].id) in Planned(w, policy, calls, |calls|) <==>
      && !calls[i].isError && calls[i].tool == ReadFile && w.readPath(calls[i].arguments) != None
      && var path, lines := w.readPath(calls[i].arguments).value, w.readLines(calls[i].content);
         && lines != []
         && (w.live(path) == Missing
             || (w.live(path).Readable?
                 && exists x :: x in lines && !(1 <= x.number <= |w.live(path).lines| && w.live(path).lines[x.number - 1] == x.content)))
  {
    var c := calls[i];
    PlannedFor(w, policy, calls, i, StaleObservation(c.id));
    hide Planned, FirstCover, SearchDecision;
    if IsRead(w, c) {
      var path, lines := w.readPath(c.arguments).value, w.readLines(c.content);
      CurrentIff(w, c, path);
      if lines != [] && w.live(path).Readable? && !Matches(w.live(path).lines, lines) {
        var k :| 0 <= k < |lines|
          && !(1 <= lines[k].number <= |w.live(path).lines| && w.live(path).lines[lines[k].number - 1] == lines[k].content);
        assert lines[k] in lines;
      }
    }
  }

  /** A search is planned as redundant if and only if, under the policy that allows it, it is complete, about one
      file and subsumed by a later read, the newest of which is named; or, where none does, a later search has the
      same canonical arguments and result, the newest of which is named. */
  lemma SearchRedundantIff(w: World, policy: Policy, calls: seq<Call>, i: nat, j: nat)
    requires UniqueIds(calls) && i < |calls| && j < |calls| && calls[i].tool == SearchFiles
    ensures RedundantObservation(calls[i].id, calls[j].id) in Planned(w, policy, calls, |calls|) <==>
      || (policy == CompleteCurrentRead && Subsumes(w, calls, i, j) && forall k: nat :: j < k ==> !Subsumes(w, calls, i, k))
      || (&& (policy == CompleteCurrentRead ==> forall k: nat :: !Subsumes(w, calls, i, k))
          && Repeats(w, calls, i, j) && forall k: nat :: j < k ==> !Repeats(w, calls, i, k))
  {
    var c := calls[i];
    PlannedFor(w, policy, calls, i, RedundantObservation(c.id, calls[j].id));
    hide Planned;
    if IsSearch(c) {
      SubsumingIs(w, calls, i);
      LastSameIs(w, calls, i);
      NamedIs(calls, SubsumingRead(w, calls, i), j);
      NamedIs(calls, LastSame(w, calls, i, |calls|), j);
      hide SubsumingRead, LastSame, Subsumes, Repeats, ReadDecision;
    }
  }

  lemma SubsumingIs(w: World, calls: seq<Call>, i: nat)
    requires i < |calls| && IsSearch(calls[i])
    ensures var r := SubsumingRead(w, calls, i);
      && i <= r < |calls| && (r > i ==> Subsumes(w, calls, i, r))
      && forall k: nat :: k > r ==> !Subsumes(w, calls, i, k)
    ensures forall k: nat :: Subsumes(w, calls, i, k) ==> k > i
  {
    if SingleCompleteSearch(w, calls[i]) {
      var hit := w.searchHits(calls[i].content)[0];
      forall k: nat | i < k < |calls|
        ensures CoveringRead(w, calls[k], hit.path, hit.lines) <==> HoldsLater(w, calls, i, k, hit.path, hit.lines)
      {
        CoverIff(w, calls, i, k, hit.path, hit.lines);
      }
      hide CoveringRead, StillTrue, LastCover;
    }
  }

  lemma LastSameIs(w: World, calls: seq<Call>, i: nat)
    requires i < |calls| && IsSearch(calls[i])
    ensures var r := LastSame(w, calls, i, |calls|);
      && i <= r < |calls| && (r > i ==> Repeats(w, calls, i, r))
      && forall k: nat :: k > r ==> !Repeats(w, calls, i, k)
    ensures forall k: nat :: Repeats(w, calls, i, k) ==> k > i
  {
    hide LastSame;
  }

  /** Nothing else is planned: only successful reads and searches are replaced, by name of their own call. */
  lemma OnlyObservations(w: World, policy: Policy, calls: seq<Call>, r: Replacement)
    requires r in Planned(w, policy, calls, |calls|)
    ensures exists i :: 0 <= i < |calls| && IdOf(r) == calls[i].id && !calls[i].isError && calls[i].tool != OtherTool
  {
    PlannedIs(w, policy, calls, |calls|, r);
    var i :| 0 <= i < |calls| && Decision(w, policy, calls, i) == Some(r);
    DecidesOwn(w, policy, calls, i);
    hide ReadDecision, SearchDecision;
  }

  // ----- facts

  lemma {:induction false} HitFactsAre(hits: seq<Hit>, path: Path, x: FileLine)
    ensures (path, x) in HitFacts(hits) <==> exists k :: 0 <= k < |hits| && hits[k].path == path && x in hits[k].lines
  {
    if hits != [] {
      HitFactsAre(hits[1..], path, x);
      if k :| 0 <= k < |hits| && hits[k].path == path && x in hits[k].lines {
        assert k > 0 ==> hits[1..][k - 1] == hits[k];
      }
      if k :| 0 <= k < |hits[1..]| && hits[1..][k].path == path && x in hits[1..][k].lines {
        assert hits[k + 1] == hits[1..][k];
      }
    }
  }

  /** A result states a line of a file if and only if it is a successful read of the file that returned it, or a
      successful search with a hit there that holds it. */
  lemma FactsAre(w: World, c: Call, path: Path, x: FileLine)
    ensures (path, x) in Facts(w, c) <==>
      || (!c.isError && c.tool == ReadFile && w.readPath(c.arguments) == Some(path) && x in w.readLines(c.content))
      || (!c.isError && c.tool == SearchFiles
          && exists k :: 0 <= k < |w.searchHits(c.content)| && w.searchHits(c.content)[k].path == path
               && x in w.searchHits(c.content)[k].lines)
  {
    HitFactsAre(w.searchHits(c.content), path, x);
    hide HitFacts;
  }
}
