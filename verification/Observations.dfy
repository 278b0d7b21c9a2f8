// What file observations in the visible history are replaced by, and why no evidence is lost.
module Observations {
  import opened LineNumbers
  import opened Optional

  type Path = string

  datatype Tool = ReadFile | SearchFiles | OtherTool

  /** One visible tool call with its result. */
  datatype Call = Call(id: string, tool: Tool, isError: bool, arguments: string, content: string)

  datatype Live = Readable(lines: seq<string>) | Missing | Unreadable

  datatype State = Current | Stale | Unknown

  datatype Policy = ExactDuplicateOnly | CompleteCurrentRead

  /** The lines a search result reports for one file. */
  datatype Hit = Hit(path: Path, lines: seq<FileLine>)

  /** The fixed facts of one request: how arguments and results are parsed and paths resolved, and
      the live contents of files, each read at most once. */
  datatype World = World(
    readPath: string -> Option<Path>,
    readLines: string -> seq<FileLine>,
    searchHits: string -> seq<Hit>,
    searchComplete: string -> bool,
    canonical: string -> string,
    live: Path -> Live)

  /** `_observation_state` */
  function ObservationState(live: Live, returned: seq<FileLine>): State {
    match live
    case Missing => if returned != [] then Stale else Unknown
    case Unreadable => Unknown
    case Readable(lines) => if returned == [] then Unknown else if Matches(lines, returned) then Current else Stale
  }

  /** Every returned line is still there. */
  predicate Matches(lines: seq<string>, returned: seq<FileLine>) {
    forall k :: 0 <= k < |returned| ==>
      1 <= returned[k].number <= |lines| && lines[returned[k].number - 1] == returned[k].content
  }

  // ----- observations

  predicate IsRead(w: World, c: Call) {
    !c.isError && c.tool == ReadFile && w.readPath(c.arguments).Some?
  }

  predicate IsSearch(c: Call) {
    !c.isError && c.tool == SearchFiles
  }

  /** A read of the file whose nonempty lines are all still there. */
  predicate IsCurrentRead(w: World, c: Call, path: Path) {
    && IsRead(w, c) && w.readPath(c.arguments).value == path
    && w.readLines(c.content) != []
    && ObservationState(w.live(path), w.readLines(c.content)) == Current
  }

  predicate Includes(newer: seq<FileLine>, older: seq<FileLine>) {
    forall line :: line in older ==> line in newer
  }

  predicate CoveringRead(w: World, c: Call, path: Path, lines: seq<FileLine>) {
    IsCurrentRead(w, c, path) && Includes(w.readLines(c.content), lines)
  }

  /** The (path, line, content) facts a result states. */
  function Facts(w: World, c: Call): set<(Path, FileLine)> {
    if IsRead(w, c) then
      set line | line in w.readLines(c.content) :: (w.readPath(c.arguments).value, line)
    else if IsSearch(c) then HitFacts(w.searchHits(c.content))
    else {}
  }

  function HitFacts(hits: seq<Hit>): set<(Path, FileLine)> {
    if hits == [] then {}
    else (set line | line in hits[0].lines :: (hits[0].path, line)) + HitFacts(hits[1..])
  }

  // ----- reference definition: what each result is replaced by

  datatype Replacement = StaleObservation(id: string) | RedundantObservation(id: string, supersedingId: string)

  /** The first covering read at or after position `from`. */
  function FirstCover(w: World, calls: seq<Call>, from: nat, path: Path, lines: seq<FileLine>): (j: nat)
    requires from <= |calls|
    ensures from <= j <= |calls|
    ensures j < |calls| ==> CoveringRead(w, calls[j], path, lines)
    ensures forall k :: from <= k < j ==> !CoveringRead(w, calls[k], path, lines)
    decreases |calls| - from
  {
    if from == |calls| || CoveringRead(w, calls[from], path, lines) then from
    else FirstCover(w, calls, from + 1, path, lines)
  }

  /** The last covering read after position `i`, or `i` when there is none. */
  function LastCover(w: World, calls: seq<Call>, i: nat, to: nat, path: Path, lines: seq<FileLine>): (j: nat)
    requires i < to <= |calls|
    ensures i <= j < to
    ensures j > i ==> CoveringRead(w, calls[j], path, lines)
    ensures forall k :: j < k < to ==> !CoveringRead(w, calls[k], path, lines)
  {
    if to == i + 1 then i
    else if CoveringRead(w, calls[to - 1], path, lines) then to - 1
    else LastCover(w, calls, i, to - 1, path, lines)
  }

  predicate SameSearch(w: World, a: Call, b: Call) {
    && IsSearch(a) && IsSearch(b)
    && w.canonical(a.arguments) == w.canonical(b.arguments) && a.content == b.content
  }

  /** The last search with the same signature as the one at `i`, or `i` when it is the last. */
  function LastSame(w: World, calls: seq<Call>, i: nat, to: nat): (j: nat)
    requires i < to <= |calls|
    ensures i <= j < to
    ensures j > i ==> SameSearch(w, calls[i], calls[j])
    ensures forall k :: j < k < to ==> !SameSearch(w, calls[i], calls[k])
  {
    if to == i + 1 then i
    else if SameSearch(w, calls[i], calls[to - 1]) then to - 1
    else LastSame(w, calls, i, to - 1)
  }

  /** A search whose evidence is complete, nonempty and about one file. */
  predicate SingleCompleteSearch(w: World, c: Call) {
    && IsSearch(c) && |w.searchHits(c.content)| == 1
    && w.searchHits(c.content)[0].lines != [] && w.searchComplete(c.content)
  }

  function ReadDecision(w: World, calls: seq<Call>, i: nat): Option<Replacement>
    requires i < |calls| && IsRead(w, calls[i])
  {
    var c := calls[i];
    var path, lines := w.readPath(c.arguments).value, w.readLines(c.content);
    match ObservationState(w.live(path), lines)
    case Stale => Some(StaleObservation(c.id))
    case Unknown => None
    case Current =>
      var j := FirstCover(w, calls, i + 1, path, lines);
      if j < |calls| then Some(RedundantObservation(c.id, calls[j].id)) else None
  }

  /** The read that subsumes the search at `i`, or `i`. */
  function SubsumingRead(w: World, calls: seq<Call>, i: nat): nat
    requires i < |calls|
  {
    if SingleCompleteSearch(w, calls[i]) then
      var hit := w.searchHits(calls[i].content)[0];
      LastCover(w, calls, i, |calls|, hit.path, hit.lines)
    else i
  }

  function SearchDecision(w: World, policy: Policy, calls: seq<Call>, i: nat): Option<Replacement>
    requires i < |calls| && IsSearch(calls[i])
  {
    var c := calls[i];
    if policy == CompleteCurrentRead && SubsumingRead(w, calls, i) > i then
      Some(RedundantObservation(c.id, calls[SubsumingRead(w, calls, i)].id))
    else if LastSame(w, calls, i, |calls|) > i then
      Some(RedundantObservation(c.id, calls[LastSame(w, calls, i, |calls|)].id))
    else None
  }

  function Decision(w: World, policy: Policy, calls: seq<Call>, i: nat): Option<Replacement>
    requires i < |calls|
  {
    if IsRead(w, calls[i]) then ReadDecision(w, calls, i)
    else if IsSearch(calls[i]) then SearchDecision(w, policy, calls, i)
    else None
  }

  /** The replacements in call order. */
  function Planned(w: World, policy: Policy, calls: seq<Call>, n: nat): seq<Replacement>
    requires n <= |calls|
  {
    if n == 0 then []
    else
      Planned(w, policy, calls, n - 1)
      + match Decision(w, policy, calls, n - 1) case Some(r) => [r] case None => []
  }

  predicate UniqueIds(calls: seq<Call>) {
    forall i, j :: 0 <= i < j < |calls| ==> calls[i].id != calls[j].id
  }

  // ----- no evidence is lost

  /** The position of the call that supersedes the one at `i`, or `i` when it is not redundant. */
  function Superseder(w: World, policy: Policy, calls: seq<Call>, i: nat): (j: nat)
    requires i < |calls|
    ensures i <= j < |calls|
  {
    var c := calls[i];
    if IsRead(w, c) then
      if ReadDecision(w, calls, i).Some? && ReadDecision(w, calls, i).value.RedundantObservation? then
        FirstCover(w, calls, i + 1, w.readPath(c.arguments).value, w.readLines(c.content))
      else i
    else if IsSearch(c) then
      if policy == CompleteCurrentRead && SubsumingRead(w, calls, i) > i then SubsumingRead(w, calls, i)
      else LastSame(w, calls, i, |calls|)
    else i
  }

  lemma SupersederIsNamed(w: World, policy: Policy, calls: seq<Call>, i: nat)
    requires i < |calls|
    ensures Superseder(w, policy, calls, i) > i <==>
      Decision(w, policy, calls, i).Some? && Decision(w, policy, calls, i).value.RedundantObservation?
    ensures Superseder(w, policy, calls, i) > i ==>
      Decision(w, policy, calls, i) == Some(RedundantObservation(calls[i].id, calls[Superseder(w, policy, calls, i)].id))
  {
  }

  lemma CoverIncludesFacts(w: World, c: Call, path: Path, lines: seq<FileLine>)
    requires CoveringRead(w, c, path, lines)
    ensures (set line | line in lines :: (path, line)) <= Facts(w, c)
  {
  }

  /** One redirection: strictly later, with all the facts, and not itself stale. */
  lemma SupersederKeepsFacts(w: World, policy: Policy, calls: seq<Call>, i: nat)
    requires i < |calls| && Superseder(w, policy, calls, i) > i
    ensures var j := Superseder(w, policy, calls, i);
      && Facts(w, calls[i]) <= Facts(w, calls[j])
      && (Decision(w, policy, calls, j).Some? ==> Decision(w, policy, calls, j).value.RedundantObservation?)
  {
    var c, j := calls[i], Superseder(w, policy, calls, i);
    if IsRead(w, c) {
      CoverIncludesFacts(w, calls[j], w.readPath(c.arguments).value, w.readLines(c.content));
    } else if policy == CompleteCurrentRead && SubsumingRead(w, calls, i) > i {
      var hits := w.searchHits(c.content);
      CoverIncludesFacts(w, calls[j], hits[0].path, hits[0].lines);
      assert HitFacts(hits[1..]) == {};
    }
  }

  /** A search is redirected only to a result that stays. */
  lemma SearchSupersederStays(w: World, policy: Policy, calls: seq<Call>, i: nat)
    requires i < |calls| && IsSearch(calls[i]) && Superseder(w, policy, calls, i) > i
    ensures Decision(w, policy, calls, Superseder(w, policy, calls, i)) == None
  {
    var c, j := calls[i], Superseder(w, policy, calls, i);
    if policy == CompleteCurrentRead && SubsumingRead(w, calls, i) > i {
      var hit := w.searchHits(c.content)[0];
      var path, lines := w.readPath(calls[j].arguments).value, w.readLines(calls[j].content);
      var k := FirstCover(w, calls, j + 1, path, lines);
      assert k < |calls| ==> CoveringRead(w, calls[k], hit.path, hit.lines);
    } else {
      assert SameSearch(w, c, calls[j]);
      if policy == CompleteCurrentRead {
        SubsumedAlike(w, calls, i, j);
      }
      var k := LastSame(w, calls, j, |calls|);
      assert k > j ==> SameSearch(w, c, calls[k]);
    }
  }

  /** If a later search with the same result is subsumed by a read, so is the earlier one. */
  lemma SubsumedAlike(w: World, calls: seq<Call>, i: nat, j: nat)
    requires i < j < |calls| && calls[i].content == calls[j].content && IsSearch(calls[i]) && IsSearch(calls[j])
    ensures SubsumingRead(w, calls, j) > j ==> SubsumingRead(w, calls, i) > i
  {
    var k := SubsumingRead(w, calls, j);
    if k > j {
      var hit := w.searchHits(calls[i].content)[0];
      assert CoveringRead(w, calls[k], hit.path, hit.lines);
    }
  }

  /** Where following the redirections from `i` ends. */
  function Survivor(w: World, policy: Policy, calls: seq<Call>, i: nat): (j: nat)
    requires i < |calls|
    ensures i <= j < |calls|
    decreases |calls| - i
  {
    var next := Superseder(w, policy, calls, i);
    if next == i then i else Survivor(w, policy, calls, next)
  }

  /** Following the redirections from a redundant result goes strictly forward and ends at a result
      that is not replaced and states all its facts. */
  lemma {:induction false} EvidenceSurvives(w: World, policy: Policy, calls: seq<Call>, i: nat)
    requires i < |calls|
    requires Decision(w, policy, calls, i).Some? ==> Decision(w, policy, calls, i).value.RedundantObservation?
    ensures var j := Survivor(w, policy, calls, i);
      && Decision(w, policy, calls, j) == None
      && Facts(w, calls[i]) <= Facts(w, calls[j])
      && (Decision(w, policy, calls, i).Some? ==> j > i)
    decreases |calls| - i
  {
    var next := Superseder(w, policy, calls, i);
    SupersederIsNamed(w, policy, calls, i);
    if next > i {
      SupersederKeepsFacts(w, policy, calls, i);
      EvidenceSurvives(w, policy, calls, next);
    }
  }

  /** A result is called stale exactly when it is a read some of whose lines no longer match. */
  lemma StaleMeansMismatch(w: World, policy: Policy, calls: seq<Call>, i: nat)
    requires i < |calls|
    ensures Decision(w, policy, calls, i) == Some(StaleObservation(calls[i].id)) <==>
      && IsRead(w, calls[i])
      && var lines := w.readLines(calls[i].content);
         match w.live(w.readPath(calls[i].arguments).value)
         case Missing => lines != []
         case Unreadable => false
         case Readable(file) => lines != [] && !Matches(file, lines)
  {
  }
}
