// Which results one request folds into the file context, and which files that context shows.
module Folding {
  import opened Sorting

  const FOLDED_FILE_CONTEXT_MAX_FILES: nat := 6
  const FOLDED_FILE_MIN_OBSERVATIONS: nat := 2

  datatype Tool = Read | Search | Write

  datatype Observation = Observation(callId: string, tool: Tool, sequenceIndex: nat)

  /** What the history observed of one file. */
  datatype Accumulator = Accumulator(path: string, observations: seq<Observation>)

  datatype Settings = Settings(minObservations: nat, legacyMinimum: bool, newest: set<string>)

  function ReadSearch(observations: seq<Observation>): (r: seq<Observation>)
    ensures forall o :: o in r <==> o in observations && o.tool != Write
  {
    if observations == [] then []
    else (if observations[0].tool != Write then [observations[0]] else []) + ReadSearch(observations[1..])
  }

  function LastSequenceIndex(observations: seq<Observation>): nat {
    if observations == [] then 0
    else
      var rest := LastSequenceIndex(observations[1..]);
      if rest < observations[0].sequenceIndex then observations[0].sequenceIndex else rest
  }

  predicate MoreRecent(a: Accumulator, b: Accumulator) {
    LastSequenceIndex(a.observations) >= LastSequenceIndex(b.observations)
  }

  /** `_should_render_folded_context` */
  predicate ShouldRender(a: Accumulator, s: Settings) {
    var seen := ReadSearch(a.observations);
    seen != [] && (
      || (exists k :: 0 <= k < |seen| && seen[k].tool == Search)
      || |seen| >= s.minObservations
      || (!s.legacyMinimum && forall k :: 0 <= k < |seen| ==> seen[k].callId !in s.newest))
  }

  ghost predicate Observes(a: Accumulator, callId: string) {
    exists o :: o in a.observations && o.tool != Write && o.callId == callId
  }

  /** Every file among these that the call observed has its path among `paths`. */
  ghost predicate Covered(all: seq<Accumulator>, callId: string, paths: set<string>) {
    forall a :: a in all && Observes(a, callId) ==> a.path in paths
  }

  ghost predicate ObservedBy(all: seq<Accumulator>, callId: string) {
    exists a :: a in all && Observes(a, callId)
  }

  function Paths(accumulators: seq<Accumulator>): set<string> {
    set a | a in accumulators :: a.path
  }

  function Including(paths: map<string, set<string>>, callId: string, path: string): map<string, set<string>> {
    paths[callId := (if callId in paths then paths[callId] else {}) + {path}]
  }

  ghost predicate SawPath(all: seq<Accumulator>, callId: string, path: string) {
    exists a :: a in all && a.path == path && Observes(a, callId)
  }

  /** `paths` holds, for each call, the paths of the files it observed. */
  ghost predicate Collected(paths: map<string, set<string>>, all: seq<Accumulator>) {
    && (forall id, p :: (id in paths && p in paths[id]) <==> SawPath(all, id, p))
    && (forall id :: id in paths ==> exists p :: p in paths[id])
  }

  lemma SawInMore(before: seq<Accumulator>, a: Accumulator, callId: string, path: string)
    ensures SawPath(before + [a], callId, path) <==> SawPath(before, callId, path) || (path == a.path && Observes(a, callId))
  {
    assert a in before + [a];
    assert forall x :: x in before ==> x in before + [a];
  }

  lemma ObservesMore(path: string, seen: seq<Observation>, o: Observation, callId: string)
    requires o.tool != Write
    ensures Observes(Accumulator(path, seen + [o]), callId) <==> Observes(Accumulator(path, seen), callId) || callId == o.callId
  {
    assert o in seen + [o];
    assert forall x :: x in seen ==> x in seen + [o];
  }

  /** One more observation of the file. */
  lemma OneAdded(paths: map<string, set<string>>, before: seq<Accumulator>, path: string, seen: seq<Observation>, o: Observation)
    requires o.tool != Write && Collected(paths, before + [Accumulator(path, seen)])
    ensures Collected(Including(paths, o.callId, path), before + [Accumulator(path, seen + [o])])
  {
    var a, b := Accumulator(path, seen), Accumulator(path, seen + [o]);
    var r := Including(paths, o.callId, path);
    forall id, p ensures (id in r && p in r[id]) <==> SawPath(before + [b], id, p) {
      SawInMore(before, a, id, p);
      SawInMore(before, b, id, p);
      ObservesMore(path, seen, o, id);
      hide SawPath, Observes;
    }
    assert path in r[o.callId];
  }

  /** Two records of one file with the same reads and searches collect the same. */
  lemma SameCollected(paths: map<string, set<string>>, before: seq<Accumulator>, a: Accumulator, b: Accumulator)
    requires Collected(paths, before + [a]) && a.path == b.path
    requires forall id :: Observes(a, id) <==> Observes(b, id)
    ensures Collected(paths, before + [b])
  {
    forall id, p ensures (id in paths && p in paths[id]) <==> SawPath(before + [b], id, p) {
      SawInMore(before, a, id, p);
      SawInMore(before, b, id, p);
    }
  }

  lemma NothingAdded(paths: map<string, set<string>>, before: seq<Accumulator>, path: string)
    requires Collected(paths, before)
    ensures Collected(paths, before + [Accumulator(path, [])])
  {
    forall id, p ensures (id in paths && p in paths[id]) <==> SawPath(before + [Accumulator(path, [])], id, p) {
      SawInMore(before, Accumulator(path, []), id, p);
    }
  }

  lemma ReadSearchObserves(a: Accumulator)
    ensures forall id :: Observes(Accumulator(a.path, ReadSearch(a.observations)), id) <==> Observes(a, id)
    ensures forall k :: 0 <= k < |ReadSearch(a.observations)| ==> ReadSearch(a.observations)[k].tool != Write
  {
    var seen := ReadSearch(a.observations);
    forall k | 0 <= k < |seen| ensures seen[k].tool != Write {
      assert seen[k] in seen;
    }
  }

  /** The inner loop over one file's reads and searches. */
  method CollectOne(paths: map<string, set<string>>, before: seq<Accumulator>, a: Accumulator)
    returns (r: map<string, set<string>>)
    requires Collected(paths, before)
    ensures Collected(r, before + [a])
  {
    hide *;
    r := paths;
    var seen := ReadSearch(a.observations);
    ReadSearchObserves(a);
    NothingAdded(paths, before, a.path);
    assert seen[..0] == [];
    for i := 0 to |seen|
      invariant Collected(r, before + [Accumulator(a.path, seen[..i])])
    {
      OneAdded(r, before, a.path, seen[..i], seen[i]);
      assert seen[..i + 1] == seen[..i] + [seen[i]];
      r := Including(r, seen[i].callId, a.path);
    }
    assert seen[..|seen|] == seen;
    SameCollected(r, before, Accumulator(a.path, seen), a);
  }

  lemma CollectedMeans(paths: map<string, set<string>>, all: seq<Accumulator>, callId: string, selected: set<string>)
    requires Collected(paths, all)
    ensures callId in paths <==> ObservedBy(all, callId)
    ensures callId in paths ==> (paths[callId] <= selected <==> Covered(all, callId, selected))
  {
    if ObservedBy(all, callId) {
      var a :| a in all && Observes(a, callId);
      assert SawPath(all, callId, a.path);
    }
    if callId in paths {
      var p :| p in paths[callId];
      assert SawPath(all, callId, p);
      if paths[callId] <= selected {
        forall a | a in all && Observes(a, callId) ensures a.path in selected {
          assert SawPath(all, callId, a.path);
        }
      }
      if Covered(all, callId, selected) {
        forall q | q in paths[callId] ensures q in selected {
          assert SawPath(all, callId, q);
        }
      }
    }
  }

  /** `_foldable_call_ids`: a call is folded when everything it observed is selected. */
  method FoldableCallIds(candidates: seq<Accumulator>, selected: seq<Accumulator>, protected: set<string>)
    returns (folded: set<string>)
    ensures forall id :: id in folded <==>
      ObservedBy(candidates, id) && id !in protected && Covered(candidates, id, Paths(selected))
  {
    var paths: map<string, set<string>> := map[];
    for i := 0 to |candidates|
      invariant Collected(paths, candidates[..i])
    {
      assert candidates[..i + 1] == candidates[..i] + [candidates[i]];
      paths := CollectOne(paths, candidates[..i], candidates[i]);
    }
    assert candidates[..|candidates|] == candidates;
    forall id ensures id in paths <==> ObservedBy(candidates, id)
      ensures id in paths ==> (paths[id] <= Paths(selected) <==> Covered(candidates, id, Paths(selected)))
    {
      CollectedMeans(paths, candidates, id, Paths(selected));
    }
    hide ObservedBy, Covered, Paths, Collected;
    folded := set id | id in paths && paths[id] <= Paths(selected) && id !in protected;
  }

  /** The candidates, most recently observed first, as far as the limit goes. */
  function Selected(all: seq<Accumulator>, s: Settings): seq<Accumulator> {
    var sorted := StableSort(Candidates(all, s), MoreRecent);
    if |sorted| <= FOLDED_FILE_CONTEXT_MAX_FILES then sorted else sorted[..FOLDED_FILE_CONTEXT_MAX_FILES]
  }

  function Candidates(all: seq<Accumulator>, s: Settings): (r: seq<Accumulator>)
    ensures forall a :: a in r <==> a in all && ShouldRender(a, s)
  {
    if all == [] then [] else (if ShouldRender(all[0], s) then [all[0]] else []) + Candidates(all[1..], s)
  }

  function Renderable(selected: seq<Accumulator>, view: Accumulator -> string): (r: seq<Accumulator>)
    ensures forall a :: a in r <==> a in selected && view(a) != ""
  {
    if selected == [] then []
    else (if view(selected[0]) != "" then [selected[0]] else []) + Renderable(selected[1..], view)
  }

  predicate Mentions(a: Accumulator, folded: set<string>) {
    var seen := ReadSearch(a.observations);
    exists k :: 0 <= k < |seen| && seen[k].callId in folded
  }

  function Mentioning(selected: seq<Accumulator>, folded: set<string>): (r: seq<Accumulator>)
    ensures forall a :: a in r <==> a in selected && Mentions(a, folded)
  {
    if selected == [] then []
    else (if Mentions(selected[0], folded) then [selected[0]] else []) + Mentioning(selected[1..], folded)
  }

  lemma MentionsMeans(a: Accumulator, folded: set<string>)
    ensures Mentions(a, folded) <==> exists id :: id in folded && Observes(a, id)
  {
    var seen := ReadSearch(a.observations);
    if Mentions(a, folded) {
      var k :| 0 <= k < |seen| && seen[k].callId in folded;
      assert seen[k] in seen;
      assert Observes(a, seen[k].callId);
    }
    if id :| id in folded && Observes(a, id) {
      var o :| o in a.observations && o.tool != Write && o.callId == id;
      assert o in seen;
      var k :| 0 <= k < |seen| && seen[k] == o;
    }
  }

  ghost predicate DistinctPaths(all: seq<Accumulator>) {
    forall a, b :: a in all && b in all && a.path == b.path ==> a == b
  }

  /** The call is folded: everything it observed among the candidates is among the files selected and
      showable, and it is not protected. */
  ghost predicate IsFolded(all: seq<Accumulator>, s: Settings, protected: set<string>, view: Accumulator -> string, callId: string) {
    && ObservedBy(Candidates(all, s), callId) && callId !in protected
    && Covered(Candidates(all, s), callId, Paths(Renderable(Selected(all, s), view)))
  }

  /** `render_history_with_file_context_visibility`: the folded calls and the files shown for them.
      `view` gives a file's section text, empty when the file cannot be shown. */
  method FoldObservations(all: seq<Accumulator>, s: Settings, protected: set<string>, view: Accumulator -> string)
    returns (folded: set<string>, sections: seq<Accumulator>)
    requires DistinctPaths(all)
    ensures forall id :: id in folded <==> IsFolded(all, s, protected, view, id)
    ensures sections == Mentioning(Renderable(Selected(all, s), view), folded)
    ensures |sections| <= FOLDED_FILE_CONTEXT_MAX_FILES
    ensures forall a :: a in sections ==> a in all && view(a) != "" && exists id :: id in folded && Observes(a, id)
    ensures forall id :: id in folded ==> Shown(Candidates(all, s), id, sections)
  {
    hide *;
    var candidates := Candidates(all, s);
    var selected := Renderable(Selected(all, s), view);
    folded := FoldableCallIds(candidates, selected, protected);
    sections := Mentioning(selected, folded);
    FoldedAre(all, s, protected, view, folded);
    FewSections(all, s, view, folded);
    SectionsShow(all, s, view, folded, protected);
  }

  lemma FoldedAre(all: seq<Accumulator>, s: Settings, protected: set<string>, view: Accumulator -> string, folded: set<string>)
    requires var candidates, selected := Candidates(all, s), Renderable(Selected(all, s), view);
      forall id :: id in folded <==>
        (ObservedBy(candidates, id) && id !in protected && Covered(candidates, id, Paths(selected)))
    ensures forall id :: id in folded <==> IsFolded(all, s, protected, view, id)
  {
  }

  /** Every file of these that the call observed is in the sections. */
  ghost predicate Shown(all: seq<Accumulator>, callId: string, sections: seq<Accumulator>) {
    forall a :: a in all && Observes(a, callId) ==> a in sections
  }

  lemma {:induction false} RenderableShorter(selected: seq<Accumulator>, view: Accumulator -> string)
    ensures |Renderable(selected, view)| <= |selected|
  {
    if selected != [] { RenderableShorter(selected[1..], view); }
  }

  lemma {:induction false} MentioningShorter(selected: seq<Accumulator>, folded: set<string>)
    ensures |Mentioning(selected, folded)| <= |selected|
  {
    if selected != [] { MentioningShorter(selected[1..], folded); }
  }

  lemma FewSections(all: seq<Accumulator>, s: Settings, view: Accumulator -> string, folded: set<string>)
    ensures |Mentioning(Renderable(Selected(all, s), view), folded)| <= FOLDED_FILE_CONTEXT_MAX_FILES
  {
    RenderableShorter(Selected(all, s), view);
    MentioningShorter(Renderable(Selected(all, s), view), folded);
  }

  lemma SelectedAreCandidates(all: seq<Accumulator>, s: Settings)
    ensures forall a :: a in Selected(all, s) ==> a in Candidates(all, s)
  {
    SameElements(Candidates(all, s), MoreRecent);
    forall a | a in Selected(all, s) ensures a in Candidates(all, s) {
      assert a in StableSort(Candidates(all, s), MoreRecent);
    }
  }

  /** The selected files are the most recently observed candidates. */
  lemma SelectedAreMostRecent(all: seq<Accumulator>, s: Settings, a: Accumulator, b: Accumulator)
    requires a in Selected(all, s) && b in Candidates(all, s) && b !in Selected(all, s)
    ensures MoreRecent(a, b) && |Selected(all, s)| == FOLDED_FILE_CONTEXT_MAX_FILES
  {
    var candidates := Candidates(all, s);
    var sorted, selected := StableSort(candidates, MoreRecent), Selected(all, s);
    assert selected <= sorted;
    MostRecentFirst(candidates);
    SameElements(candidates, MoreRecent);
    hide StableSort, Candidates, MoreRecent;
    var i :| 0 <= i < |selected| && selected[i] == a;
    var j :| 0 <= j < |sorted| && sorted[j] == b;
    forall k | 0 <= k < |selected| ensures sorted[k] != b {
      assert selected[k] in selected;
    }
  }

  lemma MostRecentFirst(all: seq<Accumulator>)
    ensures SortedBy(StableSort(all, MoreRecent), MoreRecent)
  {
    assert TotalPreorder(all, MoreRecent);
    hide LastSequenceIndex;
    SortSorts(all, MoreRecent);
  }

  lemma SectionsShow(all: seq<Accumulator>, s: Settings, view: Accumulator -> string, folded: set<string>, protected: set<string>)
    requires DistinctPaths(all)
    requires var selected := Renderable(Selected(all, s), view);
      forall id :: id in folded <==>
        (ObservedBy(Candidates(all, s), id) && id !in protected && Covered(Candidates(all, s), id, Paths(selected)))
    ensures var sections := Mentioning(Renderable(Selected(all, s), view), folded);
      && (forall a :: a in sections ==> a in all && view(a) != "" && exists id :: id in folded && Observes(a, id))
      && (forall id :: id in folded ==> Shown(Candidates(all, s), id, sections))
    ensures folded !! protected
  {
    SelectedAreCandidates(all, s);
    var selected := Renderable(Selected(all, s), view);
    var sections := Mentioning(selected, folded);
    forall a | a in sections ensures a in all && view(a) != "" && exists id :: id in folded && Observes(a, id) {
      MentionsMeans(a, folded);
    }
    forall id, a | id in folded && a in Candidates(all, s) && Observes(a, id) ensures a in sections {
      assert a.path in Paths(selected);
      var b :| b in selected && b.path == a.path;
      assert b == a;
      MentionsMeans(a, folded);
    }
  }

  /** A call either searches or reads one file. */
  ghost predicate OneFilePerRead(all: seq<Accumulator>) {
    forall a, b, o, p ::
      (&& a in all && b in all && o in a.observations && p in b.observations
       && o.tool != Write && p.tool != Write && o.callId == p.callId && a.path != b.path) ==>
        o.tool == Search && p.tool == Search
  }

  lemma SearchedFileRenders(a: Accumulator, s: Settings, p: Observation)
    requires p in a.observations && p.tool == Search
    ensures ShouldRender(a, s)
  {
    var seen := ReadSearch(a.observations);
    assert p in seen;
    var k :| 0 <= k < |seen| && seen[k] == p;
  }

  /** Then a folded call's files are all candidates, so all of them are shown. */
  lemma FoldedFilesAreShown(all: seq<Accumulator>, s: Settings, callId: string, sections: seq<Accumulator>)
    requires DistinctPaths(all) && OneFilePerRead(all)
    requires ObservedBy(Candidates(all, s), callId) && Shown(Candidates(all, s), callId, sections)
    ensures Shown(all, callId, sections)
  {
    hide ShouldRender, Candidates;
    var c :| c in Candidates(all, s) && Observes(c, callId);
    var o :| o in c.observations && o.tool != Write && o.callId == callId;
    forall a | a in all && Observes(a, callId) ensures a in sections {
      if a != c {
        var p :| p in a.observations && p.tool != Write && p.callId == callId;
        assert a.path != c.path;
        SearchedFileRenders(a, s, p);
      }
    }
  }

  // ----- from the observations of the history

  /** One file a tool call observed, in history order. */
  datatype Sighting = Sighting(path: string, observation: Observation)

  /** The position of the file's record, or |all|. */
  function RecordOf(all: seq<Accumulator>, path: string): (i: nat)
    ensures i <= |all|
    ensures i < |all| ==> all[i].path == path
    ensures forall k :: 0 <= k < i ==> all[k].path != path
  {
    if all == [] || all[0].path == path then 0 else 1 + RecordOf(all[1..], path)
  }

  function Recorded(all: seq<Accumulator>, g: Sighting): seq<Accumulator> {
    var i := RecordOf(all, g.path);
    if i == |all| then all + [Accumulator(g.path, [g.observation])]
    else all[i := Accumulator(g.path, all[i].observations + [g.observation])]
  }

  /** Each file that is readable now, with what the calls observed of it; nothing of any other file. */
  function Accumulated(seen: seq<Sighting>, readable: string -> bool): seq<Accumulator> {
    if seen == [] then []
    else
      var before, last := Accumulated(seen[..|seen| - 1], readable), seen[|seen| - 1];
      if readable(last.path) then Recorded(before, last) else before
  }

  /** `_collect_file_context`, as rendering uses it. */
  method CollectFileContext(seen: seq<Sighting>, readable: string -> bool) returns (all: seq<Accumulator>)
    ensures all == Accumulated(seen, readable)
    ensures RecordsOf(all, seen, readable)
  {
    all := [];
    for i := 0 to |seen|
      invariant all == Accumulated(seen[..i], readable)
    {
      assert seen[..i + 1][..i] == seen[..i];
      if !readable(seen[i].path) {
        continue;
      }
      all := Recorded(all, seen[i]);
    }
    assert seen[..|seen|] == seen;
    AccumulatedRecords(seen, readable);
  }

  /** One record for each readable file seen, holding exactly its observations. */
  ghost predicate RecordsOf(all: seq<Accumulator>, seen: seq<Sighting>, readable: string -> bool) {
    && (forall i, j :: 0 <= i < j < |all| ==> all[i].path != all[j].path)
    && (forall p, o :: HasObservation(all, p, o) <==> Sighting(p, o) in seen && readable(p))
    && (forall a :: a in all ==> a.observations != [])
  }

  ghost predicate HasObservation(all: seq<Accumulator>, path: string, o: Observation) {
    exists i :: 0 <= i < |all| && all[i].path == path && o in all[i].observations
  }

  lemma RecordedHas(all: seq<Accumulator>, g: Sighting, path: string, o: Observation)
    ensures HasObservation(Recorded(all, g), path, o) <==> HasObservation(all, path, o) || Sighting(path, o) == g
  {
    var i, more := RecordOf(all, g.path), Recorded(all, g);
    assert more[i].path == g.path && g.observation in more[i].observations;
    assert forall k :: 0 <= k < |all| && k != i ==> more[k] == all[k];
    if HasObservation(all, path, o) {
      var k :| 0 <= k < |all| && all[k].path == path && o in all[k].observations;
      assert o in more[k].observations;
    }
  }

  lemma {:induction false} AccumulatedRecords(seen: seq<Sighting>, readable: string -> bool)
    ensures RecordsOf(Accumulated(seen, readable), seen, readable)
  {
    if seen != [] {
      var front, last := seen[..|seen| - 1], seen[|seen| - 1];
      AccumulatedRecords(front, readable);
      assert seen == front + [last];
      RecordMore(Accumulated(front, readable), front, last, readable);
    }
  }

  lemma RecordMore(all: seq<Accumulator>, seen: seq<Sighting>, g: Sighting, readable: string -> bool)
    requires RecordsOf(all, seen, readable)
    ensures RecordsOf(if readable(g.path) then Recorded(all, g) else all, seen + [g], readable)
  {
    forall p, o ensures HasObservation(Recorded(all, g), p, o) <==> HasObservation(all, p, o) || Sighting(p, o) == g {
      RecordedHas(all, g, p, o);
    }
    forall g' ensures g' in seen + [g] <==> g' in seen || g' == g {
    }
    hide HasObservation;
  }

  ghost predicate Saw(seen: seq<Sighting>, callId: string, path: string) {
    exists g :: g in seen && g.path == path && g.observation.tool != Write && g.observation.callId == callId
  }

  /** A call either searches or reads one file. */
  ghost predicate ReadsOneFile(seen: seq<Sighting>) {
    forall g, h ::
      (&& g in seen && h in seen && g.observation.tool != Write && h.observation.tool != Write
       && g.observation.callId == h.observation.callId && g.path != h.path) ==>
        g.observation.tool == Search && h.observation.tool == Search
  }

  ghost predicate ShowsFile(sections: seq<Accumulator>, path: string) {
    exists a :: a in sections && a.path == path
  }

  lemma SawIsObserved(all: seq<Accumulator>, seen: seq<Sighting>, readable: string -> bool, a: Accumulator, callId: string)
    requires RecordsOf(all, seen, readable) && a in all
    ensures Observes(a, callId) ==> Saw(seen, callId, a.path)
    ensures readable(a.path)
  {
    var i :| 0 <= i < |all| && all[i] == a;
    assert HasObservation(all, a.path, a.observations[0]) by { assert a.observations[0] in all[i].observations; }
    if Observes(a, callId) {
      var o :| o in a.observations && o.tool != Write && o.callId == callId;
      assert HasObservation(all, a.path, o);
      assert Sighting(a.path, o) in seen;
    }
  }

  lemma ObservedIfReadable(all: seq<Accumulator>, seen: seq<Sighting>, readable: string -> bool, callId: string, path: string)
    requires RecordsOf(all, seen, readable) && Saw(seen, callId, path) && readable(path)
    ensures exists a :: a in all && a.path == path && Observes(a, callId)
  {
    var g :| g in seen && g.path == path && g.observation.tool != Write && g.observation.callId == callId;
    assert g == Sighting(path, g.observation);
    assert HasObservation(all, path, g.observation);
    var i :| 0 <= i < |all| && all[i].path == path && g.observation in all[i].observations;
    assert all[i] in all && Observes(all[i], callId);
  }

  lemma RecordsAreProper(all: seq<Accumulator>, seen: seq<Sighting>, readable: string -> bool)
    requires RecordsOf(all, seen, readable)
    ensures DistinctPaths(all)
    ensures ReadsOneFile(seen) ==> OneFilePerRead(all)
  {
    forall a, o | a in all && o in a.observations ensures Sighting(a.path, o) in seen {
      var i :| 0 <= i < |all| && all[i] == a;
      assert HasObservation(all, a.path, o);
    }
    forall a, b | a in all && b in all && a.path == b.path ensures a == b {
      var i :| 0 <= i < |all| && all[i] == a;
      var j :| 0 <= j < |all| && all[j] == b;
    }
    hide HasObservation;
    if ReadsOneFile(seen) {
      forall a, b, o, p |
        && a in all && b in all && o in a.observations && p in b.observations
        && o.tool != Write && p.tool != Write && o.callId == p.callId && a.path != b.path
        ensures o.tool == Search && p.tool == Search
      {
        assert Sighting(a.path, o) in seen && Sighting(b.path, p) in seen;
      }
    }
  }

  /** The exact condition: every file a folded call observed is shown if and only if every file it
      observed is readable in the request's snapshot of the files. */
  lemma FoldedFilesAllShownIff(seen: seq<Sighting>, readable: string -> bool, s: Settings, protected: set<string>,
                               view: Accumulator -> string, folded: set<string>, callId: string)
    requires ReadsOneFile(seen) && callId in folded
    requires forall id :: id in folded <==> IsFolded(Accumulated(seen, readable), s, protected, view, id)
    ensures var sections := Mentioning(Renderable(Selected(Accumulated(seen, readable), s), view), folded);
      (forall p :: Saw(seen, callId, p) ==> ShowsFile(sections, p)) <==> (forall p :: Saw(seen, callId, p) ==> readable(p))
  {
    hide *;
    var all := Accumulated(seen, readable);
    var sections := Mentioning(Renderable(Selected(all, s), view), folded);
    AccumulatedRecords(seen, readable);
    RecordsAreProper(all, seen, readable);
    FoldedUnfolds(all, s, protected, view, folded);
    SectionsShow(all, s, view, folded, protected);
    FoldedFilesAreShown(all, s, callId, sections);
    ShownIffReadable(all, seen, readable, sections, callId);
  }

  /** File by file: of what a folded call observed, exactly the readable files have a section. */
  lemma FoldedFileShownIff(seen: seq<Sighting>, readable: string -> bool, s: Settings, protected: set<string>,
                           view: Accumulator -> string, folded: set<string>, callId: string, path: string)
    requires ReadsOneFile(seen) && callId in folded && Saw(seen, callId, path)
    requires forall id :: id in folded <==> IsFolded(Accumulated(seen, readable), s, protected, view, id)
    ensures var sections := Mentioning(Renderable(Selected(Accumulated(seen, readable), s), view), folded);
      ShowsFile(sections, path) <==> readable(path)
  {
    hide *;
    var all := Accumulated(seen, readable);
    var sections := Mentioning(Renderable(Selected(all, s), view), folded);
    AccumulatedRecords(seen, readable);
    RecordsAreProper(all, seen, readable);
    FoldedUnfolds(all, s, protected, view, folded);
    SectionsShow(all, s, view, folded, protected);
    FoldedFilesAreShown(all, s, callId, sections);
    OneShownIffReadable(all, seen, readable, sections, callId, path);
  }

  lemma OneShownIffReadable(all: seq<Accumulator>, seen: seq<Sighting>, readable: string -> bool, sections: seq<Accumulator>,
                            callId: string, path: string)
    requires RecordsOf(all, seen, readable) && Shown(all, callId, sections) && forall a :: a in sections ==> a in all
    requires Saw(seen, callId, path)
    ensures ShowsFile(sections, path) <==> readable(path)
  {
    hide RecordsOf, Saw, Observes;
    if ShowsFile(sections, path) {
      var a :| a in sections && a.path == path;
      SawIsObserved(all, seen, readable, a, callId);
    }
    if readable(path) {
      ObservedIfReadable(all, seen, readable, callId, path);
      var a :| a in all && a.path == path && Observes(a, callId);
      assert a in sections;
    }
  }

  lemma ShownIffReadable(all: seq<Accumulator>, seen: seq<Sighting>, readable: string -> bool, sections: seq<Accumulator>, callId: string)
    requires RecordsOf(all, seen, readable) && Shown(all, callId, sections) && forall a :: a in sections ==> a in all
    ensures (forall p :: Saw(seen, callId, p) ==> ShowsFile(sections, p)) <==> (forall p :: Saw(seen, callId, p) ==> readable(p))
  {
    hide RecordsOf, Saw, Observes;
    forall p | ShowsFile(sections, p) ensures readable(p) {
      var a :| a in sections && a.path == p;
      SawIsObserved(all, seen, readable, a, callId);
    }
    forall p | Saw(seen, callId, p) && readable(p) ensures ShowsFile(sections, p) {
      ObservedIfReadable(all, seen, readable, callId, p);
      var a :| a in all && a.path == p && Observes(a, callId);
      assert a in sections;
    }
  }

  lemma FoldedUnfolds(all: seq<Accumulator>, s: Settings, protected: set<string>, view: Accumulator -> string, folded: set<string>)
    requires forall id :: id in folded <==> IsFolded(all, s, protected, view, id)
    ensures var candidates, selected := Candidates(all, s), Renderable(Selected(all, s), view);
      forall id :: id in folded <==>
        (ObservedBy(candidates, id) && id !in protected && Covered(candidates, id, Paths(selected)))
  {
  }

  // ----- the newest file turn

  /** A history node as folding sees it: whether its turn is visible under the plan, and its successful
      reads and searches that no replacement stands for. */
  datatype FileTurn = FileTurn(visible: bool, calls: set<string>)

  /** The position of the newest visible turn with reads or searches, or -1. */
  function NewestFileTurn(turns: seq<FileTurn>): (i: int)
    ensures -1 <= i < |turns|
    ensures i >= 0 ==> turns[i].visible && turns[i].calls != {}
    ensures forall k :: i < k < |turns| ==> !(turns[k].visible && turns[k].calls != {})
  {
    if turns == [] then -1
    else
      var last := |turns| - 1;
      if turns[last].visible && turns[last].calls != {} then last else NewestFileTurn(turns[..last])
  }

  function NewestCalls(turns: seq<FileTurn>): set<string> {
    if NewestFileTurn(turns) < 0 then {} else turns[NewestFileTurn(turns)].calls
  }

  /** `_newest_file_tool_turn_call_ids` */
  method NewestFileTurnCalls(turns: seq<FileTurn>) returns (calls: set<string>)
    ensures calls == NewestCalls(turns)
  {
    var i := |turns| - 1;
    while i >= 0
      invariant -1 <= i < |turns|
      invariant forall k :: i < k < |turns| ==> !(turns[k].visible && turns[k].calls != {})
    {
      if turns[i].visible && turns[i].calls != {} {
        return turns[i].calls;
      }
      i := i - 1;
    }
    calls := {};
  }

  /** The failing case: a search hit two files, a read of a third followed, and one of the two is gone. The
      search is folded though its turn's hits in the missing file are shown nowhere. */
  lemma UnreadableHitWithheld(legacy: bool)
    ensures var hit := Observation("search", Search, 0);
      var seen := [Sighting("a", hit), Sighting("b", hit), Sighting("c", Observation("read", Read, 1))];
      var newest := NewestCalls([FileTurn(true, {"search"}), FileTurn(true, {"read"})]);
      var s, all := Settings(FOLDED_FILE_MIN_OBSERVATIONS, legacy, newest), Accumulated(seen, p => p != "b");
      var view := (a: Accumulator) => "lines of " + a.path;
      && newest == {"read"}
      && (forall id :: IsFolded(all, s, newest, view, id) <==> id == "search")
      && Saw(seen, "search", "b")
      && !ShowsFile(Mentioning(Renderable(Selected(all, s), view), {"search"}), "b")
  {
    var hit, read := Observation("search", Search, 0), Observation("read", Read, 1);
    var seen := [Sighting("a", hit), Sighting("b", hit), Sighting("c", read)];
    var turns := [FileTurn(true, {"search"}), FileTurn(true, {"read"})];
    NewestIsRead(turns);
    hide StableSort, NewestCalls;
    assert Saw(seen, "search", "b") by { assert seen[1] in seen; }
    var s := Settings(FOLDED_FILE_MIN_OBSERVATIONS, legacy, {"read"});
    TwoRecords(hit, read, p => p != "b");
    var a, c := Accumulator("a", [hit]), Accumulator("c", [read]);
    var view := (x: Accumulator) => "lines of " + x.path;
    OneCandidate(a, c, hit, read, s);
    OnlySearched(a, c, hit, s, view);
  }

  lemma NewestIsRead(turns: seq<FileTurn>)
    requires |turns| == 2 && turns[1] == FileTurn(true, {"read"})
    ensures NewestCalls(turns) == {"read"}
  {
    assert "read" in turns[1].calls;
  }

  lemma TwoRecords(hit: Observation, read: Observation, readable: string -> bool)
    requires readable("a") && !readable("b") && readable("c")
    ensures Accumulated([Sighting("a", hit), Sighting("b", hit), Sighting("c", read)], readable) ==
      [Accumulator("a", [hit]), Accumulator("c", [read])]
  {
    var one, two := [Sighting("a", hit)], [Sighting("a", hit), Sighting("b", hit)];
    var three := [Sighting("a", hit), Sighting("b", hit), Sighting("c", read)];
    assert one[..0] == [] && two[..1] == one && three[..2] == two;
    assert Accumulated(one, readable) == Recorded([], one[0]) == [Accumulator("a", [hit])];
    assert Accumulated(two, readable) == Accumulated(one, readable);
    assert [Accumulator("a", [hit])][1..] == [];
  }

  /** A file searched is a candidate; one that was read once, by a call of the newest file turn, is not. */
  lemma OneCandidate(a: Accumulator, c: Accumulator, hit: Observation, read: Observation, s: Settings)
    requires a.observations == [hit] && hit.tool == Search && c.observations == [read] && read.tool == Read
    requires s.minObservations == FOLDED_FILE_MIN_OBSERVATIONS && read.callId in s.newest
    ensures Candidates([a, c], s) == [a]
  {
    SearchedFileRenders(a, s, hit);
    assert [read][1..] == [];
    assert ReadSearch(c.observations) == [read];
    assert !ShouldRender(c, s);
    assert [a, c][1..] == [c] && [c][1..] == [];
    assert Candidates([c], s) == [];
  }

  lemma OnlySearched(a: Accumulator, c: Accumulator, hit: Observation, s: Settings, view: Accumulator -> string)
    requires Candidates([a, c], s) == [a] && a.observations == [hit] && hit.tool == Search && view(a) != ""
    requires hit.callId !in s.newest
    ensures forall id :: IsFolded([a, c], s, s.newest, view, id) <==> id == hit.callId
    ensures forall p :: ShowsFile(Mentioning(Renderable(Selected([a, c], s), view), {hit.callId}), p) ==> p == a.path
  {
    assert hit in a.observations && Observes(a, hit.callId);
    assert [a][1..] == [];
    assert StableSort([a], MoreRecent) == [a];
    assert Renderable([a], view) == [a];
    hide Candidates, StableSort, Renderable;
    assert a in Candidates([a, c], s) && a.path in Paths([a]);
  }
}
