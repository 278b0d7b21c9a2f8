// One request end to end: the planner's replacements, the folded results and the budget together.
module Requests {
  import opened Compaction
  import opened Evidence
  import opened History
  import opened Ledger
  import opened Optional
  import opened Projection
  import opened Sorting
  import opened Transcript
  import Folding
  import ObservationPlanner
  import Observations

  // ----- reading the history for the planner

  /** The planner's view of a turn's calls, flag by flag. */
  method ReadTools(t: TurnNode, kind: string -> Observations.Tool, ghost v: Flags) returns (calls: seq<ObservationPlanner.StoredCall>)
    requires TurnMatches(t, v)
    ensures calls == StoredTools(t.tools, v, kind)
  {
    calls := [];
    for k := 0 to |t.tools|
      invariant |calls| == k
      invariant forall j :: 0 <= j < k ==> calls[j] == ObservationPlanner.StoredCall(AsCall(t.tools[j], kind), t.tools[j] in v.tools)
    {
      assert t.tools[k] in t.tools;
      calls := calls + [ObservationPlanner.StoredCall(AsCall(t.tools[k], kind), t.tools[k].detailCollapsed)];
    }
  }

  method ReadNodes(nodes: seq<Node>, kind: string -> Observations.Tool, ghost v: Flags) returns (r: seq<ObservationPlanner.Node>)
    requires forall i :: 0 <= i < |nodes| ==> NodeMatches(nodes[i], v)
    ensures r == ForPlanner(nodes, v, kind)
  {
    r := [];
    for i := 0 to |nodes|
      invariant |r| == i
      invariant forall k :: 0 <= k < |nodes| ==> NodeMatches(nodes[k], v)
      invariant forall k :: 0 <= k < i ==> r[k] == ForPlanner(nodes, v, kind)[k]
    {
      assert NodeMatches(nodes[i], v);
      match nodes[i] {
        case Turn(t) =>
          var calls := ReadTools(t, kind, v);
          r := r + [ObservationPlanner.Turn(t.collapsed, calls)];
        case _ =>
          r := r + [ObservationPlanner.NotATurn];
      }
    }
  }

  // ----- results that must stay

  predicate IsIncompleteSearch(reading: Reading, c: Observations.Call) {
    Observations.IsSearch(c) && !reading.world.searchComplete(c.content)
  }

  /** The calls a request protects: incomplete searches, where complete ones may give way to reads. */
  function ProtectedIds(reading: Reading, calls: seq<Observations.Call>): set<string> {
    if reading.policy == Observations.CompleteCurrentRead then
      set c | c in calls && IsIncompleteSearch(reading, c) :: c.id
    else {}
  }

  /** A call is protected if and only if complete searches may give way to reads and it is a successful search whose
      result is not complete. */
  lemma ProtectedIff(reading: Reading, calls: seq<Observations.Call>, id: string)
    ensures id in ProtectedIds(reading, calls) <==>
      && reading.policy == Observations.CompleteCurrentRead
      && exists c :: c in calls && c.id == id && !c.isError && c.tool == Observations.SearchFiles
           && !reading.world.searchComplete(c.content)
  {
  }

  // ----- the whole projection

  /** `project_history_for_provider`; nothing where resolving the budget raises. */
  method ProjectForProvider<V(==, !new)>(history: HistoryTree, reading: Reading, around: Surroundings<V>, policy: BudgetPolicy,
                                         window: Option<int>, overhead: nat, weight: nat -> real)
    returns (o: Option<Outcome<V>>, replacements: seq<Replacement>, steps: seq<PlanStep>)
    requires Proper(history.nodes) && policy.Valid()
    ensures o == None <==> Resolve(policy, window, overhead) == None
    ensures var nodes, v := history.nodes, View(history.nodes);
      var ids := ProtectedIds(reading, Visible(nodes, v, reading.kind));
      o.Some? ==>
        && Offered(steps, nodes, ids, weight, v) && SortedBy(steps, GoesFirst)
        && WellPaired(o.value.rendering.messages)
        && Projected(o.value, nodes, v, around, replacements, ids, steps, Resolve(policy, window, overhead).value.historyTokens)
        && (UniqueCallIds(nodes) ==> replacements == PlannedReplacements(nodes, v, reading))
  {
    hide *;
    var nodes := history.nodes;
    ghost var v := View(nodes);
    ObjectsAllocated(nodes);
    var budget := Resolve(policy, window, overhead);
    if budget.None? {
      return None, [], [];
    }
    ViewMatches(nodes);
    var read := ReadNodes(nodes, reading.kind, v);
    var calls := ObservationPlanner.VisibleCalls(read);
    VisibleIs(nodes, v, reading.kind);
    var planned := ObservationPlanner.PlanFileObservationReplacements(reading.world, reading.policy, read);
    var ids := ProtectedIds(reading, calls);
    var outcome;
    replacements := ForRequests(planned, reading.note);
    outcome, steps := ProjectHistory(history, around, replacements, ids, budget.value.historyTokens, weight);
    if UniqueCallIds(nodes) {
      UniqueVisible(nodes, v, reading.kind);
      PlannedIs(nodes, v, reading);
    }
    o := Some(outcome);
  }

  lemma VisibleIs(nodes: seq<Node>, v: Flags, kind: string -> Observations.Tool)
    ensures Visible(nodes, v, kind) == ObservationPlanner.VisibleCalls(ForPlanner(nodes, v, kind))
  {
  }

  lemma PlannedIs(nodes: seq<Node>, v: Flags, reading: Reading)
    ensures var calls := Visible(nodes, v, reading.kind);
      PlannedReplacements(nodes, v, reading) ==
        ForRequests(Observations.Planned(reading.world, reading.policy, calls, |calls|), reading.note)
  {
  }

  /** With a known window, a request whose messages after replacing and folding cost at most the maximum, and
      with the overhead at most the soft share of the window, collapses nothing of its own. */
  lemma WithinShareUntouched<V(!new)>(o: Outcome<V>, nodes: seq<Node>, v: Flags, around: Surroundings<V>, policy: BudgetPolicy,
                                      window: int, overhead: nat, replacements: seq<Replacement>, ids: set<string>,
                                      steps: seq<PlanStep>)
    requires policy.Valid() && window > 0
    requires Projected(o, nodes, v, around, replacements, ids, steps, Resolve(policy, Some(window), overhead).value.historyTokens)
    requires var cost := CostOf(nodes, v, around)(RequiredPlan(ids, replacements));
      cost <= policy.maximumTokens && (cost + overhead) as real <= window as real * policy.softFraction
    ensures o.rendering == RenderingOf(nodes, v, around, RequiredPlan(ids, replacements))
    ensures var last := FinalPlan(nodes, v, around, replacements, ids, steps, Resolve(policy, Some(window), overhead).value.historyTokens);
      last.collapsedTurns == {} && last.detailCollapsed == {}
  {
    ResolvesToLargest(policy, window, overhead, CostOf(nodes, v, around)(RequiredPlan(ids, replacements)));
    hide CostOf, Resolve;
    FittingIsUntouched(nodes, v, around, replacements, ids, steps, Resolve(policy, Some(window), overhead).value.historyTokens);
  }

  // ----- what the final request still says

  datatype FoldingInput = FoldingInput(all: seq<Folding.Accumulator>, settings: Folding.Settings, protected: set<string>,
                                       view: Folding.Accumulator -> string)

  /** Under every plan results are folded as `Folding` has it, and the plan's protected calls count as
      protected there. */
  ghost predicate FoldsBy<V(!new)>(around: Surroundings<V>, input: RenderPlan -> FoldingInput) {
    && (forall plan: RenderPlan :: plan.protectedObservations <= input(plan).protected)
    && (forall plan: RenderPlan, id :: id in around.folded(plan) <==> FoldedBy(input(plan), id))
  }

  ghost predicate FoldedBy(f: FoldingInput, id: string) {
    Folding.IsFolded(f.all, f.settings, f.protected, f.view, id)
  }

  lemma ProtectedNotFolded<V(!new)>(around: Surroundings<V>, input: RenderPlan -> FoldingInput, plan: RenderPlan)
    requires FoldsBy(around, input)
    ensures around.folded(plan) !! plan.protectedObservations
  {
    forall id | id in plan.protectedObservations ensures id !in around.folded(plan) {
      assert id in input(plan).protected && !FoldedBy(input(plan), id);
    }
  }

  /** What the loop leaves of the plan it starts from. */
  lemma FinalPlanKeeps<V>(nodes: seq<Node>, v: Flags, around: Surroundings<V>, replacements: seq<Replacement>,
                          ids: set<string>, weight: nat -> real, steps: seq<PlanStep>, budget: nat)
    requires Offered(steps, nodes, ids, weight, v)
    ensures var last := FinalPlan(nodes, v, around, replacements, ids, steps, budget);
      last.replacements == replacements && last.protectedObservations == ids && Spares(last, nodes, ids, v)
  {
    var required := RequiredPlan(ids, replacements);
    assert [] + replacements == replacements;
    WalkAdds(steps, 0, |steps|, required, CostOf(nodes, v, around), budget);
    WalkSpares(steps, |steps|, required, CostOf(nodes, v, around), budget, nodes, ids, weight, v);
  }

  /** An incomplete search gives way only to one with the same result. */
  lemma {:induction false} IncompleteSurvivor(reading: Reading, calls: seq<Observations.Call>, p: nat)
    requires p < |calls| && IsIncompleteSearch(reading, calls[p])
    ensures var j := Observations.Survivor(reading.world, reading.policy, calls, p);
      IsIncompleteSearch(reading, calls[j]) && calls[j].content == calls[p].content
    decreases |calls| - p
  {
    var next := Observations.Superseder(reading.world, reading.policy, calls, p);
    if next != p {
      assert Observations.SameSearch(reading.world, calls[p], calls[next]);
      IncompleteSurvivor(reading, calls, next);
    }
  }

  /** The request says the result of the visible call at this place as it is stored. */
  ghost predicate SaysWhole(messages: seq<Message>, nodes: seq<Node>, v: Flags, i: nat, k: nat) {
    StandsAt(nodes, v, i, k) && Says(messages, nodes[i].turn, k, v, nodes[i].turn.tools[k].result.content)
  }

  /** Whatever the budget, the text of every visible incomplete search is in the request, word for word:
      at the call itself or at a later search with the same result. */
  lemma IncompleteSearchesStay<V(!new)>(reading: Reading, nodes: seq<Node>, v: Flags, around: Surroundings<V>,
                                        input: RenderPlan -> FoldingInput, weight: nat -> real, steps: seq<PlanStep>,
                                        budget: nat, o: Outcome<V>, p: nat)
    requires Proper(nodes) && UniqueCallIds(nodes) && FoldsBy(around, input) && reading.policy == Observations.CompleteCurrentRead
    requires var calls := Visible(nodes, v, reading.kind);
      && p < |calls| && IsIncompleteSearch(reading, calls[p])
      && Offered(steps, nodes, ProtectedIds(reading, calls), weight, v)
      && Projected(o, nodes, v, around, PlannedReplacements(nodes, v, reading), ProtectedIds(reading, calls), steps, budget)
    ensures exists i: nat, k: nat ::
      SaysWhole(o.rendering.messages, nodes, v, i, k)
      && nodes[i].turn.tools[k].result.content == Visible(nodes, v, reading.kind)[p].content
  {
    var calls := Visible(nodes, v, reading.kind);
    var ids, replacements := ProtectedIds(reading, calls), PlannedReplacements(nodes, v, reading);
    var plan := FinalPlan(nodes, v, around, replacements, ids, steps, budget);
    var folded, j := around.folded(plan), Observations.Survivor(reading.world, reading.policy, calls, p);
    IncompleteSurvivor(reading, calls, p);
    FinalPlanKeeps(nodes, v, around, replacements, ids, weight, steps, budget);
    ProtectedNotFolded(around, input, plan);
    assert calls[j].id in ids;
    SearchNotStale(reading, calls, p);
    EvidenceReachesRequest(reading, nodes, v, plan, folded, around.foldedNote, around.context(plan), p);
    hide *;
    RenderedFinally(o, nodes, v, around, replacements, ids, steps, budget);
    var i: nat, k: nat :| EndsAt(reading, nodes, v, plan, folded, around.foldedNote, o.rendering.messages, p, i, k);
    EndsAtSurvivor(reading, nodes, v, plan, folded, around.foldedNote, o.rendering.messages, p, i, k);
    GuardedCallKept(nodes, v, plan, ids, i, k);
    FateOfKept(o.rendering.messages, nodes, v, plan, folded, around.foldedNote, i, k);
  }

  lemma SearchNotStale(reading: Reading, calls: seq<Observations.Call>, p: nat)
    requires p < |calls| && Observations.IsSearch(calls[p])
    ensures NotStale(reading, calls, p)
  {
  }

  lemma RenderedFinally<V(!new)>(o: Outcome<V>, nodes: seq<Node>, v: Flags, around: Surroundings<V>, replacements: seq<Replacement>,
                                 ids: set<string>, steps: seq<PlanStep>, budget: nat)
    requires Projected(o, nodes, v, around, replacements, ids, steps, budget)
    ensures var plan := FinalPlan(nodes, v, around, replacements, ids, steps, budget);
      o.rendering.messages ==
        WithContext(Rendered(nodes, |nodes|, v, plan, around.folded(plan), around.foldedNote), around.context(plan))
  {
  }

  lemma EndsAtSurvivor(reading: Reading, nodes: seq<Node>, v: Flags, plan: RenderPlan, folded: set<string>,
                       foldedNote: ToolCallNode -> string, messages: seq<Message>, p: nat, i: nat, k: nat)
    requires EndsAt(reading, nodes, v, plan, folded, foldedNote, messages, p, i, k)
    ensures StandsAt(nodes, v, i, k) && p < |Visible(nodes, v, reading.kind)|
    ensures i < |nodes| && nodes[i].Turn? && k < |nodes[i].turn.tools|
    ensures var last := Visible(nodes, v, reading.kind)[Observations.Survivor(reading.world, reading.policy, Visible(nodes, v, reading.kind), p)];
      nodes[i].turn.tools[k].toolCall.callId == last.id && nodes[i].turn.tools[k].result.content == last.content
    ensures Fate(messages, nodes[i].turn, i, k, v, plan, folded, foldedNote)
  {
  }

  /** A protected call's turn is guarded, and its name is its own. */
  lemma GuardedCallKept(nodes: seq<Node>, v: Flags, plan: RenderPlan, ids: set<string>, i: nat, k: nat)
    requires UniqueCallIds(nodes) && Spares(plan, nodes, ids, v)
    requires i < |nodes| && nodes[i].Turn? && k < |nodes[i].turn.tools| && nodes[i].turn.tools[k].toolCall.callId in ids
    ensures i !in plan.collapsedTurns && nodes[i].turn.tools[k].toolCall.callId !in plan.detailCollapsed
  {
    assert Guarded(nodes, i, ids);
    UniqueHaveNoNamesake(nodes, GuardedNodes(nodes, ids), v, i, k);
  }

  lemma FateOfKept(messages: seq<Message>, nodes: seq<Node>, v: Flags, plan: RenderPlan, folded: set<string>,
                   foldedNote: ToolCallNode -> string, i: nat, k: nat)
    requires StandsAt(nodes, v, i, k) && Fate(messages, nodes[i].turn, i, k, v, plan, folded, foldedNote)
    requires Kept(plan, folded, i, nodes[i].turn.tools[k].toolCall.callId)
    ensures SaysWhole(messages, nodes, v, i, k)
  {
  }
}
