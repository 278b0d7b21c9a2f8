// Fitting one request into its token budget: the candidates, and the walk over them.
module Projection {
  import opened Compaction
  import opened History
  import opened Protection
  import opened Sorting
  import opened Transcript

  /** A request-local collapse: one call's detail, or a whole turn. */
  datatype PlanStep =
    | CollapseDetail(nodeIndex: nat, toolIndex: nat, effectiveSalience: real, callId: string)
    | CollapseWholeTurn(nodeIndex: nat, effectiveSalience: real)
  {
    function Salience(): real {
      if CollapseWholeTurn? then effectiveSalience + TURN_SALIENCE_BUMP else effectiveSalience
    }

    function Position(): int {
      if CollapseDetail? then toolIndex else -1
    }

    function Apply(plan: RenderPlan): RenderPlan {
      match this
      case CollapseDetail(_, _, _, id) => plan.(detailCollapsed := plan.detailCollapsed + {id})
      case CollapseWholeTurn(i, _) => plan.(collapsedTurns := plan.collapsedTurns + {i})
    }

    predicate IsNoOp(plan: RenderPlan) {
      match this
      case CollapseDetail(i, _, _, id) => i in plan.collapsedTurns || id in plan.detailCollapsed
      case CollapseWholeTurn(i, _) => i in plan.collapsedTurns
    }
  }

  /** Lexicographic order of salience, node and position. */
  predicate GoesFirst(a: PlanStep, b: PlanStep) {
    || a.Salience() < b.Salience()
    || (a.Salience() == b.Salience()
        && (a.nodeIndex < b.nodeIndex || (a.nodeIndex == b.nodeIndex && a.Position() <= b.Position())))
  }

  // ----- the walk

  /** The plan after one step was considered: kept as it was unless the step lowers the cost. */
  function Considered(step: PlanStep, plan: RenderPlan, cost: RenderPlan -> nat): RenderPlan {
    if step.IsNoOp(plan) || cost(step.Apply(plan)) >= cost(plan) then plan else step.Apply(plan)
  }

  /** The plan after the first n steps; once within budget, nothing more happens. */
  function Walk(steps: seq<PlanStep>, n: nat, plan: RenderPlan, cost: RenderPlan -> nat, budget: int): RenderPlan
    requires n <= |steps|
  {
    if n == 0 then plan
    else
      var before := Walk(steps, n - 1, plan, cost, budget);
      if cost(before) <= budget then before else Considered(steps[n - 1], before, cost)
  }

  /** Every decision of the first plan is in the second. */
  ghost predicate Extends(p: RenderPlan, q: RenderPlan) {
    && p.replacements == q.replacements && p.foldOlder == q.foldOlder && p.protectedObservations == q.protectedObservations
    && p.detailCollapsed <= q.detailCollapsed && p.collapsedTurns <= q.collapsedTurns
  }

  /** Walking on only adds decisions, never costs, and what it adds is named by the steps. */
  lemma {:induction false} WalkAdds(steps: seq<PlanStep>, m: nat, n: nat, plan: RenderPlan, cost: RenderPlan -> nat, budget: int)
    requires m <= n <= |steps|
    ensures var p, q := Walk(steps, m, plan, cost, budget), Walk(steps, n, plan, cost, budget);
      && Extends(p, q)
      && cost(q) <= cost(p)
      && (p == q || cost(q) < cost(p))
      && (forall i :: i in q.collapsedTurns && i !in p.collapsedTurns ==> CollapsesTurn(steps[m..n], i))
      && (forall id :: id in q.detailCollapsed && id !in p.detailCollapsed ==> CollapsesDetail(steps[m..n], id))
    decreases n - m
  {
    if m < n {
      WalkAdds(steps, m, n - 1, plan, cost, budget);
      MoreSteps(steps, m, n);
      hide CollapsesTurn, CollapsesDetail;
    }
  }

  ghost predicate CollapsesTurn(steps: seq<PlanStep>, i: nat) {
    exists k :: 0 <= k < |steps| && steps[k].CollapseWholeTurn? && steps[k].nodeIndex == i
  }

  ghost predicate CollapsesDetail(steps: seq<PlanStep>, id: string) {
    exists k :: 0 <= k < |steps| && steps[k].CollapseDetail? && steps[k].callId == id
  }

  lemma StepsInMore(a: seq<PlanStep>, b: seq<PlanStep>)
    ensures forall i :: CollapsesTurn(a, i) || CollapsesTurn(b, i) ==> CollapsesTurn(a + b, i)
    ensures forall id :: CollapsesDetail(a, id) || CollapsesDetail(b, id) ==> CollapsesDetail(a + b, id)
  {
    assert forall k :: 0 <= k < |a| ==> (a + b)[k] == a[k];
    assert forall k :: 0 <= k < |b| ==> (a + b)[|a| + k] == b[k];
  }

  lemma MoreSteps(steps: seq<PlanStep>, m: nat, n: nat)
    requires m < n <= |steps|
    ensures forall i :: CollapsesTurn(steps[m..n - 1], i) ==> CollapsesTurn(steps[m..n], i)
    ensures forall id :: CollapsesDetail(steps[m..n - 1], id) ==> CollapsesDetail(steps[m..n], id)
    ensures steps[n - 1].CollapseWholeTurn? ==> CollapsesTurn(steps[m..n], steps[n - 1].nodeIndex)
    ensures steps[n - 1].CollapseDetail? ==> CollapsesDetail(steps[m..n], steps[n - 1].callId)
  {
    assert [steps[n - 1]][0] == steps[n - 1];
    assert steps[m..n] == steps[m..n - 1] + [steps[n - 1]];
    StepsInMore(steps[m..n - 1], [steps[n - 1]]);
  }

  /** Within budget, or every step is in the final plan, moot there, or was rejected at its turn
      because it would not have lowered the cost. */
  lemma WalkExhausts(steps: seq<PlanStep>, k: nat, plan: RenderPlan, cost: RenderPlan -> nat, budget: int)
    requires k < |steps|
    ensures var last, at := Walk(steps, |steps|, plan, cost, budget), Walk(steps, k, plan, cost, budget);
      || cost(last) <= budget
      || steps[k].IsNoOp(last)
      || cost(steps[k].Apply(at)) >= cost(at)
  {
    WalkAdds(steps, k, |steps|, plan, cost, budget);
    WalkAdds(steps, k + 1, |steps|, plan, cost, budget);
  }

  /** A step is taken if and only if the request is over budget, the step is not moot and it lowers the cost. */
  lemma TakenIff(steps: seq<PlanStep>, k: nat, plan: RenderPlan, cost: RenderPlan -> nat, budget: int)
    requires k < |steps|
    ensures var at, next := Walk(steps, k, plan, cost, budget), Walk(steps, k + 1, plan, cost, budget);
      if cost(at) > budget && !steps[k].IsNoOp(at) && cost(steps[k].Apply(at)) < cost(at) then next == steps[k].Apply(at) != at
      else next == at
  {
  }

  /** The step a later one was taken after: taken before it, moot in the end, or no saving when its turn came. */
  lemma EarlierSettled(steps: seq<PlanStep>, j: nat, k: nat, plan: RenderPlan, cost: RenderPlan -> nat, budget: int)
    requires j < k < |steps|
    requires Walk(steps, k + 1, plan, cost, budget) != Walk(steps, k, plan, cost, budget)
    ensures var at, last := Walk(steps, j, plan, cost, budget), Walk(steps, k, plan, cost, budget);
      steps[j].IsNoOp(last) || cost(steps[j].Apply(at)) >= cost(at)
  {
    WalkAdds(steps, j, k, plan, cost, budget);
    WalkAdds(steps, j + 1, k, plan, cost, budget);
    TakenIff(steps, j, plan, cost, budget);
    TakenIff(steps, k, plan, cost, budget);
  }

  /** Once within budget the walk stands still. */
  lemma {:induction false} WalkStops(steps: seq<PlanStep>, m: nat, n: nat, plan: RenderPlan, cost: RenderPlan -> nat, budget: int)
    requires m <= n <= |steps| && cost(Walk(steps, m, plan, cost, budget)) <= budget
    ensures Walk(steps, n, plan, cost, budget) == Walk(steps, m, plan, cost, budget)
    decreases n - m
  {
    if m < n { WalkStops(steps, m, n - 1, plan, cost, budget); }
  }

  // ----- the steps a history offers

  predicate HasProtectedCall(n: Node, ids: set<string>) {
    n.Turn? && exists k :: 0 <= k < |n.turn.tools| && n.turn.tools[k].toolCall.callId in ids
  }

  /** Nodes a request never collapses. */
  predicate Guarded(nodes: seq<Node>, i: nat, ids: set<string>)
    requires i < |nodes|
  {
    IsProtected(nodes, i, DEFAULT_PROTECTED_TAIL_NODES, DEFAULT_PROTECTED_TAIL_TOOL_CALLS) || HasProtectedCall(nodes[i], ids)
  }

  function GuardedNodes(nodes: seq<Node>, ids: set<string>): set<nat> {
    set i: nat | i < |nodes| && Guarded(nodes, i, ids)
  }

  /** `_projection_protected_indices` */
  method GuardedIndices(nodes: seq<Node>, ids: set<string>) returns (r: set<nat>)
    ensures r == GuardedNodes(nodes, ids)
  {
    hide IsProtected, HasProtectedCall;
    r := ProtectedIndices(nodes, DEFAULT_PROTECTED_TAIL_NODES, DEFAULT_PROTECTED_TAIL_TOOL_CALLS);
    ghost var base := r;
    for i := 0 to |nodes|
      invariant forall k: nat :: k in r <==> k in base || (k < i && HasProtectedCall(nodes[k], ids))
    {
      if HasProtectedCall(nodes[i], ids) {
        r := r + {i};
      }
    }
  }

  /** The step collapses something of an unguarded, expanded turn, saves tokens in the stored form,
      and is as salient as what it collapses, decayed by age. */
  ghost predicate StepFor(s: PlanStep, nodes: seq<Node>, guarded: set<nat>, weight: nat -> real, v: Flags) {
    && s.nodeIndex < |nodes| && s.nodeIndex !in guarded && nodes[s.nodeIndex].Turn?
    && StepOfTurn(s, nodes[s.nodeIndex].turn, weight(|nodes| - 1 - s.nodeIndex), v)
  }

  ghost predicate StepOfTurn(s: PlanStep, t: TurnNode, weight: real, v: Flags) {
    && t !in v.turns
    && match s
       case CollapseDetail(_, j, e, id) =>
         && j < |t.tools| && ToolCollapsible(t.tools[j], v)
         && e == Decayed(t.tools[j].salience, weight) && id == t.tools[j].toolCall.callId
       case CollapseWholeTurn(_, e) => TurnCollapsible(t, v) && e == Decayed(t.salience, weight)
  }

  /** The steps are exactly those of the nodes before i. */
  ghost predicate OfferedUpTo(steps: seq<PlanStep>, nodes: seq<Node>, guarded: set<nat>, weight: nat -> real, v: Flags, i: nat) {
    forall s :: s in steps <==> s.nodeIndex < i && StepFor(s, nodes, guarded, weight, v)
  }

  /** The steps of one turn: its collapsible calls, then the turn itself. */
  method TurnSteps(t: TurnNode, i: nat, weight: real, ghost v: Flags) returns (steps: seq<PlanStep>)
    requires TurnMatches(t, v) && t !in v.turns
    ensures forall s :: s in steps <==> s.nodeIndex == i && StepOfTurn(s, t, weight, v)
  {
    steps := DetailSteps(t, i, weight, v);
    var cost := TurnTokenCost(t, v);
    if cost > t.CollapsedTokenCost() {
      steps := steps + [CollapseWholeTurn(i, Decayed(t.salience, weight))];
    }
  }

  method DetailSteps(t: TurnNode, i: nat, weight: real, ghost v: Flags) returns (steps: seq<PlanStep>)
    requires TurnMatches(t, v) && t !in v.turns
    ensures forall s :: s in steps <==> s.CollapseDetail? && s.nodeIndex == i && StepOfTurn(s, t, weight, v)
  {
    hide Decayed;
    steps := [];
    for j := 0 to |t.tools|
      invariant forall s :: s in steps <==>
        s.CollapseDetail? && s.nodeIndex == i && s.toolIndex < j && StepOfTurn(s, t, weight, v)
    {
      var x := t.tools[j];
      assert x in t.tools;
      if !x.detailCollapsed && x.ExpandedTokenCost() > x.CollapsedTokenCost() {
        steps := steps + [CollapseDetail(i, j, Decayed(x.salience, weight), x.toolCall.callId)];
      }
    }
  }

  /** `_projection_candidates` */
  method ProjectionSteps(nodes: seq<Node>, guarded: set<nat>, weight: nat -> real, ghost v: Flags) returns (steps: seq<PlanStep>)
    requires forall i :: 0 <= i < |nodes| ==> NodeMatches(nodes[i], v)
    ensures OfferedUpTo(steps, nodes, guarded, weight, v, |nodes|)
    ensures SortedBy(steps, GoesFirst)
  {
    hide StepOfTurn, TurnMatches;
    steps := [];
    for i := 0 to |nodes|
      invariant OfferedUpTo(steps, nodes, guarded, weight, v, i)
      invariant forall k :: 0 <= k < |nodes| ==> NodeMatches(nodes[k], v)
    {
      assert NodeMatches(nodes[i], v);
      if i !in guarded && nodes[i].Turn? {
        var t := nodes[i].turn;
        CollapsedIsStored(t, v);
        if !t.collapsed {
          var added := TurnSteps(t, i, weight(|nodes| - 1 - i), v);
          steps := steps + added;
        }
      }
    }
    GoesFirstOrders(steps);
    SameElements(steps, GoesFirst);
    steps := StableSort(steps, GoesFirst);
  }

  lemma CollapsedIsStored(t: TurnNode, v: Flags)
    requires TurnMatches(t, v)
    ensures t.collapsed <==> t in v.turns
    ensures t in v.turns ==> forall s, weight :: !StepOfTurn(s, t, weight, v)
  {
  }

  lemma GoesFirstOrders(steps: seq<PlanStep>)
    ensures SortedBy(StableSort(steps, GoesFirst), GoesFirst)
  {
    assert TotalPreorder(steps, GoesFirst);
    hide GoesFirst;
    SortSorts(steps, GoesFirst);
  }

  /** What a step weighs: its decayed salience, a whole turn slightly more. */
  function Weighs(step: PlanStep): real {
    match step
    case CollapseDetail(_, _, e, _) => e
    case CollapseWholeTurn(_, e) => e + 0.001
  }

  /** Steps come in the order of their weights; of equal ones the older node's first, and of one node's the turn itself
      before its calls, and those in order. */
  lemma InOrder(steps: seq<PlanStep>, j: nat, k: nat)
    requires SortedBy(steps, GoesFirst) && j < k < |steps|
    ensures var a, b := steps[j], steps[k];
      && Weighs(a) <= Weighs(b)
      && (Weighs(a) == Weighs(b) ==> a.nodeIndex <= b.nodeIndex)
      && (Weighs(a) == Weighs(b) && a.nodeIndex == b.nodeIndex && b.CollapseWholeTurn? ==> a.CollapseWholeTurn?)
      && (Weighs(a) == Weighs(b) && a.nodeIndex == b.nodeIndex && a.CollapseDetail? && b.CollapseDetail? ==>
            a.toolIndex <= b.toolIndex)
  {
    assert GoesFirst(steps[j], steps[k]);
  }

  // ----- what the walk leaves alone

  /** Call identifiers are unique in the history. */
  ghost predicate UniqueCallIds(nodes: seq<Node>) {
    forall i, j, x, y ::
      (&& 0 <= i < |nodes| && 0 <= j < |nodes| && nodes[i].Turn? && nodes[j].Turn?
       && 0 <= x < |nodes[i].turn.tools| && 0 <= y < |nodes[j].turn.tools|
       && nodes[i].turn.tools[x].toolCall.callId == nodes[j].turn.tools[y].toolCall.callId) ==> i == j && x == y
  }

  /** No guarded turn is collapsed. */
  lemma WalkSparesGuarded(steps: seq<PlanStep>, n: nat, plan: RenderPlan, cost: RenderPlan -> nat, budget: int,
                          nodes: seq<Node>, guarded: set<nat>, weight: nat -> real, v: Flags, i: nat)
    requires n <= |steps| && i in guarded && plan.collapsedTurns == {}
    requires OfferedUpTo(steps, nodes, guarded, weight, v, |nodes|)
    ensures i !in Walk(steps, n, plan, cost, budget).collapsedTurns
  {
    WalkAdds(steps, 0, n, plan, cost, budget);
    assert forall k :: 0 <= k < n ==> steps[0..n][k] in steps;
  }

  /** An unguarded, expanded turn has a collapsible call of this name. */
  ghost predicate HasNamesake(nodes: seq<Node>, guarded: set<nat>, v: Flags, id: string) {
    exists j: nat, y: nat ::
      && j < |nodes| && j !in guarded && nodes[j].Turn? && nodes[j].turn !in v.turns
      && y < |nodes[j].turn.tools| && ToolCollapsible(nodes[j].turn.tools[y], v)
      && nodes[j].turn.tools[y].toolCall.callId == id
  }

  /** Whatever requests cost and may cost, calls of this name keep their detail. */
  ghost predicate NeverDetailCollapsed(steps: seq<PlanStep>, plan: RenderPlan, id: string) {
    forall cost: RenderPlan -> nat, budget: int, n: nat ::
      n <= |steps| ==> id !in Walk(steps, n, plan, cost, budget).detailCollapsed
  }

  lemma NamesakeIsOffered(steps: seq<PlanStep>, nodes: seq<Node>, guarded: set<nat>, weight: nat -> real, v: Flags, id: string)
    requires OfferedUpTo(steps, nodes, guarded, weight, v, |nodes|)
    ensures HasNamesake(nodes, guarded, v, id) <==> CollapsesDetail(steps, id)
  {
    if HasNamesake(nodes, guarded, v, id) {
      var j: nat, y: nat :|
        && j < |nodes| && j !in guarded && nodes[j].Turn? && nodes[j].turn !in v.turns
        && y < |nodes[j].turn.tools| && ToolCollapsible(nodes[j].turn.tools[y], v)
        && nodes[j].turn.tools[y].toolCall.callId == id;
      var s := CollapseDetail(j, y, Decayed(nodes[j].turn.tools[y].salience, weight(|nodes| - 1 - j)), id);
      assert StepFor(s, nodes, guarded, weight, v);
      assert s in steps;
    }
    if CollapsesDetail(steps, id) {
      var k :| 0 <= k < |steps| && steps[k].CollapseDetail? && steps[k].callId == id;
      assert steps[k] in steps;
      assert StepFor(steps[k], nodes, guarded, weight, v);
    }
  }

  /** A call, guarded or not, is sure to keep its detail if and only if no unguarded, expanded turn has a
      collapsible call of the same name: decisions name calls by identifier alone. */
  lemma KeepsDetailIff(steps: seq<PlanStep>, plan: RenderPlan, nodes: seq<Node>, guarded: set<nat>, weight: nat -> real,
                       v: Flags, id: string)
    requires OfferedUpTo(steps, nodes, guarded, weight, v, |nodes|)
    requires plan.collapsedTurns == {} && plan.detailCollapsed == {}
    ensures NeverDetailCollapsed(steps, plan, id) <==> !HasNamesake(nodes, guarded, v, id)
  {
    NamesakeIsOffered(steps, nodes, guarded, weight, v, id);
    hide OfferedUpTo, HasNamesake;
    if CollapsesDetail(steps, id) {
      SomeCostCollapses(steps, plan, id);
    } else {
      forall cost: RenderPlan -> nat, budget: int, n: nat | n <= |steps|
        ensures id !in Walk(steps, n, plan, cost, budget).detailCollapsed
      {
        WalkAdds(steps, 0, n, plan, cost, budget);
        assert forall k :: 0 <= k < n ==> steps[0..n][k] == steps[k];
        assert CollapsesDetail(steps[0..n], id) ==> CollapsesDetail(steps, id);
      }
    }
  }

  /** A cost that counts nothing but one call's detail. */
  function DetailPrice(id: string): RenderPlan -> nat {
    (p: RenderPlan) => if id in p.detailCollapsed then 0 else 1
  }

  /** A request that pays for this detail alone collapses it. */
  lemma SomeCostCollapses(steps: seq<PlanStep>, plan: RenderPlan, id: string)
    requires CollapsesDetail(steps, id) && plan.collapsedTurns == {} && plan.detailCollapsed == {}
    ensures !NeverDetailCollapsed(steps, plan, id)
  {
    var k :| 0 <= k < |steps| && steps[k].CollapseDetail? && steps[k].callId == id;
    NoTurnForDetail(steps, k, plan, id);
    assert id in Walk(steps, k + 1, plan, DetailPrice(id), 0).detailCollapsed;
  }

  lemma {:induction false} NoTurnForDetail(steps: seq<PlanStep>, n: nat, plan: RenderPlan, id: string)
    requires n <= |steps| && plan.collapsedTurns == {}
    ensures Walk(steps, n, plan, DetailPrice(id), 0).collapsedTurns == {}
  {
    if n > 0 { NoTurnForDetail(steps, n - 1, plan, id); }
  }

  /** With unique identifiers no guarded call has a namesake. */
  lemma UniqueHaveNoNamesake(nodes: seq<Node>, guarded: set<nat>, v: Flags, i: nat, x: nat)
    requires UniqueCallIds(nodes) && i < |nodes| && i in guarded && nodes[i].Turn? && x < |nodes[i].turn.tools|
    ensures !HasNamesake(nodes, guarded, v, nodes[i].turn.tools[x].toolCall.callId)
  {
  }
}
