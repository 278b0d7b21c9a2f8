// The provider view of a history for one request, with an account of every token gained or saved.
module Ledger {
  import opened Compaction
  import opened History
  import opened Integers
  import opened Optional
  import opened Projection
  import opened Sorting
  import opened Transcript

  // ----- the budget

  /** Fractions are in (0, 1]; the defaults do not exceed the maximums. */
  datatype BudgetPolicy = BudgetPolicy(defaultTokens: nat, maximumTokens: nat, softFraction: real, hardFraction: real) {
    predicate Valid() {
      && defaultTokens <= maximumTokens
      && 0.0 < softFraction <= hardFraction <= 1.0
    }
  }

  datatype Budget = Budget(historyTokens: nat, hardPromptTokens: Option<nat>)

  /** `resolve`: nothing for a window that is not positive, where the original raises. */
  function Resolve(policy: BudgetPolicy, window: Option<int>, overhead: nat): (r: Option<Budget>)
    requires policy.Valid()
    ensures r == None <==> window.Some? && window.value <= 0
    ensures r.Some? ==> r.value.historyTokens <= policy.maximumTokens
  {
    match window
    case None => Some(Budget(policy.defaultTokens, None))
    case Some(w) =>
      if w <= 0 then None
      else
        var relative := Max(0, Portion(w, policy.softFraction) - overhead);
        Some(Budget(if relative > policy.maximumTokens then policy.maximumTokens else relative,
                    Some(Portion(w, policy.hardFraction))))
  }

  function Portion(window: int, fraction: real): (r: nat)
    requires window > 0 && fraction > 0.0
  {
    PortionNotNegative(window, fraction);
    (window as real * fraction).Floor
  }

  lemma PortionNotNegative(window: int, fraction: real)
    requires window > 0 && fraction > 0.0
    ensures window as real * fraction >= 0.0
  {
  }

  lemma PortionGrows(window: int, a: real, b: real)
    requires window > 0 && 0.0 < a <= b
    ensures Portion(window, a) <= Portion(window, b)
  {
    assert window as real * a <= window as real * b;
  }

  /** A history within its budget fits, with the overhead, below the hard limit, unless the overhead
      alone is above the soft share. */
  lemma BudgetFitsPrompt(policy: BudgetPolicy, window: int, overhead: nat, history: nat)
    requires policy.Valid() && window > 0 && overhead <= Portion(window, policy.softFraction)
    requires history <= Resolve(policy, Some(window), overhead).value.historyTokens
    ensures history + overhead <= Resolve(policy, Some(window), overhead).value.hardPromptTokens.value
  {
    PortionGrows(window, policy.softFraction, policy.hardFraction);
  }

  /** Without a window the budget is the default, with no hard limit. For a window it is the largest one, up to
      the maximum, that stays with the overhead within the soft share, and 0 only when none does; the hard limit
      is the largest number of tokens within its share. */
  lemma ResolvesToLargest(policy: BudgetPolicy, window: int, overhead: nat, x: nat)
    requires policy.Valid()
    ensures Resolve(policy, None, overhead) == Some(Budget(policy.defaultTokens, None))
    ensures window > 0 ==>
      var b := Resolve(policy, Some(window), overhead);
      && b.Some? && b.value.hardPromptTokens.Some?
      && var h, limit := b.value.historyTokens, b.value.hardPromptTokens.value;
         && h <= policy.maximumTokens && (h > 0 ==> (h + overhead) as real <= window as real * policy.softFraction)
         && (x <= policy.maximumTokens && (x + overhead) as real <= window as real * policy.softFraction ==> x <= h)
         && (limit as real <= window as real * policy.hardFraction < (limit + 1) as real)
  {
    assert Resolve(policy, None, overhead) == Some(Budget(policy.defaultTokens, None));
    if window > 0 {
      var soft, hard := window as real * policy.softFraction, window as real * policy.hardFraction;
      ResolvedParts(policy, window, overhead);
      hide Resolve, Portion;
      LargestWithin(soft, overhead, policy.maximumTokens, x);
      LargestWithin(hard, 0, 0, 0);
      assert hard.Floor as real <= hard < (hard.Floor + 1) as real;
    }
  }

  lemma ResolvedParts(policy: BudgetPolicy, window: int, overhead: nat)
    requires policy.Valid() && window > 0
    ensures var soft, hard := window as real * policy.softFraction, window as real * policy.hardFraction;
      && soft.Floor >= 0 && hard.Floor >= 0
      && Resolve(policy, Some(window), overhead).Some?
      && var b := Resolve(policy, Some(window), overhead).value;
         && b.historyTokens == Min(policy.maximumTokens, Max(0, soft.Floor - overhead))
         && b.hardPromptTokens.Some? && b.hardPromptTokens.value == hard.Floor
  {
    PortionIs(window, policy.softFraction);
    PortionIs(window, policy.hardFraction);
    hide Portion;
  }

  lemma PortionIs(window: int, fraction: real)
    requires window > 0 && fraction > 0.0
    ensures Portion(window, fraction) == (window as real * fraction).Floor
  {
  }

  lemma LargestWithin(share: real, overhead: nat, maximum: nat, x: nat)
    ensures share.Floor as real <= share < (share.Floor + 1) as real
    ensures var h := Min(maximum, Max(0, share.Floor - overhead));
      && h <= maximum && (h > 0 ==> (h + overhead) as real <= share)
      && (x <= maximum && (x + overhead) as real <= share ==> x <= h)
  {
  }

  // ----- entries

  datatype Entry =
    | ResultReplaced(callId: string, stale: bool, superseding: Option<string>, before: nat, after: nat)
    | FileContextFolded(callIds: set<string>, before: nat, after: nat)
    | DetailCollapsed(callId: string, before: nat, after: nat)
    | TurnCollapsed(nodeIndex: nat, before: nat, after: nat)
  {
    function Savings(): nat { Max(0, before - after) }

    function Growth(): nat { Max(0, after - before) }
  }

  /** Each entry starts from the count the one before it ended with. */
  predicate Contiguous(entries: seq<Entry>, start: nat, end: nat) {
    if entries == [] then start == end
    else
      var last := entries[|entries| - 1];
      last.after == end && Contiguous(entries[..|entries| - 1], start, last.before)
  }

  function TotalSavings(entries: seq<Entry>): nat {
    if entries == [] then 0 else TotalSavings(entries[..|entries| - 1]) + entries[|entries| - 1].Savings()
  }

  function TotalGrowth(entries: seq<Entry>): nat {
    if entries == [] then 0 else TotalGrowth(entries[..|entries| - 1]) + entries[|entries| - 1].Growth()
  }

  /** The account balances. */
  lemma {:induction false} Balance(entries: seq<Entry>, start: nat, end: nat)
    requires Contiguous(entries, start, end)
    ensures start + TotalGrowth(entries) - TotalSavings(entries) == end
  {
    if entries != [] {
      Balance(entries[..|entries| - 1], start, entries[|entries| - 1].before);
    }
  }

  lemma OneMore(entries: seq<Entry>, e: Entry, start: nat)
    requires Contiguous(entries, start, e.before)
    ensures Contiguous(entries + [e], start, e.after)
  {
    assert (entries + [e])[..|entries|] == entries;
  }

  datatype Ledger = Ledger(baseline: nat, afterRequired: nat, final: nat, budget: nat, entries: seq<Entry>)

  /** The constructor's check: nothing where the original raises. */
  method CheckedLedger(baseline: nat, afterRequired: nat, final: nat, budget: nat, entries: seq<Entry>)
    returns (r: Option<Ledger>)
    ensures r.Some? <==> Contiguous(entries, baseline, final)
    ensures r.Some? ==> r.value == Ledger(baseline, afterRequired, final, budget, entries)
  {
    var expected := baseline;
    for i := 0 to |entries|
      invariant Contiguous(entries[..i], baseline, expected)
    {
      assert entries[..i + 1][..i] == entries[..i];
      if entries[i].before != expected {
        GapStays(entries, baseline, final, i, expected);
        return None;
      }
      expected := entries[i].after;
    }
    assert entries[..|entries|] == entries;
    if expected != final {
      EndMatches(entries, baseline, final, expected);
      return None;
    }
    r := Some(Ledger(baseline, afterRequired, final, budget, entries));
  }

  lemma {:induction false} GapStays(entries: seq<Entry>, start: nat, end: nat, i: nat, expected: nat)
    requires i < |entries| && Contiguous(entries[..i], start, expected) && entries[i].before != expected
    ensures !Contiguous(entries, start, end)
    decreases |entries|
  {
    var front, last := entries[..|entries| - 1], entries[|entries| - 1];
    if i < |entries| - 1 {
      assert front[..i] == entries[..i];
      GapStays(front, start, last.before, i, expected);
    } else {
      EndMatches(front, start, last.before, expected);
    }
  }

  lemma EndMatches(entries: seq<Entry>, start: nat, a: nat, b: nat)
    requires Contiguous(entries, start, b)
    ensures Contiguous(entries, start, a) <==> a == b
  {
  }

  // ----- rendering for a request

  /** What a request knows besides the history: which results it folds under a plan, the file context
      and visibility facts that go with them, and how a message is serialised. All of these read one
      snapshot of the files, so they are functions of the plan. */
  datatype Surroundings<V> = Surroundings(folded: RenderPlan -> set<string>, context: RenderPlan -> string,
                                          visibility: RenderPlan -> V, foldedNote: ToolCallNode -> string,
                                          payload: Message -> string)

  datatype Rendering<V> = Rendering(messages: seq<Message>, visibility: V, folded: set<string>)

  function RenderingOf<V>(nodes: seq<Node>, v: Flags, around: Surroundings<V>, plan: RenderPlan): Rendering<V> {
    var messages := Rendered(nodes, |nodes|, v, plan, around.folded(plan), around.foldedNote);
    Rendering(WithContext(messages, around.context(plan)), around.visibility(plan), around.folded(plan))
  }

  function TokensOf(messages: seq<Message>, payload: Message -> string): nat {
    if messages == [] then 0
    else TokensOf(messages[..|messages| - 1], payload) + EstimateTokens(payload(messages[|messages| - 1]))
  }

  function CostOf<V>(nodes: seq<Node>, v: Flags, around: Surroundings<V>): RenderPlan -> nat {
    plan => TokensOf(RenderingOf(nodes, v, around, plan).messages, around.payload)
  }

  /** `render_with_visibility` */
  method RenderWith<V>(history: HistoryTree, around: Surroundings<V>, plan: RenderPlan) returns (r: Rendering<V>)
    requires Proper(history.nodes)
    ensures r == RenderingOf(history.nodes, View(history.nodes), around, plan)
    ensures WellPaired(r.messages)
  {
    var messages := RenderHistory(history, around.folded(plan), plan, around.foldedNote, around.context(plan));
    r := Rendering(messages, around.visibility(plan), around.folded(plan));
  }

  /** `estimate_provider_history_tokens` */
  method ProviderTokens(messages: seq<Message>, payload: Message -> string) returns (total: nat)
    ensures total == TokensOf(messages, payload)
  {
    total := 0;
    for i := 0 to |messages|
      invariant total == TokensOf(messages[..i], payload)
    {
      assert messages[..i + 1][..i] == messages[..i];
      total := total + EstimateTokens(payload(messages[i]));
    }
    assert messages[..|messages|] == messages;
  }

  // ----- the three stages

  function WithReplacements(plan: RenderPlan, replacements: seq<Replacement>): RenderPlan {
    plan.(replacements := plan.replacements + replacements)
  }

  function ReplacementEntries(plan: RenderPlan, rs: seq<Replacement>, cost: RenderPlan -> nat): seq<Entry> {
    if rs == [] then []
    else
      var before, last := rs[..|rs| - 1], rs[|rs| - 1];
      ReplacementEntries(plan, before, cost)
      + [ResultReplaced(last.callId, last.stale, last.superseding,
                        cost(WithReplacements(plan, before)), cost(WithReplacements(plan, rs)))]
  }

  lemma {:induction false} ReplacementsBalance(plan: RenderPlan, rs: seq<Replacement>, cost: RenderPlan -> nat)
    ensures Contiguous(ReplacementEntries(plan, rs, cost), cost(plan), cost(WithReplacements(plan, rs)))
  {
    if rs == [] {
      assert plan.replacements + rs == plan.replacements;
    } else {
      var before, last := rs[..|rs| - 1], rs[|rs| - 1];
      ReplacementsBalance(plan, before, cost);
      var e := ResultReplaced(last.callId, last.stale, last.superseding,
                              cost(WithReplacements(plan, before)), cost(WithReplacements(plan, rs)));
      OneMore(ReplacementEntries(plan, before, cost), e, cost(plan));
    }
  }

  function Older(plan: RenderPlan): RenderPlan {
    plan.(foldOlder := true)
  }

  /** The switch of the file projection is recorded only where it changes something. */
  function FoldingEntries<V(==)>(before: Rendering<V>, after: Rendering<V>, payload: Message -> string): (r: seq<Entry>)
    ensures forall e :: e in r ==> e.FileContextFolded?
    ensures forall e, id :: e in r ==> (id in e.callIds <==> id in before.folded || id in after.folded)
  {
    if before == after then []
    else [FileContextFolded(before.folded + after.folded, TokensOf(before.messages, payload), TokensOf(after.messages, payload))]
  }

  function StepEntry(step: PlanStep, before: nat, after: nat): Entry {
    match step
    case CollapseDetail(_, _, _, id) => DetailCollapsed(id, before, after)
    case CollapseWholeTurn(i, _) => TurnCollapsed(i, before, after)
  }

  function WalkEntries(steps: seq<PlanStep>, n: nat, plan: RenderPlan, cost: RenderPlan -> nat, budget: int): seq<Entry>
    requires n <= |steps|
  {
    if n == 0 then []
    else
      var p, q := Walk(steps, n - 1, plan, cost, budget), Walk(steps, n, plan, cost, budget);
      WalkEntries(steps, n - 1, plan, cost, budget)
      + (if p == q then [] else [StepEntry(steps[n - 1], cost(p), cost(q))])
  }

  /** The budget stage balances, and each of its entries saves tokens. */
  lemma {:induction false} WalkBalances(steps: seq<PlanStep>, n: nat, plan: RenderPlan, cost: RenderPlan -> nat, budget: int)
    requires n <= |steps|
    ensures var entries := WalkEntries(steps, n, plan, cost, budget);
      && Contiguous(entries, cost(plan), cost(Walk(steps, n, plan, cost, budget)))
      && forall k :: 0 <= k < |entries| ==> entries[k].after < entries[k].before
  {
    if n > 0 {
      WalkBalances(steps, n - 1, plan, cost, budget);
      WalkAdds(steps, n - 1, n, plan, cost, budget);
      OneMoreStep(steps, n, plan, cost, budget);
    }
  }

  lemma OneMoreStep(steps: seq<PlanStep>, n: nat, plan: RenderPlan, cost: RenderPlan -> nat, budget: int)
    requires 0 < n <= |steps|
    requires var p, q := Walk(steps, n - 1, plan, cost, budget), Walk(steps, n, plan, cost, budget);
      (p == q || cost(q) < cost(p)) && Contiguous(WalkEntries(steps, n - 1, plan, cost, budget), cost(plan), cost(p))
    requires var entries := WalkEntries(steps, n - 1, plan, cost, budget);
      forall k :: 0 <= k < |entries| ==> entries[k].after < entries[k].before
    ensures var entries := WalkEntries(steps, n, plan, cost, budget);
      && Contiguous(entries, cost(plan), cost(Walk(steps, n, plan, cost, budget)))
      && forall k :: 0 <= k < |entries| ==> entries[k].after < entries[k].before
  {
    var p, q := Walk(steps, n - 1, plan, cost, budget), Walk(steps, n, plan, cost, budget);
    var before, entries := WalkEntries(steps, n - 1, plan, cost, budget), WalkEntries(steps, n, plan, cost, budget);
    if p == q {
      assert entries == before;
    } else {
      var e := StepEntry(steps[n - 1], cost(p), cost(q));
      assert entries == before + [e] && e.before == cost(p) && e.after == cost(q);
      hide Walk, WalkEntries, StepEntry, Contiguous;
      OneMore(before, e, cost(plan));
    }
  }

  lemma {:induction false} EntriesStop(steps: seq<PlanStep>, m: nat, n: nat, plan: RenderPlan, cost: RenderPlan -> nat, budget: int)
    requires m <= n <= |steps| && cost(Walk(steps, m, plan, cost, budget)) <= budget
    ensures WalkEntries(steps, n, plan, cost, budget) == WalkEntries(steps, m, plan, cost, budget)
    decreases n - m
  {
    if m < n {
      WalkStops(steps, m, n - 1, plan, cost, budget);
      WalkStops(steps, m, n, plan, cost, budget);
      EntriesStop(steps, m, n - 1, plan, cost, budget);
      NoEntry(steps, n, plan, cost, budget);
    }
    hide *;
  }

  lemma NoEntry(steps: seq<PlanStep>, n: nat, plan: RenderPlan, cost: RenderPlan -> nat, budget: int)
    requires 0 < n <= |steps| && Walk(steps, n - 1, plan, cost, budget) == Walk(steps, n, plan, cost, budget)
    ensures WalkEntries(steps, n, plan, cost, budget) == WalkEntries(steps, n - 1, plan, cost, budget)
  {
    hide Walk;
  }

  lemma {:induction false} Chained(a: seq<Entry>, b: seq<Entry>, start: nat, mid: nat, end: nat)
    requires Contiguous(a, start, mid) && Contiguous(b, mid, end)
    ensures Contiguous(a + b, start, end)
    decreases |b|
  {
    if b == [] {
      assert a + b == a;
    } else {
      var front, last := b[..|b| - 1], b[|b| - 1];
      Chained(a, front, start, mid, last.before);
      OneMore(a + front, last, start);
      assert a + b == a + front + [last];
    }
  }

  // ----- the projection

  /** The plan before any decision. */
  function InitialPlan(protectedIds: set<string>): (plan: RenderPlan)
    ensures plan.replacements == [] && plan.detailCollapsed == {} && plan.collapsedTurns == {} && !plan.foldOlder
    ensures plan.protectedObservations == protectedIds
  {
    RenderPlan([], {}, {}, false, protectedIds)
  }

  /** The plan all required file decisions lead to. */
  function RequiredPlan(protectedIds: set<string>, replacements: seq<Replacement>): RenderPlan {
    Older(WithReplacements(InitialPlan(protectedIds), replacements))
  }

  ghost function FileEntries<V>(nodes: seq<Node>, v: Flags, around: Surroundings<V>, replacements: seq<Replacement>,
                                protectedIds: set<string>): seq<Entry> {
    var initial := InitialPlan(protectedIds);
    var replaced, required := WithReplacements(initial, replacements), RequiredPlan(protectedIds, replacements);
    ReplacementEntries(initial, replacements, CostOf(nodes, v, around))
    + FoldingEntries(RenderingOf(nodes, v, around, replaced), RenderingOf(nodes, v, around, required), around.payload)
  }

  ghost function AllEntries<V>(nodes: seq<Node>, v: Flags, around: Surroundings<V>, replacements: seq<Replacement>,
                               protectedIds: set<string>, steps: seq<PlanStep>, n: nat, budget: int): seq<Entry>
    requires n <= |steps|
  {
    FileEntries(nodes, v, around, replacements, protectedIds)
    + WalkEntries(steps, n, RequiredPlan(protectedIds, replacements), CostOf(nodes, v, around), budget)
  }

  lemma FilesBalance<V>(nodes: seq<Node>, v: Flags, around: Surroundings<V>, replacements: seq<Replacement>, protectedIds: set<string>)
    ensures var cost := CostOf(nodes, v, around);
      Contiguous(FileEntries(nodes, v, around, replacements, protectedIds), cost(InitialPlan(protectedIds)),
                 cost(RequiredPlan(protectedIds, replacements)))
  {
    var cost := CostOf(nodes, v, around);
    var initial := InitialPlan(protectedIds);
    var replaced, required := WithReplacements(initial, replacements), RequiredPlan(protectedIds, replacements);
    ReplacementsBalance(initial, replacements, cost);
    FoldingBalances(nodes, v, around, replaced, required);
    Chained(ReplacementEntries(initial, replacements, cost),
            FoldingEntries(RenderingOf(nodes, v, around, replaced), RenderingOf(nodes, v, around, required), around.payload),
            cost(initial), cost(replaced), cost(required));
  }

  /** Every entry starts where the last one ended, from the untreated rendering to the final one. */
  lemma EntriesBalance<V>(nodes: seq<Node>, v: Flags, around: Surroundings<V>, replacements: seq<Replacement>,
                          protectedIds: set<string>, steps: seq<PlanStep>, n: nat, budget: int)
    requires n <= |steps|
    ensures var cost := CostOf(nodes, v, around);
      Contiguous(AllEntries(nodes, v, around, replacements, protectedIds, steps, n, budget), cost(InitialPlan(protectedIds)),
                 cost(Walk(steps, n, RequiredPlan(protectedIds, replacements), cost, budget)))
  {
    var cost, required := CostOf(nodes, v, around), RequiredPlan(protectedIds, replacements);
    FilesBalance(nodes, v, around, replacements, protectedIds);
    WalkBalances(steps, n, required, cost, budget);
    Chained(FileEntries(nodes, v, around, replacements, protectedIds), WalkEntries(steps, n, required, cost, budget),
            cost(InitialPlan(protectedIds)), cost(required), cost(Walk(steps, n, required, cost, budget)));
  }

  lemma FoldingBalances<V>(nodes: seq<Node>, v: Flags, around: Surroundings<V>, p: RenderPlan, q: RenderPlan)
    ensures var cost := CostOf(nodes, v, around);
      Contiguous(FoldingEntries(RenderingOf(nodes, v, around, p), RenderingOf(nodes, v, around, q), around.payload),
                 cost(p), cost(q))
  {
    var before, after := RenderingOf(nodes, v, around, p), RenderingOf(nodes, v, around, q);
    if before != after {
      var cost := CostOf(nodes, v, around);
      OneMore([], FoldingEntries(before, after, around.payload)[0], cost(p));
      assert [] + FoldingEntries(before, after, around.payload) == FoldingEntries(before, after, around.payload);
    }
  }

  /** The steps are exactly the saving ones of the unguarded, expanded turns. */
  ghost predicate Offered(steps: seq<PlanStep>, nodes: seq<Node>, protectedIds: set<string>, weight: nat -> real, v: Flags) {
    OfferedUpTo(steps, nodes, GuardedNodes(nodes, protectedIds), weight, v, |nodes|)
  }

  lemma StepsAreOffered(steps: seq<PlanStep>, nodes: seq<Node>, protectedIds: set<string>, weight: nat -> real, v: Flags)
    requires OfferedUpTo(steps, nodes, GuardedNodes(nodes, protectedIds), weight, v, |nodes|)
    ensures Offered(steps, nodes, protectedIds, weight, v)
  {
  }

  /** The plan the budget loop ends with. */
  function FinalPlan<V>(nodes: seq<Node>, v: Flags, around: Surroundings<V>, replacements: seq<Replacement>,
                        protectedIds: set<string>, steps: seq<PlanStep>, budget: int): RenderPlan {
    Walk(steps, |steps|, RequiredPlan(protectedIds, replacements), CostOf(nodes, v, around), budget)
  }

  datatype Outcome<V> = Outcome(rendering: Rendering<V>, ledger: Option<Ledger>)

  /** A request that fits after replacing and folding is sent so: no turn and no detail is collapsed. */
  lemma FittingIsUntouched<V>(nodes: seq<Node>, v: Flags, around: Surroundings<V>, replacements: seq<Replacement>,
                              protectedIds: set<string>, steps: seq<PlanStep>, budget: int)
    requires CostOf(nodes, v, around)(RequiredPlan(protectedIds, replacements)) <= budget
    ensures var last := FinalPlan(nodes, v, around, replacements, protectedIds, steps, budget);
      last == RequiredPlan(protectedIds, replacements) && last.collapsedTurns == {} && last.detailCollapsed == {}
  {
    WalkStops(steps, 0, |steps|, RequiredPlan(protectedIds, replacements), CostOf(nodes, v, around), budget);
  }

  /** What the projection returns: the final plan's rendering, and the full account. */
  ghost predicate Projected<V(!new)>(o: Outcome<V>, nodes: seq<Node>, v: Flags, around: Surroundings<V>,
                                     replacements: seq<Replacement>, protectedIds: set<string>, steps: seq<PlanStep>, budget: nat) {
    var cost := CostOf(nodes, v, around);
    var required := RequiredPlan(protectedIds, replacements);
    var last := FinalPlan(nodes, v, around, replacements, protectedIds, steps, budget);
    && o.rendering == RenderingOf(nodes, v, around, last)
    && o.ledger == Some(Ledger(cost(InitialPlan(protectedIds)), cost(required), cost(last), budget,
                               AllEntries(nodes, v, around, replacements, protectedIds, steps, |steps|, budget)))
  }

  /** `project_history_for_provider`, for the replacements and the budget of the request. */
  method ProjectHistory<V(==, !new)>(history: HistoryTree, around: Surroundings<V>, replacements: seq<Replacement>,
                                     protectedIds: set<string>, budget: nat, weight: nat -> real)
    returns (o: Outcome<V>, steps: seq<PlanStep>)
    requires Proper(history.nodes)
    ensures Offered(steps, history.nodes, protectedIds, weight, View(history.nodes))
    ensures SortedBy(steps, GoesFirst)
    ensures Projected(o, history.nodes, View(history.nodes), around, replacements, protectedIds, steps, budget)
    ensures WellPaired(o.rendering.messages)
  {
    hide *;
    var nodes := history.nodes;
    ghost var v := View(nodes);
    ghost var cost := CostOf(nodes, v, around);
    ObjectsAllocated(nodes);
    var required := RequiredPlan(protectedIds, replacements);
    var baseline, treated, treatedTokens, entries := ProjectFiles(history, around, replacements, protectedIds);
    var guarded := GuardedIndices(nodes, protectedIds);
    ViewMatches(nodes);
    steps := ProjectionSteps(nodes, guarded, weight, v);
    StepsAreOffered(steps, nodes, protectedIds, weight, v);
    var budgetEntries, final, finalTokens := FitBudget(history, around, steps, required, treated, treatedTokens, budget);
    RenderingPaired(nodes, v, around, Walk(steps, |steps|, required, cost, budget));
    EntriesAre(nodes, v, around, replacements, protectedIds, steps, budget);
    EntriesBalance(nodes, v, around, replacements, protectedIds, steps, |steps|, budget);
    var ledger := CheckedLedger(baseline, treatedTokens, finalTokens, budget, entries + budgetEntries);
    o := Outcome(final, ledger);
    Returned(o, nodes, v, around, replacements, protectedIds, steps, budget);
  }

  /** The file decisions every request makes: replacements, then the switch of the file projection. */
  method ProjectFiles<V(==)>(history: HistoryTree, around: Surroundings<V>, replacements: seq<Replacement>, protectedIds: set<string>)
    returns (baseline: nat, treated: Rendering<V>, tokens: nat, entries: seq<Entry>)
    requires Proper(history.nodes)
    ensures var v, cost := View(history.nodes), CostOf(history.nodes, View(history.nodes), around);
      && baseline == cost(InitialPlan(protectedIds))
      && treated == RenderingOf(history.nodes, v, around, RequiredPlan(protectedIds, replacements))
      && tokens == cost(RequiredPlan(protectedIds, replacements))
      && entries == FileEntries(history.nodes, v, around, replacements, protectedIds)
  {
    hide *;
    var nodes := history.nodes;
    ghost var v := View(nodes);
    ObjectsAllocated(nodes);
    var initial := InitialPlan(protectedIds);
    var first := RenderWith(history, around, initial);
    baseline := ProviderTokens(first.messages, around.payload);
    CostIs(nodes, v, around, initial);
    var rendered, current;
    rendered, current, entries := ReplaceResults(history, around, replacements, initial, first, baseline);
    var required := RequiredPlan(protectedIds, replacements);
    treated := RenderWith(history, around, required);
    tokens := ProviderTokens(treated.messages, around.payload);
    CostIs(nodes, v, around, required);
    FileEntriesAre(nodes, v, around, replacements, protectedIds);
    entries := entries + FoldingEntries(rendered, treated, around.payload);
  }

  lemma FileEntriesAre<V>(nodes: seq<Node>, v: Flags, around: Surroundings<V>, replacements: seq<Replacement>, protectedIds: set<string>)
    ensures var initial := InitialPlan(protectedIds);
      var replaced, required := WithReplacements(initial, replacements), RequiredPlan(protectedIds, replacements);
      FileEntries(nodes, v, around, replacements, protectedIds) ==
        ReplacementEntries(initial, replacements, CostOf(nodes, v, around))
        + FoldingEntries(RenderingOf(nodes, v, around, replaced), RenderingOf(nodes, v, around, required), around.payload)
  {
  }

  lemma RenderingPaired<V>(nodes: seq<Node>, v: Flags, around: Surroundings<V>, plan: RenderPlan)
    requires Proper(nodes)
    ensures WellPaired(RenderingOf(nodes, v, around, plan).messages)
  {
    TranscriptPaired(nodes, v, plan, around.folded(plan), around.foldedNote, around.context(plan));
  }

  lemma CostIs<V>(nodes: seq<Node>, v: Flags, around: Surroundings<V>, plan: RenderPlan)
    ensures CostOf(nodes, v, around)(plan) == TokensOf(RenderingOf(nodes, v, around, plan).messages, around.payload)
  {
  }

  lemma EntriesAre<V>(nodes: seq<Node>, v: Flags, around: Surroundings<V>, replacements: seq<Replacement>,
                      protectedIds: set<string>, steps: seq<PlanStep>, budget: nat)
    ensures AllEntries(nodes, v, around, replacements, protectedIds, steps, |steps|, budget) ==
      FileEntries(nodes, v, around, replacements, protectedIds)
      + WalkEntries(steps, |steps|, RequiredPlan(protectedIds, replacements), CostOf(nodes, v, around), budget)
  {
  }

  lemma Returned<V(!new)>(o: Outcome<V>, nodes: seq<Node>, v: Flags, around: Surroundings<V>,
                          replacements: seq<Replacement>, protectedIds: set<string>, steps: seq<PlanStep>, budget: nat)
    requires var cost, required := CostOf(nodes, v, around), RequiredPlan(protectedIds, replacements);
      var last := Walk(steps, |steps|, required, cost, budget);
      && o.rendering == RenderingOf(nodes, v, around, last)
      && o.ledger == Some(Ledger(cost(InitialPlan(protectedIds)), cost(required), cost(last), budget,
                                 AllEntries(nodes, v, around, replacements, protectedIds, steps, |steps|, budget)))
    ensures Projected(o, nodes, v, around, replacements, protectedIds, steps, budget)
  {
  }

  /** The loop over the required replacements: each is recorded, whatever it costs. */
  method ReplaceResults<V>(history: HistoryTree, around: Surroundings<V>, replacements: seq<Replacement>,
                           initial: RenderPlan, first: Rendering<V>, baseline: nat)
    returns (rendered: Rendering<V>, current: nat, entries: seq<Entry>)
    requires Proper(history.nodes)
    requires first == RenderingOf(history.nodes, View(history.nodes), around, initial)
    requires baseline == CostOf(history.nodes, View(history.nodes), around)(initial)
    ensures rendered == RenderingOf(history.nodes, View(history.nodes), around, WithReplacements(initial, replacements))
    ensures current == CostOf(history.nodes, View(history.nodes), around)(WithReplacements(initial, replacements))
    ensures entries == ReplacementEntries(initial, replacements, CostOf(history.nodes, View(history.nodes), around))
  {
    hide *;
    var nodes := history.nodes;
    ghost var v := View(nodes);
    ghost var cost := CostOf(nodes, v, around);
    ObjectsAllocated(nodes);
    rendered, current, entries := first, baseline, [];
    NoReplacements(initial, cost);
    assert replacements[..0] == [];
    var plan := initial;
    for i := 0 to |replacements|
      invariant View(nodes) == v
      invariant plan == WithReplacements(initial, replacements[..i])
      invariant rendered == RenderingOf(nodes, v, around, plan) && current == cost(plan)
      invariant entries == ReplacementEntries(initial, replacements[..i], cost)
    {
      var r := replacements[i];
      OneReplacement(initial, replacements, i, cost);
      var next := WithReplacements(plan, [r]);
      var nextRendered := RenderWith(history, around, next);
      var nextTokens := ProviderTokens(nextRendered.messages, around.payload);
      CostIs(nodes, v, around, next);
      entries := entries + [ResultReplaced(r.callId, r.stale, r.superseding, current, nextTokens)];
      plan, rendered, current := next, nextRendered, nextTokens;
    }
    assert replacements[..|replacements|] == replacements;
  }

  lemma NoReplacements(plan: RenderPlan, cost: RenderPlan -> nat)
    ensures WithReplacements(plan, []) == plan && ReplacementEntries(plan, [], cost) == []
  {
    assert plan.replacements + [] == plan.replacements;
  }

  lemma OneReplacement(plan: RenderPlan, rs: seq<Replacement>, i: nat, cost: RenderPlan -> nat)
    requires i < |rs|
    ensures WithReplacements(WithReplacements(plan, rs[..i]), [rs[i]]) == WithReplacements(plan, rs[..i + 1])
    ensures ReplacementEntries(plan, rs[..i + 1], cost) ==
      ReplacementEntries(plan, rs[..i], cost)
      + [ResultReplaced(rs[i].callId, rs[i].stale, rs[i].superseding,
                        cost(WithReplacements(plan, rs[..i])), cost(WithReplacements(plan, rs[..i + 1])))]
  {
    assert rs[..i + 1][..i] == rs[..i];
    assert plan.replacements + rs[..i] + [rs[i]] == plan.replacements + rs[..i + 1];
  }

  /** The loop over the budget steps. */
  method FitBudget<V>(history: HistoryTree, around: Surroundings<V>, steps: seq<PlanStep>, required: RenderPlan,
                      treated: Rendering<V>, tokens: nat, budget: nat)
    returns (entries: seq<Entry>, rendered: Rendering<V>, current: nat)
    requires Proper(history.nodes)
    requires treated == RenderingOf(history.nodes, View(history.nodes), around, required)
    requires tokens == CostOf(history.nodes, View(history.nodes), around)(required)
    ensures var v, cost := View(history.nodes), CostOf(history.nodes, View(history.nodes), around);
      && entries == WalkEntries(steps, |steps|, required, cost, budget)
      && rendered == RenderingOf(history.nodes, v, around, Walk(steps, |steps|, required, cost, budget))
      && current == cost(Walk(steps, |steps|, required, cost, budget))
  {
    hide *;
    var nodes := history.nodes;
    ghost var v := View(nodes);
    ghost var cost := CostOf(nodes, v, around);
    ObjectsAllocated(nodes);
    entries, rendered, current := [], treated, tokens;
    var plan := required;
    NoSteps(steps, required, cost, budget);
    var i := 0;
    while i < |steps|
      invariant 0 <= i <= |steps| && View(nodes) == v
      invariant plan == Walk(steps, i, required, cost, budget)
      invariant rendered == RenderingOf(nodes, v, around, plan) && current == cost(plan)
      invariant entries == WalkEntries(steps, i, required, cost, budget)
    {
      if current <= budget {
        break;
      }
      var step := steps[i];
      StepTaken(steps, i, required, cost, budget);
      if !step.IsNoOp(plan) {
        var next := step.Apply(plan);
        var nextRendered := RenderWith(history, around, next);
        var nextTokens := ProviderTokens(nextRendered.messages, around.payload);
        CostIs(nodes, v, around, next);
        if nextTokens < current {
          entries := entries + [StepEntry(step, current, nextTokens)];
          plan, rendered, current := next, nextRendered, nextTokens;
        }
      }
      i := i + 1;
    }
    if i < |steps| {
      WalkStops(steps, i, |steps|, required, cost, budget);
      EntriesStop(steps, i, |steps|, required, cost, budget);
    }
  }

  lemma NoSteps(steps: seq<PlanStep>, plan: RenderPlan, cost: RenderPlan -> nat, budget: int)
    ensures Walk(steps, 0, plan, cost, budget) == plan && WalkEntries(steps, 0, plan, cost, budget) == []
  {
  }

  /** One step of the walk, as the loop takes it. */
  lemma StepTaken(steps: seq<PlanStep>, i: nat, plan: RenderPlan, cost: RenderPlan -> nat, budget: int)
    requires i < |steps| && cost(Walk(steps, i, plan, cost, budget)) > budget
    ensures var p := Walk(steps, i, plan, cost, budget);
      var before := WalkEntries(steps, i, plan, cost, budget);
      var next := steps[i].Apply(p);
      if steps[i].IsNoOp(p) || cost(next) >= cost(p) then
        Walk(steps, i + 1, plan, cost, budget) == p && WalkEntries(steps, i + 1, plan, cost, budget) == before
      else
        && Walk(steps, i + 1, plan, cost, budget) == next
        && WalkEntries(steps, i + 1, plan, cost, budget) == before + [StepEntry(steps[i], cost(p), cost(next))]
  {
  }

  /** The account balances to the last token, every budget step strictly saves, no guarded turn is
      collapsed nor any call without a namesake in an unguarded turn, and the run ends within budget or
      with every step taken, moot, or rejected at its turn. */
  lemma ProjectionKeeps<V(!new)>(o: Outcome<V>, nodes: seq<Node>, v: Flags, around: Surroundings<V>, replacements: seq<Replacement>,
                                 protectedIds: set<string>, weight: nat -> real, steps: seq<PlanStep>, budget: nat)
    requires Projected(o, nodes, v, around, replacements, protectedIds, steps, budget)
    requires Offered(steps, nodes, protectedIds, weight, v)
    ensures var l := o.ledger.value;
      l.baseline + TotalGrowth(l.entries) - TotalSavings(l.entries) == l.final && l.final <= l.afterRequired
    ensures BudgetStepsSave(o.ledger.value.entries, |FileEntries(nodes, v, around, replacements, protectedIds)|)
    ensures Spares(FinalPlan(nodes, v, around, replacements, protectedIds, steps, budget), nodes, protectedIds, v)
    ensures var cost, required := CostOf(nodes, v, around), RequiredPlan(protectedIds, replacements);
      var last := FinalPlan(nodes, v, around, replacements, protectedIds, steps, budget);
      o.ledger.value.final <= budget || forall k :: 0 <= k < |steps| ==>
        steps[k].IsNoOp(last)
        || cost(steps[k].Apply(Walk(steps, k, required, cost, budget))) >= cost(Walk(steps, k, required, cost, budget))
  {
    var cost, required := CostOf(nodes, v, around), RequiredPlan(protectedIds, replacements);
    var last := FinalPlan(nodes, v, around, replacements, protectedIds, steps, budget);
    EntriesBalance(nodes, v, around, replacements, protectedIds, steps, |steps|, budget);
    Balance(o.ledger.value.entries, o.ledger.value.baseline, o.ledger.value.final);
    WalkAdds(steps, 0, |steps|, required, cost, budget);
    WalkBalances(steps, |steps|, required, cost, budget);
    WalkSpares(steps, |steps|, required, cost, budget, nodes, protectedIds, weight, v);
    hide Walk, WalkEntries, FileEntries, CostOf, Offered, Spares, Contiguous;
    forall k | 0 <= k < |steps| && cost(last) > budget
      ensures steps[k].IsNoOp(last)
        || cost(steps[k].Apply(Walk(steps, k, required, cost, budget))) >= cost(Walk(steps, k, required, cost, budget))
    {
      WalkExhausts(steps, k, required, cost, budget);
    }
  }

  /** Every entry from the m-th on saves tokens. */
  ghost predicate BudgetStepsSave(entries: seq<Entry>, m: nat) {
    m <= |entries| && forall k :: m <= k < |entries| ==> entries[k].after < entries[k].before
  }

  /** The plan collapses no guarded turn, and the detail of a call only if some call of its name may be
      collapsed. */
  ghost predicate Spares(plan: RenderPlan, nodes: seq<Node>, protectedIds: set<string>, v: Flags) {
    && (forall i: nat :: i < |nodes| && Guarded(nodes, i, protectedIds) ==> i !in plan.collapsedTurns)
    && (forall id :: id in plan.detailCollapsed ==> HasNamesake(nodes, GuardedNodes(nodes, protectedIds), v, id))
  }

  lemma WalkSpares(steps: seq<PlanStep>, n: nat, plan: RenderPlan, cost: RenderPlan -> nat, budget: int, nodes: seq<Node>,
                   protectedIds: set<string>, weight: nat -> real, v: Flags)
    requires n <= |steps| && Offered(steps, nodes, protectedIds, weight, v)
    requires plan.collapsedTurns == {} && plan.detailCollapsed == {}
    ensures Spares(Walk(steps, n, plan, cost, budget), nodes, protectedIds, v)
  {
    var last, guarded := Walk(steps, n, plan, cost, budget), GuardedNodes(nodes, protectedIds);
    hide Walk, HasNamesake, Guarded, OfferedUpTo;
    forall i: nat | i < |nodes| && Guarded(nodes, i, protectedIds) ensures i !in last.collapsedTurns {
      WalkSparesGuarded(steps, n, plan, cost, budget, nodes, guarded, weight, v, i);
    }
    forall id | id in last.detailCollapsed ensures HasNamesake(nodes, guarded, v, id) {
      KeepsDetailIff(steps, plan, nodes, guarded, weight, v, id);
    }
  }
}
