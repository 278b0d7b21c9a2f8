// Greedy compaction of a history: cheapest-to-lose nodes first, until enough is saved.
module Compaction {
  import opened History
  import opened Integers
  import opened Optional
  import opened Protection
  import opened Sorting
  import opened Text

  /** A collapse action: what it collapses, inside which turn, and how salient that is now. */
  datatype Candidate =
    | CollapseTool(effectiveSalience: real, parent: TurnNode, tool: ToolCallNode)
    | CollapseAdvisory(effectiveSalience: real, parent: TurnNode, advisory: AdvisoryNode)
    | CollapseTurn(effectiveSalience: real, turn: TurnNode)
    | CollapsePrompt(effectiveSalience: real, prompt: UserPromptNode)

  predicate LessSalient(a: Candidate, b: Candidate) {
    a.effectiveSalience <= b.effectiveSalience
  }

  /** The flags after the action. */
  function After(v: Flags, c: Candidate): Flags {
    match c
    case CollapseTool(_, _, t) => v.(tools := v.tools + {t})
    case CollapseAdvisory(_, _, a) => v.(advisories := v.advisories + {a})
    case CollapseTurn(_, t) => v.(turns := v.turns + {t})
    case CollapsePrompt(_, p) => v.(prompts := v.prompts + {p})
  }

  predicate Applied(v: Flags, c: Candidate) {
    match c
    case CollapseTool(_, _, t) => t in v.tools
    case CollapseAdvisory(_, _, a) => a in v.advisories
    case CollapseTurn(_, t) => t in v.turns
    case CollapsePrompt(_, p) => p in v.prompts
  }

  /** The action lies inside a turn that is collapsed. */
  predicate InCollapsedTurn(v: Flags, c: Candidate) {
    match c
    case CollapseTool(_, turn, _) => turn in v.turns
    case CollapseAdvisory(_, turn, _) => turn in v.turns
    case _ => false
  }

  // ----- which actions are candidates

  predicate ToolCollapsible(t: ToolCallNode, v: Flags) {
    t !in v.tools && t.ExpandedTokenCost() > t.CollapsedTokenCost()
  }

  predicate AdvisoryCollapsible(a: AdvisoryNode, v: Flags) {
    a !in v.advisories && a.ExpandedTokenCost() > a.CollapsedTokenCost()
  }

  /** Collapsing the turn as it stands saves something. */
  predicate TurnCollapsible(t: TurnNode, v: Flags) {
    t !in v.turns && TurnCost(t, v) > t.CollapsedTokenCost()
  }

  predicate PromptCollapsible(p: UserPromptNode, v: Flags) {
    p !in v.prompts && p.IsLong() && p.ExpandedTokenCost() > p.CollapsedTokenCost()
  }

  /** What protects nodes, and the decay of salience at each age. */
  datatype Scope = Scope(protected: set<nat>, weight: nat -> real)

  const TURN_SALIENCE_BUMP: real := 0.001

  function Decayed(salience: real, weight: real): real {
    salience * weight
  }

  /** A sound candidate for the node: its action saves tokens in the starting state, and its salience is
      that of what it collapses, decayed; whole turns go just after their parts. */
  ghost predicate CandidateFor(c: Candidate, n: Node, weight: real, v: Flags) {
    match c
    case CollapseTool(e, turn, t) =>
      && n == Turn(turn) && turn !in v.turns && t in turn.tools && ToolCollapsible(t, v)
      && e == Decayed(t.salience, weight)
    case CollapseAdvisory(e, turn, a) =>
      && n == Turn(turn) && turn !in v.turns && a in turn.advisories && AdvisoryCollapsible(a, v)
      && e == Decayed(a.salience, weight)
    case CollapseTurn(e, turn) =>
      n == Turn(turn) && TurnCollapsible(turn, v) && e == Decayed(turn.salience, weight) + TURN_SALIENCE_BUMP
    case CollapsePrompt(e, p) => n == Prompt(p) && PromptCollapsible(p, v) && e == Decayed(p.salience, weight)
  }

  predicate OffersTool(cs: seq<Candidate>, t: TurnNode, x: ToolCallNode, weight: real) {
    CollapseTool(Decayed(x.salience, weight), t, x) in cs
  }

  predicate OffersAdvisory(cs: seq<Candidate>, t: TurnNode, x: AdvisoryNode, weight: real) {
    CollapseAdvisory(Decayed(x.salience, weight), t, x) in cs
  }

  predicate OffersTurn(cs: seq<Candidate>, t: TurnNode, weight: real) {
    CollapseTurn(Decayed(t.salience, weight) + TURN_SALIENCE_BUMP, t) in cs
  }

  predicate OffersPrompt(cs: seq<Candidate>, p: UserPromptNode, weight: real) {
    CollapsePrompt(Decayed(p.salience, weight), p) in cs
  }

  /** Every action that saves something on the node is among the candidates. */
  ghost predicate AllCandidatesFor(cs: seq<Candidate>, n: Node, weight: real, v: Flags) {
    match n
    case Prompt(p) => PromptCollapsible(p, v) ==> OffersPrompt(cs, p, weight)
    case Turn(t) =>
      t !in v.turns ==>
        && (TurnCollapsible(t, v) ==> OffersTurn(cs, t, weight))
        && (forall x :: x in t.tools && ToolCollapsible(x, v) ==> OffersTool(cs, t, x, weight))
        && (forall x :: x in t.advisories && AdvisoryCollapsible(x, v) ==> OffersAdvisory(cs, t, x, weight))
    case _ => true
  }

  // ----- what any run of the loop keeps

  /** `v` results from `v0` by collapse actions that each saved tokens in the starting state. */
  ghost predicate Grown(v0: Flags, v: Flags) {
    && v0.tools <= v.tools && v0.advisories <= v.advisories && v0.turns <= v.turns && v0.prompts <= v.prompts
    && (forall x :: x in v.tools ==> x in v0.tools || ToolCollapsible(x, v0))
    && (forall x :: x in v.advisories ==> x in v0.advisories || AdvisoryCollapsible(x, v0))
    && (forall x :: x in v.turns ==> x in v0.turns || TurnCollapsible(x, v0))
    && (forall x :: x in v.prompts ==> x in v0.prompts || PromptCollapsible(x, v0))
  }

  lemma {:induction false} ToolCostsFall(tools: seq<ToolCallNode>, v0: Flags, v: Flags)
    requires Grown(v0, v)
    ensures ToolCosts(tools, v) <= ToolCosts(tools, v0)
  {
    if tools != [] { ToolCostsFall(tools[..|tools| - 1], v0, v); }
  }

  lemma {:induction false} AdvisoryCostsFall(advisories: seq<AdvisoryNode>, v0: Flags, v: Flags)
    requires Grown(v0, v)
    ensures AdvisoryCosts(advisories, v) <= AdvisoryCosts(advisories, v0)
  {
    if advisories != [] { AdvisoryCostsFall(advisories[..|advisories| - 1], v0, v); }
  }

  /** No node costs more than it did, though collapsing a turn can cost more than its
      already detail-collapsed form. */
  lemma NodeCostFalls(n: Node, v0: Flags, v: Flags)
    requires Grown(v0, v)
    ensures NodeCost(n, v) <= NodeCost(n, v0)
  {
    if n.Turn? {
      ToolCostsFall(n.turn.tools, v0, v);
      AdvisoryCostsFall(n.turn.advisories, v0, v);
    }
  }

  lemma {:induction false} TotalCostFalls(nodes: seq<Node>, v0: Flags, v: Flags)
    requires Grown(v0, v)
    ensures TotalCost(nodes, v) <= TotalCost(nodes, v0)
  {
    if nodes != [] {
      TotalCostFalls(nodes[..|nodes| - 1], v0, v);
      NodeCostFalls(nodes[|nodes| - 1], v0, v);
    }
  }

  /** The node's own flags are the same in both states. */
  ghost predicate Untouched(n: Node, v0: Flags, v: Flags) {
    && (forall x :: x in NodeTools(n) ==> (x in v.tools <==> x in v0.tools))
    && (forall x :: x in NodeAdvisories(n) ==> (x in v.advisories <==> x in v0.advisories))
    && (forall x :: x in NodeTurns(n) ==> (x in v.turns <==> x in v0.turns))
    && (forall x :: x in NodePrompts(n) ==> (x in v.prompts <==> x in v0.prompts))
  }

  /** The newest node has age 0. */
  function AgeWeight(nodes: seq<Node>, i: nat, scope: Scope): real
    requires i < |nodes|
  {
    scope.weight(|nodes| - 1 - i)
  }

  /** The candidate belongs to a node that is not protected. */
  ghost predicate Sound(c: Candidate, nodes: seq<Node>, scope: Scope, v0: Flags) {
    exists i: nat :: i < |nodes| && i !in scope.protected && CandidateFor(c, nodes[i], AgeWeight(nodes, i, scope), v0)
  }

  /** What every step of the loop keeps: tokens saved by each action, protected nodes untouched. */
  ghost predicate Running(nodes: seq<Node>, scope: Scope, v0: Flags, v: Flags) {
    && Grown(v0, v)
    && (forall i: nat :: i < |nodes| && i in scope.protected ==> Untouched(nodes[i], v0, v))
  }

  lemma StepKeeps(nodes: seq<Node>, scope: Scope, v0: Flags, v: Flags, c: Candidate)
    requires Proper(nodes) && Running(nodes, scope, v0, v) && Sound(c, nodes, scope, v0)
    ensures Running(nodes, scope, v0, After(v, c))
  {
    var j: nat :| j < |nodes| && j !in scope.protected && CandidateFor(c, nodes[j], AgeWeight(nodes, j, scope), v0);
    StepGrows(nodes[j], AgeWeight(nodes, j, scope), v0, v, c);
    forall i: nat | i < |nodes| && i in scope.protected ensures Untouched(nodes[i], v0, After(v, c)) {
      hide *;
      DisjointNodes(nodes, i, j);
      OthersUntouched(nodes[i], nodes[j], AgeWeight(nodes, j, scope), v0, v, c);
    }
  }

  lemma StepGrows(n: Node, weight: real, v0: Flags, v: Flags, c: Candidate)
    requires Grown(v0, v) && CandidateFor(c, n, weight, v0)
    ensures Grown(v0, After(v, c))
  {
    hide ToolCollapsible, AdvisoryCollapsible, TurnCollapsible, PromptCollapsible;
  }

  /** The nodes share no objects. */
  ghost predicate NodesApart(a: Node, b: Node) {
    && NodeTools(a) !! NodeTools(b) && NodeAdvisories(a) !! NodeAdvisories(b)
    && NodeTurns(a) !! NodeTurns(b) && NodePrompts(a) !! NodePrompts(b)
  }

  lemma OthersUntouched(n: Node, other: Node, weight: real, v0: Flags, v: Flags, c: Candidate)
    requires NodesApart(n, other) && Untouched(n, v0, v) && CandidateFor(c, other, weight, v0)
    ensures Untouched(n, v0, After(v, c))
  {
    hide ToolCollapsible, AdvisoryCollapsible, TurnCollapsible, PromptCollapsible;
  }

  lemma DisjointNodes(nodes: seq<Node>, i: nat, j: nat)
    requires Proper(nodes) && i != j && i < |nodes| && j < |nodes|
    ensures NodesApart(nodes[i], nodes[j])
  {
    if i < j {
      assert NodeTools(nodes[i]) !! NodeTools(nodes[j]);
    } else {
      assert NodeTools(nodes[j]) !! NodeTools(nodes[i]);
    }
  }

  // ----- building candidates

  /** The flags of the turn's objects, as stored. */
  ghost predicate TurnMatches(t: TurnNode, v: Flags)
    reads t, t.tools, t.advisories
  {
    && (t.collapsed <==> t in v.turns)
    && (forall x :: x in t.tools ==> (x.detailCollapsed <==> x in v.tools))
    && (forall x :: x in t.advisories ==> (x.collapsed <==> x in v.advisories))
  }

  /** `TurnNode.token_cost` */
  method TurnTokenCost(t: TurnNode, ghost v: Flags) returns (cost: nat)
    requires TurnMatches(t, v)
    ensures cost == TurnCost(t, v)
  {
    if t.collapsed {
      return t.CollapsedTokenCost();
    }
    var tools := 0;
    for i := 0 to |t.tools|
      invariant tools == ToolCosts(t.tools[..i], v)
    {
      assert t.tools[..i + 1][..i] == t.tools[..i];
      assert t.tools[i] in t.tools;
      tools := tools + if t.tools[i].detailCollapsed then t.tools[i].CollapsedTokenCost() else t.tools[i].ExpandedTokenCost();
    }
    assert t.tools[..|t.tools|] == t.tools;
    var advisories := 0;
    for i := 0 to |t.advisories|
      invariant advisories == AdvisoryCosts(t.advisories[..i], v)
    {
      assert t.advisories[..i + 1][..i] == t.advisories[..i];
      assert t.advisories[i] in t.advisories;
      var a := t.advisories[i];
      advisories := advisories + if a.collapsed then a.CollapsedTokenCost() else a.ExpandedTokenCost();
    }
    assert t.advisories[..|t.advisories|] == t.advisories;
    cost := EstimateTokens(t.assistantContent) + tools + advisories;
  }

  /** The candidates of one turn: tool calls, then advisories, then the turn itself. */
  method TurnCandidates(t: TurnNode, weight: real, ghost v: Flags) returns (cs: seq<Candidate>)
    requires TurnMatches(t, v)
    ensures forall c :: c in cs ==> CandidateFor(c, Turn(t), weight, v)
    ensures AllCandidatesFor(cs, Turn(t), weight, v)
  {
    cs := [];
    if t.collapsed {
      return;
    }
    var tools := ToolCandidates(t, weight, v);
    var advisories := AdvisoryCandidates(t, weight, v);
    cs := tools + advisories;
    var cost := TurnTokenCost(t, v);
    if cost > t.CollapsedTokenCost() {
      var c := CollapseTurn(Decayed(t.salience, weight) + TURN_SALIENCE_BUMP, t);
      cs := cs + [c];
      assert c in cs;
    }
  }

  method ToolCandidates(t: TurnNode, weight: real, ghost v: Flags) returns (cs: seq<Candidate>)
    requires TurnMatches(t, v) && !t.collapsed
    ensures forall c :: c in cs ==> c.CollapseTool? && CandidateFor(c, Turn(t), weight, v)
    ensures forall x :: x in t.tools && ToolCollapsible(x, v) ==> OffersTool(cs, t, x, weight)
  {
    cs := [];
    for i := 0 to |t.tools|
      invariant forall c :: c in cs ==> c.CollapseTool? && CandidateFor(c, Turn(t), weight, v)
      invariant forall k :: 0 <= k < i && ToolCollapsible(t.tools[k], v) ==> OffersTool(cs, t, t.tools[k], weight)
    {
      var x := t.tools[i];
      assert x in t.tools;
      if !x.detailCollapsed && x.ExpandedTokenCost() > x.CollapsedTokenCost() {
        var c := CollapseTool(Decayed(x.salience, weight), t, x);
        cs := cs + [c];
      }
    }
  }

  method AdvisoryCandidates(t: TurnNode, weight: real, ghost v: Flags) returns (cs: seq<Candidate>)
    requires TurnMatches(t, v) && !t.collapsed
    ensures forall c :: c in cs ==> c.CollapseAdvisory? && CandidateFor(c, Turn(t), weight, v)
    ensures forall x :: x in t.advisories && AdvisoryCollapsible(x, v) ==> OffersAdvisory(cs, t, x, weight)
  {
    cs := [];
    for i := 0 to |t.advisories|
      invariant forall c :: c in cs ==> c.CollapseAdvisory? && CandidateFor(c, Turn(t), weight, v)
      invariant forall k :: 0 <= k < i && AdvisoryCollapsible(t.advisories[k], v) ==> OffersAdvisory(cs, t, t.advisories[k], weight)
    {
      var x := t.advisories[i];
      assert x in t.advisories;
      if !x.collapsed && x.ExpandedTokenCost() > x.CollapsedTokenCost() {
        var c := CollapseAdvisory(Decayed(x.salience, weight), t, x);
        cs := cs + [c];
      }
    }
  }

  /** The node's flags, as stored. */
  ghost predicate NodeMatches(n: Node, v: Flags)
    reads NodeTools(n), NodeAdvisories(n), NodeTurns(n), NodePrompts(n)
  {
    && (n.Turn? ==> TurnMatches(n.turn, v))
    && (n.Prompt? ==> (n.prompt.collapsed <==> n.prompt in v.prompts))
  }

  lemma ViewMatches(nodes: seq<Node>)
    ensures forall i :: 0 <= i < |nodes| ==> NodeMatches(nodes[i], View(nodes))
  {
    forall i | 0 <= i < |nodes| ensures NodeMatches(nodes[i], View(nodes)) {
      ObjectsOf(nodes, i);
    }
  }

  lemma ObjectsOf(nodes: seq<Node>, i: nat)
    requires i < |nodes|
    ensures NodeTools(nodes[i]) <= Tools(nodes) && NodeAdvisories(nodes[i]) <= Advisories(nodes)
    ensures NodeTurns(nodes[i]) <= Turns(nodes) && NodePrompts(nodes[i]) <= Prompts(nodes)
  {
  }

  /** The candidates of one node. */
  method NodeCandidates(n: Node, weight: real, ghost v: Flags) returns (cs: seq<Candidate>)
    requires NodeMatches(n, v)
    ensures forall c :: c in cs ==> CandidateFor(c, n, weight, v)
    ensures AllCandidatesFor(cs, n, weight, v)
  {
    cs := [];
    match n {
      case Turn(t) =>
        cs := TurnCandidates(t, weight, v);
      case Prompt(p) =>
        if !p.collapsed && p.IsLong() && p.ExpandedTokenCost() > p.CollapsedTokenCost() {
          var c := CollapsePrompt(Decayed(p.salience, weight), p);
          cs := [c];
          assert c in cs;
        }
      case _ =>
    }
  }

  /** The candidates so far come from the unprotected nodes before i, and miss nothing there. */
  ghost predicate BuiltUpTo(cs: seq<Candidate>, nodes: seq<Node>, scope: Scope, v: Flags, i: int) {
    && (forall c :: c in cs ==> Sound(c, nodes, scope, v))
    && (forall k: nat :: k < i && k < |nodes| && k !in scope.protected ==> AllCandidatesFor(cs, nodes[k], AgeWeight(nodes, k, scope), v))
  }

  lemma BuildOne(cs: seq<Candidate>, added: seq<Candidate>, nodes: seq<Node>, scope: Scope, v: Flags, i: nat)
    requires i < |nodes| && BuiltUpTo(cs, nodes, scope, v, i)
    requires i !in scope.protected ==>
      (forall c :: c in added ==> CandidateFor(c, nodes[i], AgeWeight(nodes, i, scope), v)) && AllCandidatesFor(added, nodes[i], AgeWeight(nodes, i, scope), v)
    requires i in scope.protected ==> added == []
    ensures BuiltUpTo(cs + added, nodes, scope, v, i + 1)
  {
    forall k: nat | k < i && k !in scope.protected ensures AllCandidatesFor(cs + added, nodes[k], AgeWeight(nodes, k, scope), v) {
      MoreCandidates(cs, [], added, nodes[k], AgeWeight(nodes, k, scope), v);
      assert [] + cs + added == cs + added;
    }
    if i !in scope.protected {
      MoreCandidates(added, cs, [], nodes[i], AgeWeight(nodes, i, scope), v);
      assert cs + added + [] == cs + added;
    }
    forall c | c in added ensures Sound(c, nodes, scope, v) {
      assert CandidateFor(c, nodes[i], AgeWeight(nodes, i, scope), v);
    }
  }

  lemma MoreCandidates(cs: seq<Candidate>, before: seq<Candidate>, after: seq<Candidate>, n: Node, weight: real, v: Flags)
    requires AllCandidatesFor(cs, n, weight, v)
    ensures AllCandidatesFor(before + cs + after, n, weight, v)
  {
    assert forall c :: c in cs ==> c in before + cs + after;
  }

  /** `_build_candidates` */
  method BuildCandidates(nodes: seq<Node>, scope: Scope, ghost v: Flags)
    returns (cs: seq<Candidate>)
    requires forall i :: 0 <= i < |nodes| ==> NodeMatches(nodes[i], v)
    ensures BuiltUpTo(cs, nodes, scope, v, |nodes|)
  {
    cs := [];
    for i := 0 to |nodes|
      invariant BuiltUpTo(cs, nodes, scope, v, i)
      invariant forall k :: 0 <= k < |nodes| ==> NodeMatches(nodes[k], v)
    {
      var added: seq<Candidate> := [];
      if i !in scope.protected {
        added := NodeCandidates(nodes[i], AgeWeight(nodes, i, scope), v);
      }
      BuildOne(cs, added, nodes, scope, v, i);
      cs := cs + added;
    }
  }

  // ----- the greedy loop

  datatype CompactionResult = CompactionResult(nodesCollapsed: nat, toolCallsDetailCollapsed: nat,
                                               estimatedSavings: int, tokensBefore: int, tokensAfter: int)

  /** Conversion to an integer drops the fraction. */
  function Truncated(x: real): (n: int)
    ensures x >= 0.0 ==> n as real <= x < n as real + 1.0
    ensures x < 0.0 ==> n as real - 1.0 < x <= n as real
  {
    if x >= 0.0 then x.Floor else -(-x).Floor
  }

  function TargetTokens(contextBudget: int, lowWatermark: real): int {
    Truncated(contextBudget as real * lowWatermark)
  }

  /** How much must be saved; nothing when the target is already met. A provider's count, where
      known, decides whether to act, and its fraction is applied to the estimate. */
  function SavingsNeeded(estimated: int, target: int, actual: Option<int>): (r: Option<int>)
    requires actual == Some(0) ==> target >= 0
    ensures r.Some? ==> r.value >= 1
    ensures r.None? <==> (if actual.Some? then actual.value else estimated) <= target
  {
    match actual
    case None => if estimated <= target then None else Some(estimated - target)
    case Some(count) =>
      if count <= target then None
      else Some(Max(1, Truncated(estimated as real * ((count - target) as real / count as real))))
  }

  /** `estimated_tokens` */
  method EstimatedTokens(nodes: seq<Node>, ghost v: Flags) returns (total: nat)
    requires forall i :: 0 <= i < |nodes| ==> NodeMatches(nodes[i], v)
    ensures total == TotalCost(nodes, v)
  {
    total := 0;
    for i := 0 to |nodes|
      invariant total == TotalCost(nodes[..i], v)
    {
      assert nodes[..i + 1][..i] == nodes[..i];
      assert NodeMatches(nodes[i], v);
      var cost := TokenCost(nodes[i], v);
      total := total + cost;
    }
    assert nodes[..|nodes|] == nodes;
  }

  /** `token_cost` */
  method TokenCost(n: Node, ghost v: Flags) returns (cost: nat)
    requires NodeMatches(n, v)
    ensures cost == NodeCost(n, v)
  {
    match n {
      case Prompt(p) => cost := if p.collapsed then p.CollapsedTokenCost() else p.ExpandedTokenCost();
      case Turn(t) => cost := TurnTokenCost(t, v);
      case Archive(_, notice) => cost := EstimateTokens(notice);
      case Housekeeping(_) => cost := 0;
    }
  }

  /** The object whose flag the action sets. */
  function Target(c: Candidate): set<object> {
    match c
    case CollapseTool(_, _, t) => {t}
    case CollapseAdvisory(_, _, a) => {a}
    case CollapseTurn(_, t) => {t}
    case CollapsePrompt(_, p) => {p}
  }

  predicate Within(c: Candidate, nodes: seq<Node>) {
    match c
    case CollapseTool(_, _, t) => t in Tools(nodes)
    case CollapseAdvisory(_, _, a) => a in Advisories(nodes)
    case CollapseTurn(_, t) => t in Turns(nodes)
    case CollapsePrompt(_, p) => p in Prompts(nodes)
  }

  lemma SoundIsWithin(c: Candidate, nodes: seq<Node>, scope: Scope, v0: Flags)
    requires Sound(c, nodes, scope, v0)
    ensures Within(c, nodes)
  {
    var i: nat :| i < |nodes| && i !in scope.protected && CandidateFor(c, nodes[i], AgeWeight(nodes, i, scope), v0);
    ObjectsOf(nodes, i);
  }

  /** The action, on the stored flags. */
  method Apply(c: Candidate, ghost nodes: seq<Node>)
    requires Within(c, nodes)
    modifies Target(c)
    ensures View(nodes) == After(old(View(nodes)), c)
  {
    match c {
      case CollapseTool(_, _, t) => t.detailCollapsed := true;
      case CollapseAdvisory(_, _, a) => a.collapsed := true;
      case CollapseTurn(_, t) => t.collapsed := true;
      case CollapsePrompt(_, p) => p.collapsed := true;
    }
  }

  /** The flags after a list of actions. */
  function AfterAll(v: Flags, steps: seq<Candidate>): Flags {
    if steps == [] then v else After(AfterAll(v, steps[..|steps| - 1]), steps[|steps| - 1])
  }

  function ToolSteps(steps: seq<Candidate>): nat {
    if steps == [] then 0
    else ToolSteps(steps[..|steps| - 1]) + (if steps[|steps| - 1].CollapseTool? then 1 else 0)
  }

  function NodeSteps(steps: seq<Candidate>): nat {
    if steps == [] then 0
    else
      var last := steps[|steps| - 1];
      NodeSteps(steps[..|steps| - 1]) + (if last.CollapseTurn? || last.CollapsePrompt? then 1 else 0)
  }

  /** Nothing that saved tokens in the starting state is left to do on the node. */
  ghost predicate NodeExhausted(n: Node, v0: Flags, v: Flags) {
    match n
    case Prompt(p) => PromptCollapsible(p, v0) ==> p in v.prompts
    case Turn(t) =>
      || t in v.turns
      || (&& !TurnCollapsible(t, v0)
          && (forall x :: x in t.tools && ToolCollapsible(x, v0) ==> x in v.tools)
          && (forall x :: x in t.advisories && AdvisoryCollapsible(x, v0) ==> x in v.advisories))
    case _ => true
  }

  ghost predicate Exhausted(nodes: seq<Node>, scope: Scope, v0: Flags, v: Flags) {
    forall i: nat :: i < |nodes| && i !in scope.protected ==> NodeExhausted(nodes[i], v0, v)
  }

  /** The first i candidates are applied or lie inside a collapsed turn. */
  ghost predicate Dealt(cs: seq<Candidate>, i: int, v: Flags) {
    forall k :: 0 <= k < i && k < |cs| ==> Applied(v, cs[k]) || InCollapsedTurn(v, cs[k])
  }

  lemma DealtNext(cs: seq<Candidate>, i: nat, v: Flags)
    requires i < |cs| && Dealt(cs, i, v)
    ensures Dealt(cs, i + 1, After(v, cs[i]))
    ensures InCollapsedTurn(v, cs[i]) ==> Dealt(cs, i + 1, v)
  {
  }

  lemma DealtWithAll(nodes: seq<Node>, scope: Scope, v0: Flags, v: Flags, cs: seq<Candidate>)
    requires BuiltUpTo(cs, nodes, scope, v0, |nodes|) && Dealt(cs, |cs|, v) && v0.turns <= v.turns
    ensures Exhausted(nodes, scope, v0, v)
  {
    hide AllCandidatesFor, Dealt, NodeExhausted, AgeWeight, Sound;
    forall i: nat | i < |nodes| && i !in scope.protected ensures NodeExhausted(nodes[i], v0, v) {
      NodeDealtWith(cs, nodes[i], AgeWeight(nodes, i, scope), v0, v);
    }
  }

  lemma IsDealt(cs: seq<Candidate>, v: Flags, c: Candidate)
    requires Dealt(cs, |cs|, v) && c in cs
    ensures Applied(v, c) || InCollapsedTurn(v, c)
  {
  }

  lemma NodeDealtWith(cs: seq<Candidate>, n: Node, weight: real, v0: Flags, v: Flags)
    requires AllCandidatesFor(cs, n, weight, v0) && Dealt(cs, |cs|, v) && v0.turns <= v.turns
    ensures NodeExhausted(n, v0, v)
  {
    hide Dealt, Decayed, ToolCollapsible, AdvisoryCollapsible, TurnCollapsible, PromptCollapsible;
    match n
    case Prompt(p) =>
      if PromptCollapsible(p, v0) {
        IsDealt(cs, v, CollapsePrompt(Decayed(p.salience, weight), p));
      }
    case Turn(t) =>
      if t !in v.turns {
        if TurnCollapsible(t, v0) {
          IsDealt(cs, v, CollapseTurn(Decayed(t.salience, weight) + TURN_SALIENCE_BUMP, t));
        }
        forall x | x in t.tools && ToolCollapsible(x, v0) ensures x in v.tools {
          IsDealt(cs, v, CollapseTool(Decayed(x.salience, weight), t, x));
        }
        forall x | x in t.advisories && AdvisoryCollapsible(x, v0) ensures x in v.advisories {
          IsDealt(cs, v, CollapseAdvisory(Decayed(x.salience, weight), t, x));
        }
      }
    case _ =>
  }

  lemma SortedBuilt(cs: seq<Candidate>, nodes: seq<Node>, scope: Scope, v: Flags)
    requires BuiltUpTo(cs, nodes, scope, v, |nodes|)
    ensures BuiltUpTo(StableSort(cs, LessSalient), nodes, scope, v, |nodes|)
    ensures SortedBy(StableSort(cs, LessSalient), LessSalient)
  {
    SameElements(cs, LessSalient);
    MoreOffered(cs, StableSort(cs, LessSalient), nodes, scope, v);
    SortSorts(cs, LessSalient);
  }

  lemma MoreOffered(cs: seq<Candidate>, sorted: seq<Candidate>, nodes: seq<Node>, scope: Scope, v: Flags)
    requires BuiltUpTo(cs, nodes, scope, v, |nodes|)
    requires forall c :: c in sorted <==> c in cs
    ensures BuiltUpTo(sorted, nodes, scope, v, |nodes|)
  {
  }

  // ----- the run

  /** What the actions add up to, and what the result reports of them. */
  ghost predicate Reports(r: CompactionResult, steps: seq<Candidate>, nodes: seq<Node>, v0: Flags, v: Flags, overhead: int) {
    && v == AfterAll(v0, steps)
    && r.toolCallsDetailCollapsed == ToolSteps(steps)
    && r.nodesCollapsed == NodeSteps(steps)
    && r.tokensBefore == TotalCost(nodes, v0) + overhead
    && r.tokensAfter == TotalCost(nodes, v) + overhead
    && r.estimatedSavings == r.tokensBefore - r.tokensAfter
  }

  /** The taken steps are early candidates, in order, none more salient than those to come. */
  ghost predicate Taken(cs: seq<Candidate>, i: int, steps: seq<Candidate>)
    requires 0 <= i <= |cs|
  {
    && (forall c :: c in steps ==> c in cs[..i])
    && SortedBy(steps, LessSalient)
    && (forall j, k :: 0 <= j < |steps| && 0 <= i <= k < |cs| ==> LessSalient(steps[j], cs[k]))
  }

  /** The loop's state before candidate i. */
  ghost predicate Midway(cs: seq<Candidate>, i: int, steps: seq<Candidate>, nodes: seq<Node>, scope: Scope,
                         v0: Flags, v: Flags)
    requires 0 <= i <= |cs|
  {
    && Running(nodes, scope, v0, v)
    && Dealt(cs, i, v)
    && v == AfterAll(v0, steps)
    && (forall c :: c in steps ==> Sound(c, nodes, scope, v0))
    && Taken(cs, i, steps)
  }

  lemma MidwayStart(cs: seq<Candidate>, nodes: seq<Node>, scope: Scope, v0: Flags)
    ensures Midway(cs, 0, [], nodes, scope, v0, v0)
  {
  }

  lemma MidwaySkip(cs: seq<Candidate>, i: nat, steps: seq<Candidate>, nodes: seq<Node>, scope: Scope,
                   v0: Flags, v: Flags)
    requires i < |cs| && Midway(cs, i, steps, nodes, scope, v0, v) && InCollapsedTurn(v, cs[i])
    ensures Midway(cs, i + 1, steps, nodes, scope, v0, v)
  {
    DealtNext(cs, i, v);
    assert cs[..i + 1] == cs[..i] + [cs[i]];
  }

  lemma MidwayStep(cs: seq<Candidate>, i: nat, steps: seq<Candidate>, nodes: seq<Node>, scope: Scope,
                   v0: Flags, v: Flags)
    requires i < |cs| && Midway(cs, i, steps, nodes, scope, v0, v)
    requires Proper(nodes) && Sound(cs[i], nodes, scope, v0) && SortedBy(cs, LessSalient)
    ensures Midway(cs, i + 1, steps + [cs[i]], nodes, scope, v0, After(v, cs[i]))
  {
    hide *;
    MidwayParts(cs, i, steps, nodes, scope, v0, v);
    DealtNext(cs, i, v);
    StepKeeps(nodes, scope, v0, v, cs[i]);
    OneMoreAfter(v0, steps, cs[i]);
    OneMoreTaken(cs, i, steps);
    MidwayWhole(cs, i + 1, steps + [cs[i]], nodes, scope, v0, After(v, cs[i]));
  }

  lemma MidwayParts(cs: seq<Candidate>, i: int, steps: seq<Candidate>, nodes: seq<Node>, scope: Scope, v0: Flags, v: Flags)
    requires 0 <= i <= |cs| && Midway(cs, i, steps, nodes, scope, v0, v)
    ensures Running(nodes, scope, v0, v) && Dealt(cs, i, v) && v == AfterAll(v0, steps)
    ensures (forall c :: c in steps ==> Sound(c, nodes, scope, v0)) && Taken(cs, i, steps)
  {
  }

  lemma MidwayWhole(cs: seq<Candidate>, i: int, steps: seq<Candidate>, nodes: seq<Node>, scope: Scope, v0: Flags, v: Flags)
    requires 0 <= i <= |cs| && Running(nodes, scope, v0, v) && Dealt(cs, i, v) && v == AfterAll(v0, steps)
    requires (forall c :: c in steps ==> Sound(c, nodes, scope, v0)) && Taken(cs, i, steps)
    ensures Midway(cs, i, steps, nodes, scope, v0, v)
  {
  }

  lemma OneMoreAfter(v0: Flags, steps: seq<Candidate>, c: Candidate)
    ensures AfterAll(v0, steps + [c]) == After(AfterAll(v0, steps), c)
  {
    assert (steps + [c])[..|steps|] == steps;
  }

  lemma OneMoreTaken(cs: seq<Candidate>, i: nat, steps: seq<Candidate>)
    requires i < |cs| && Taken(cs, i, steps) && SortedBy(cs, LessSalient)
    ensures Taken(cs, i + 1, steps + [cs[i]])
  {
    assert cs[..i + 1] == cs[..i] + [cs[i]];
  }

  lemma StepCounts(steps: seq<Candidate>, c: Candidate)
    ensures ToolSteps(steps + [c]) == ToolSteps(steps) + (if c.CollapseTool? then 1 else 0)
    ensures NodeSteps(steps + [c]) == NodeSteps(steps) + (if c.CollapseTurn? || c.CollapsePrompt? then 1 else 0)
  {
    assert (steps + [c])[..|steps|] == steps;
  }

  /** What a run promises of the flags: nothing protected changes, no node costs more than before,
      and a run that falls short of its goal has nothing left to collapse. */
  ghost predicate Compacted(nodes: seq<Node>, v0: Flags, v: Flags, needed: int,
                            tailNodes: int, tailToolCalls: int) {
    && (forall i: nat :: i < |nodes| ==> NodeCost(nodes[i], v) <= NodeCost(nodes[i], v0))
    && (forall i: nat :: i < |nodes| && IsProtected(nodes, i, tailNodes, tailToolCalls) ==> Untouched(nodes[i], v0, v))
    && (TotalCost(nodes, v0) - TotalCost(nodes, v) >= needed
        || forall i: nat :: i < |nodes| && !IsProtected(nodes, i, tailNodes, tailToolCalls) ==>
             NodeExhausted(nodes[i], v0, v))
  }

  /** Before each of its steps the run had not saved enough. */
  ghost predicate StoppedInTime(steps: seq<Candidate>, nodes: seq<Node>, v0: Flags, needed: int) {
    forall k :: 0 <= k < |steps| ==> TotalCost(nodes, v0) - TotalCost(nodes, AfterAll(v0, steps[..k])) < needed
  }

  lemma OneStepInTime(steps: seq<Candidate>, c: Candidate, nodes: seq<Node>, v0: Flags, needed: int)
    requires StoppedInTime(steps, nodes, v0, needed)
    requires TotalCost(nodes, v0) - TotalCost(nodes, AfterAll(v0, steps)) < needed
    ensures StoppedInTime(steps + [c], nodes, v0, needed)
  {
    var longer := steps + [c];
    forall k | 0 <= k < |longer| ensures TotalCost(nodes, v0) - TotalCost(nodes, AfterAll(v0, longer[..k])) < needed {
      if k < |steps| { assert longer[..k] == steps[..k]; } else { assert longer[..k] == steps; }
    }
  }

  /** Whatever saves tokens on the node and is less salient than `bound` was collapsed. */
  ghost predicate NodeGreedy(n: Node, weight: real, bound: real, v0: Flags, v: Flags) {
    match n
    case Prompt(p) => PromptCollapsible(p, v0) && Decayed(p.salience, weight) < bound ==> p in v.prompts
    case Turn(t) =>
      || t in v0.turns
      || (&& (TurnCollapsible(t, v0) && Decayed(t.salience, weight) + TURN_SALIENCE_BUMP < bound ==> t in v.turns)
          && (forall x :: x in t.tools && ToolCollapsible(x, v0) && Decayed(x.salience, weight) < bound ==>
                x in v.tools || t in v.turns)
          && (forall x :: x in t.advisories && AdvisoryCollapsible(x, v0) && Decayed(x.salience, weight) < bound ==>
                x in v.advisories || t in v.turns))
    case _ => true
  }

  /** Each step collapses something sound, and only after everything less salient. */
  ghost predicate LeastSalientFirst(steps: seq<Candidate>, nodes: seq<Node>, scope: Scope, v0: Flags, v: Flags) {
    && SortedBy(steps, LessSalient)
    && (forall c :: c in steps ==> Sound(c, nodes, scope, v0))
    && (forall i: nat, c :: i < |nodes| && i !in scope.protected && c in steps ==>
          NodeGreedy(nodes[i], AgeWeight(nodes, i, scope), c.effectiveSalience, v0, v))
  }

  lemma EarlierIsDealt(cs: seq<Candidate>, i: nat, v: Flags, c: Candidate, s: Candidate)
    requires i <= |cs| && SortedBy(cs, LessSalient) && Dealt(cs, i, v) && c in cs && s in cs[..i]
    requires c.effectiveSalience < s.effectiveSalience
    ensures Applied(v, c) || InCollapsedTurn(v, c)
  {
    var m :| 0 <= m < i && cs[m] == s;
    forall q | i <= q < |cs| ensures cs[q] != c {
      assert LessSalient(cs[m], cs[q]);
    }
    var k :| 0 <= k < |cs| && cs[k] == c;
  }

  lemma OneNodeGreedy(cs: seq<Candidate>, i: nat, v0: Flags, v: Flags, s: Candidate, n: Node, weight: real)
    requires i <= |cs| && SortedBy(cs, LessSalient) && Dealt(cs, i, v) && s in cs[..i]
    requires AllCandidatesFor(cs, n, weight, v0)
    ensures NodeGreedy(n, weight, s.effectiveSalience, v0, v)
  {
    var bound := s.effectiveSalience;
    match n
    case Prompt(p) =>
      if PromptCollapsible(p, v0) && Decayed(p.salience, weight) < bound {
        EarlierIsDealt(cs, i, v, CollapsePrompt(Decayed(p.salience, weight), p), s);
      }
    case Turn(t) =>
      hide SortedBy, Dealt, ToolCollapsible, AdvisoryCollapsible, TurnCollapsible, Decayed;
      if t !in v0.turns {
        var turn := CollapseTurn(Decayed(t.salience, weight) + TURN_SALIENCE_BUMP, t);
        if turn in cs && turn.effectiveSalience < bound {
          EarlierIsDealt(cs, i, v, turn, s);
        }
        forall x | x in t.tools && ToolCollapsible(x, v0) && Decayed(x.salience, weight) < bound
          ensures x in v.tools || t in v.turns
        {
          EarlierIsDealt(cs, i, v, CollapseTool(Decayed(x.salience, weight), t, x), s);
        }
        forall x | x in t.advisories && AdvisoryCollapsible(x, v0) && Decayed(x.salience, weight) < bound
          ensures x in v.advisories || t in v.turns
        {
          EarlierIsDealt(cs, i, v, CollapseAdvisory(Decayed(x.salience, weight), t, x), s);
        }
      }
    case _ =>
  }

  lemma GreedyAtExit(cs: seq<Candidate>, i: nat, steps: seq<Candidate>, nodes: seq<Node>, scope: Scope, v0: Flags, v: Flags)
    requires i <= |cs| && Midway(cs, i, steps, nodes, scope, v0, v)
    requires BuiltUpTo(cs, nodes, scope, v0, |nodes|) && SortedBy(cs, LessSalient)
    ensures LeastSalientFirst(steps, nodes, scope, v0, v)
  {
    hide Running, NodeGreedy, AllCandidatesFor, Sound;
    forall k: nat, c | k < |nodes| && k !in scope.protected && c in steps
      ensures NodeGreedy(nodes[k], AgeWeight(nodes, k, scope), c.effectiveSalience, v0, v)
    {
      OneNodeGreedy(cs, i, v0, v, c, nodes[k], AgeWeight(nodes, k, scope));
    }
  }

  lemma CompactedAtExit(cs: seq<Candidate>, i: nat, steps: seq<Candidate>, nodes: seq<Node>, scope: Scope,
                        v0: Flags, v: Flags, needed: int, tailNodes: int, tailToolCalls: int)
    requires i <= |cs| && Midway(cs, i, steps, nodes, scope, v0, v)
    requires BuiltUpTo(cs, nodes, scope, v0, |nodes|)
    requires ProtectedSet(scope.protected, nodes, tailNodes, tailToolCalls)
    requires TotalCost(nodes, v0) - TotalCost(nodes, v) >= needed || i == |cs|
    ensures Compacted(nodes, v0, v, needed, tailNodes, tailToolCalls)
  {
    forall k: nat | k < |nodes| ensures NodeCost(nodes[k], v) <= NodeCost(nodes[k], v0) {
      NodeCostFalls(nodes[k], v0, v);
    }
    if i == |cs| {
      DealtWithAll(nodes, scope, v0, v, cs);
    }
    hide NodeExhausted, NodeCost, IsProtected, Untouched, BuiltUpTo, Dealt, Grown;
  }

  /** Whether the action's turn is collapsed by now. */
  method ParentCollapsed(c: Candidate, ghost nodes: seq<Node>, ghost scope: Scope, ghost v0: Flags)
    returns (b: bool)
    requires Sound(c, nodes, scope, v0)
    ensures b == InCollapsedTurn(View(nodes), c)
  {
    ghost var i: nat :| i < |nodes| && i !in scope.protected && CandidateFor(c, nodes[i], AgeWeight(nodes, i, scope), v0);
    ObjectsOf(nodes, i);
    match c {
      case CollapseTool(_, turn, _) => b := turn.collapsed;
      case CollapseAdvisory(_, turn, _) => b := turn.collapsed;
      case _ => b := false;
    }
  }

  lemma NoStepInTime(nodes: seq<Node>, v0: Flags, needed: int)
    ensures StoppedInTime([], nodes, v0, needed)
  {
  }

  lemma MidwayFlags(cs: seq<Candidate>, i: int, steps: seq<Candidate>, nodes: seq<Node>, scope: Scope, v0: Flags, v: Flags)
    requires 0 <= i <= |cs| && Midway(cs, i, steps, nodes, scope, v0, v)
    ensures v == AfterAll(v0, steps)
  {
  }

  lemma StartCounts()
    ensures ToolSteps([]) == 0 && NodeSteps([]) == 0
  {
  }

  lemma MakeReport(r: CompactionResult, steps: seq<Candidate>, nodes: seq<Node>, v0: Flags, v: Flags, overhead: int,
                   cs: seq<Candidate>, i: int, scope: Scope)
    requires 0 <= i <= |cs| && Midway(cs, i, steps, nodes, scope, v0, v)
    requires r.toolCallsDetailCollapsed == ToolSteps(steps) && r.nodesCollapsed == NodeSteps(steps)
    requires r.tokensBefore == TotalCost(nodes, v0) + overhead && r.tokensAfter == TotalCost(nodes, v) + overhead
    requires r.estimatedSavings == r.tokensBefore - r.tokensAfter
    ensures Reports(r, steps, nodes, v0, v, overhead)
  {
  }

  lemma {:induction false} ObjectsAllocated(nodes: seq<Node>)
    ensures forall x :: x in Tools(nodes) ==> allocated(x)
    ensures forall x :: x in Advisories(nodes) ==> allocated(x)
    ensures forall x :: x in Turns(nodes) ==> allocated(x)
    ensures forall x :: x in Prompts(nodes) ==> allocated(x)
  {
    if nodes != [] { ObjectsAllocated(nodes[1..]); }
  }

  /** The loop of `compact`. */
  method CollapseInOrder(cs: seq<Candidate>, nodes: seq<Node>, ghost scope: Scope, needed: int, overhead: int)
    returns (r: CompactionResult, ghost steps: seq<Candidate>, ghost done: nat)
    requires Proper(nodes) && SortedBy(cs, LessSalient)
    requires forall c :: c in cs ==> Sound(c, nodes, scope, View(nodes))
    modifies Objects(nodes)
    ensures done <= |cs| && Midway(cs, done, steps, nodes, scope, old(View(nodes)), View(nodes))
    ensures Reports(r, steps, nodes, old(View(nodes)), View(nodes), overhead)
    ensures StoppedInTime(steps, nodes, old(View(nodes)), needed)
    ensures r.estimatedSavings >= needed || done == |cs|
  {
    hide *;
    ghost var v0 := View(nodes);
    ObjectsAllocated(nodes);
    ViewMatches(nodes);
    var before := EstimatedTokens(nodes, v0);
    var savings, toolCalls, collapsed := 0, 0, 0;
    var i := 0;
    steps := [];
    MidwayStart(cs, nodes, scope, v0);
    StartCounts();
    NoStepInTime(nodes, v0, needed);
    while i < |cs|
      invariant 0 <= i <= |cs| && Midway(cs, i, steps, nodes, scope, v0, View(nodes))
      invariant StoppedInTime(steps, nodes, v0, needed)
      invariant toolCalls == ToolSteps(steps) && collapsed == NodeSteps(steps)
      invariant before == TotalCost(nodes, v0) && savings == before - TotalCost(nodes, View(nodes))
    {
      if savings >= needed {
        break;
      }
      var c := cs[i];
      assert Sound(c, nodes, scope, v0);
      var inside := ParentCollapsed(c, nodes, scope, v0);
      if inside {
        MidwaySkip(cs, i, steps, nodes, scope, v0, View(nodes));
      } else {
        MidwayStep(cs, i, steps, nodes, scope, v0, View(nodes));
        StepCounts(steps, c);
        MidwayFlags(cs, i, steps, nodes, scope, v0, View(nodes));
        OneStepInTime(steps, c, nodes, v0, needed);
        SoundIsWithin(c, nodes, scope, v0);
        TargetWithin(c, nodes);
        Apply(c, nodes);
        ViewMatches(nodes);
        var now := EstimatedTokens(nodes, View(nodes));
        savings := before - now;
        toolCalls := toolCalls + if c.CollapseTool? then 1 else 0;
        collapsed := collapsed + if c.CollapseTurn? || c.CollapsePrompt? then 1 else 0;
        steps := steps + [c];
      }
      i := i + 1;
    }
    ViewMatches(nodes);
    var after := EstimatedTokens(nodes, View(nodes));
    r := CompactionResult(collapsed, toolCalls, before - after, before + overhead, after + overhead);
    done := i;
    MakeReport(r, steps, nodes, v0, View(nodes), overhead, cs, i, scope);
  }

  lemma TargetWithin(c: Candidate, nodes: seq<Node>)
    requires Within(c, nodes)
    ensures Target(c) <= Objects(nodes)
  {
  }

  /** The objects that hold the flags of the nodes. */
  function Objects(nodes: seq<Node>): set<object> {
    Tools(nodes) + Advisories(nodes) + Turns(nodes) + Prompts(nodes)
  }

  /** `compact` */
  method Compact(history: HistoryTree, contextBudget: int, lowWatermark: real, overhead: int, actual: Option<int>,
                 weight: nat -> real, tailNodes: int, tailToolCalls: int)
    returns (r: CompactionResult, ghost steps: seq<Candidate>)
    requires Proper(history.nodes)
    requires actual == Some(0) ==> TargetTokens(contextBudget, lowWatermark) >= 0
    modifies Objects(history.nodes)
    ensures history.nodes == old(history.nodes)
    ensures Reports(r, steps, history.nodes, old(View(history.nodes)), View(history.nodes), overhead)
    ensures var needed := SavingsNeeded(r.tokensBefore, TargetTokens(contextBudget, lowWatermark), actual);
      if needed.None? then steps == []
      else
        && Compacted(history.nodes, old(View(history.nodes)), View(history.nodes), needed.value, tailNodes, tailToolCalls)
        && StoppedInTime(steps, history.nodes, old(View(history.nodes)), needed.value)
        && GreedyRun(steps, history.nodes, weight, old(View(history.nodes)), View(history.nodes), tailNodes, tailToolCalls)
    ensures ReachesTarget(r, steps, history.nodes, old(View(history.nodes)), View(history.nodes), overhead,
                          TargetTokens(contextBudget, lowWatermark), actual, tailNodes, tailToolCalls)
  {
    hide *;
    var nodes := history.nodes;
    ghost var v0 := View(nodes);
    ObjectsAllocated(nodes);
    ViewMatches(nodes);
    var estimated := EstimatedTokens(nodes, v0);
    var needed := SavingsNeeded(estimated + overhead, TargetTokens(contextBudget, lowWatermark), actual);
    if needed.None? {
      steps := [];
      r := CompactionResult(0, 0, 0, estimated + overhead, estimated + overhead);
      StartCounts();
      MidwayStart([], nodes, Scope({}, weight), v0);
      MakeReport(r, steps, nodes, v0, v0, overhead, [], 0, Scope({}, weight));
      NothingToReach(r, nodes, v0, overhead, TargetTokens(contextBudget, lowWatermark), actual, tailNodes, tailToolCalls);
      return;
    }
    var protected := ProtectedIndices(nodes, tailNodes, tailToolCalls);
    var scope := Scope(protected, weight);
    ViewMatches(nodes);
    var candidates := BuildCandidates(nodes, scope, v0);
    SortedBuilt(candidates, nodes, scope, v0);
    candidates := StableSort(candidates, LessSalient);
    BuiltIsSound(candidates, nodes, scope, v0);
    TreeIsNoNode(history, nodes);
    ghost var done;
    r, steps, done := CollapseInOrder(candidates, nodes, scope, needed.value, overhead);
    ReportedSavings(r, steps, nodes, v0, View(nodes), overhead);
    GreedyAtExit(candidates, done, steps, nodes, scope, v0, View(nodes));
    GreedyIs(steps, nodes, scope, v0, View(nodes), tailNodes, tailToolCalls);
    CompactedAtExit(candidates, done, steps, nodes, scope, v0, View(nodes), needed.value, tailNodes, tailToolCalls);
    RunReaches(r, steps, nodes, v0, View(nodes), overhead, TargetTokens(contextBudget, lowWatermark), actual,
               tailNodes, tailToolCalls);
  }

  /** Nothing is left to collapse on any unprotected node. */
  ghost predicate AllExhausted(nodes: seq<Node>, v0: Flags, v: Flags, tailNodes: int, tailToolCalls: int) {
    forall i: nat :: i < |nodes| && !IsProtected(nodes, i, tailNodes, tailToolCalls) ==> NodeExhausted(nodes[i], v0, v)
  }

  /** What the first k steps save. */
  function SavedBy(steps: seq<Candidate>, k: nat, nodes: seq<Node>, v0: Flags): int
    requires k <= |steps|
  {
    TotalCost(nodes, v0) - TotalCost(nodes, AfterAll(v0, steps[..k]))
  }

  /** Without a provider's count the run ends at the target, or with nothing left to collapse, and before each
      step the total was above the target. With a count above the target, the share it saves is the share by which
      the count exceeds the target, short of less than one token and of at least one, or nothing is left; and before
      each step it had not saved one token yet, or could save another without exceeding that share. */
  ghost predicate ReachesTarget(r: CompactionResult, steps: seq<Candidate>, nodes: seq<Node>, v0: Flags, v: Flags, overhead: int,
                                target: int, actual: Option<int>, tailNodes: int, tailToolCalls: int) {
    match actual
    case None =>
      && (r.tokensAfter <= target || AllExhausted(nodes, v0, v, tailNodes, tailToolCalls))
      && forall k :: 0 <= k < |steps| ==> TotalCost(nodes, AfterAll(v0, steps[..k])) + overhead > target
    case Some(count) =>
      if count <= target then steps == []
      else if count <= 0 then true
      else
        && ((r.estimatedSavings >= 1 && IsShare(r.estimatedSavings, r.tokensBefore, count - target, count))
            || AllExhausted(nodes, v0, v, tailNodes, tailToolCalls))
        && forall k :: 0 <= k < |steps| ==>
             MaySaveAnother(SavedBy(steps, k, nodes, v0), r.tokensBefore, count - target, count)
  }

  lemma NothingToReach(r: CompactionResult, nodes: seq<Node>, v0: Flags, overhead: int, target: int, actual: Option<int>,
                       tailNodes: int, tailToolCalls: int)
    requires actual == Some(0) ==> target >= 0
    requires SavingsNeeded(r.tokensBefore, target, actual).None? && r.tokensAfter == r.tokensBefore
    ensures ReachesTarget(r, [], nodes, v0, v0, overhead, target, actual, tailNodes, tailToolCalls)
  {
  }

  lemma TimesKeepsOrder(a: real, b: real, c: real)
    requires a <= b && c > 0.0
    ensures a * c <= b * c && (a < b ==> a * c < b * c)
  {
  }

  lemma BelowProduct(q: real, u: int, product: int, count: int)
    requires count > 0 && q * count as real == product as real && q < u as real
    ensures product < u * count
  {
    TimesKeepsOrder(q, u as real, count as real);
    ProductAsReal(u, count);
    AsRealKeepsOrder(product, u * count);
  }

  lemma AboveProduct(q: real, u: int, product: int, count: int)
    requires count > 0 && q * count as real == product as real && u as real <= q
    ensures u * count <= product
  {
    TimesKeepsOrder(u as real, q, count as real);
    ProductAsReal(u, count);
    AsRealKeepsOrder(u * count, product);
  }

  /** The whole part of a quotient. */
  lemma WholePart(q: real, product: int, count: int)
    requires count > 0 && q * count as real == product as real
    ensures q.Floor * count <= product < (q.Floor + 1) * count
  {
    AboveProduct(q, q.Floor, product, count);
    BelowProduct(q, q.Floor + 1, product, count);
  }

  lemma ProductAsReal(a: int, b: int)
    ensures (a * b) as real == a as real * b as real
  {
  }

  lemma AsRealKeepsOrder(a: int, b: int)
    ensures (a as real <= b as real <==> a <= b) && (a as real < b as real <==> a < b)
  {
  }

  lemma QuotientTimes(total: int, excess: int, count: int)
    requires count > 0
    ensures total as real * (excess as real / count as real) * count as real == (total * excess) as real
  {
    var ratio := excess as real / count as real;
    assert ratio * count as real == excess as real;
    assert total as real * ratio * count as real == total as real * (ratio * count as real);
    assert (total * excess) as real == total as real * excess as real;
  }

  /** Saving this much is, short of less than one token, the share of the total that the excess is of the count. */
  predicate IsShare(saved: int, total: int, excess: int, count: int) {
    (saved + 1) * count > total * excess
  }

  /** Nothing is saved yet, or another token does not exceed that share. */
  predicate MaySaveAnother(saved: int, total: int, excess: int, count: int) {
    saved <= 0 || (saved + 1) * count <= total * excess
  }

  function Share(total: int, excess: int, count: int): int
    requires count != 0
  {
    Max(1, Truncated(total as real * (excess as real / count as real)))
  }

  /** Saving as much as needed, and saving less. */
  lemma SavesShare(total: int, excess: int, count: int, saved: int)
    requires count > 0 && excess > 0
    ensures saved >= Share(total, excess, count) ==> saved >= 1 && IsShare(saved, total, excess, count)
    ensures saved < Share(total, excess, count) ==> MaySaveAnother(saved, total, excess, count)
  {
    var q, product := total as real * (excess as real / count as real), total * excess;
    QuotientTimes(total, excess, count);
    WholePart(q, product, count);
    var t := q.Floor;
    if saved >= t { TimesInt(t + 1, saved + 1, count); }
    if saved < t { TimesInt(saved + 1, t, count); }
    if q < 0.0 {
      TimesInt(t + 1, 0, count);
      if saved >= 1 { TimesInt(1, saved + 1, count); }
    }
  }

  lemma TimesInt(a: int, b: int, c: int)
    requires a <= b && c > 0
    ensures a * c <= b * c
  {
  }

  lemma RunReaches(r: CompactionResult, steps: seq<Candidate>, nodes: seq<Node>, v0: Flags, v: Flags, overhead: int,
                   target: int, actual: Option<int>, tailNodes: int, tailToolCalls: int)
    requires actual == Some(0) ==> target >= 0
    requires Reports(r, steps, nodes, v0, v, overhead) && SavingsNeeded(r.tokensBefore, target, actual).Some?
    requires Compacted(nodes, v0, v, SavingsNeeded(r.tokensBefore, target, actual).value, tailNodes, tailToolCalls)
    requires StoppedInTime(steps, nodes, v0, SavingsNeeded(r.tokensBefore, target, actual).value)
    ensures ReachesTarget(r, steps, nodes, v0, v, overhead, target, actual, tailNodes, tailToolCalls)
  {
    hide *;
    var needed := SavingsNeeded(r.tokensBefore, target, actual).value;
    NeededIs(r.tokensBefore, target, actual);
    SavesOrExhausts(r, steps, nodes, v0, v, overhead, needed, tailNodes, tailToolCalls);
    match actual
    case None =>
      forall k | 0 <= k < |steps| ensures TotalCost(nodes, AfterAll(v0, steps[..k])) + overhead > target {
        NotYetSaved(steps, nodes, v0, needed, k);
      }
      ReachesWithout(r, steps, nodes, v0, v, overhead, target, tailNodes, tailToolCalls);
    case Some(count) =>
      if count > 0 {
        SavesShare(r.tokensBefore, count - target, count, r.estimatedSavings);
        forall k | 0 <= k < |steps|
          ensures MaySaveAnother(SavedBy(steps, k, nodes, v0), r.tokensBefore, count - target, count)
        {
          NotYetSaved(steps, nodes, v0, needed, k);
          SavesShare(r.tokensBefore, count - target, count, SavedBy(steps, k, nodes, v0));
        }
      }
      ReachesWith(r, steps, nodes, v0, v, overhead, target, count, tailNodes, tailToolCalls);
  }

  lemma NeededIs(total: int, target: int, actual: Option<int>)
    requires (actual == Some(0) ==> target >= 0) && SavingsNeeded(total, target, actual).Some?
    ensures match actual
      case None => total > target && SavingsNeeded(total, target, actual).value == total - target
      case Some(count) =>
        && count > target && count != 0
        && SavingsNeeded(total, target, actual).value == Share(total, count - target, count)
  {
  }

  lemma SavesOrExhausts(r: CompactionResult, steps: seq<Candidate>, nodes: seq<Node>, v0: Flags, v: Flags, overhead: int,
                        needed: int, tailNodes: int, tailToolCalls: int)
    requires Reports(r, steps, nodes, v0, v, overhead) && Compacted(nodes, v0, v, needed, tailNodes, tailToolCalls)
    ensures r.estimatedSavings >= needed || AllExhausted(nodes, v0, v, tailNodes, tailToolCalls)
    ensures r.tokensBefore == TotalCost(nodes, v0) + overhead && r.estimatedSavings == r.tokensBefore - r.tokensAfter
  {
    hide NodeExhausted, NodeCost, Untouched, IsProtected, TotalCost, AfterAll;
  }

  lemma NotYetSaved(steps: seq<Candidate>, nodes: seq<Node>, v0: Flags, needed: int, k: nat)
    requires StoppedInTime(steps, nodes, v0, needed) && k < |steps|
    ensures SavedBy(steps, k, nodes, v0) < needed
    ensures TotalCost(nodes, v0) - TotalCost(nodes, AfterAll(v0, steps[..k])) < needed
  {
    hide TotalCost, AfterAll;
  }

  lemma ReachesWithout(r: CompactionResult, steps: seq<Candidate>, nodes: seq<Node>, v0: Flags, v: Flags, overhead: int,
                       target: int, tailNodes: int, tailToolCalls: int)
    requires r.tokensAfter <= target || AllExhausted(nodes, v0, v, tailNodes, tailToolCalls)
    requires forall k :: 0 <= k < |steps| ==> TotalCost(nodes, AfterAll(v0, steps[..k])) + overhead > target
    ensures ReachesTarget(r, steps, nodes, v0, v, overhead, target, None, tailNodes, tailToolCalls)
  {
    hide TotalCost, AfterAll, AllExhausted;
  }

  lemma ReachesWith(r: CompactionResult, steps: seq<Candidate>, nodes: seq<Node>, v0: Flags, v: Flags, overhead: int,
                    target: int, count: int, tailNodes: int, tailToolCalls: int)
    requires count > target
    requires count > 0 ==>
      || (r.estimatedSavings >= 1 && IsShare(r.estimatedSavings, r.tokensBefore, count - target, count))
      || AllExhausted(nodes, v0, v, tailNodes, tailToolCalls)
    requires count > 0 ==>
      forall k :: 0 <= k < |steps| ==>
        MaySaveAnother(SavedBy(steps, k, nodes, v0), r.tokensBefore, count - target, count)
    ensures ReachesTarget(r, steps, nodes, v0, v, overhead, target, Some(count), tailNodes, tailToolCalls)
  {
    hide SavedBy, IsShare, MaySaveAnother, AllExhausted;
  }

  /** The run took the least salient actions first, among those on unprotected nodes. */
  ghost predicate GreedyRun(steps: seq<Candidate>, nodes: seq<Node>, weight: nat -> real, v0: Flags, v: Flags,
                            tailNodes: int, tailToolCalls: int) {
    exists protected: set<nat> ::
      ProtectedSet(protected, nodes, tailNodes, tailToolCalls)
      && LeastSalientFirst(steps, nodes, Scope(protected, weight), v0, v)
  }

  lemma GreedyIs(steps: seq<Candidate>, nodes: seq<Node>, scope: Scope, v0: Flags, v: Flags, tailNodes: int, tailToolCalls: int)
    requires ProtectedSet(scope.protected, nodes, tailNodes, tailToolCalls) && LeastSalientFirst(steps, nodes, scope, v0, v)
    ensures GreedyRun(steps, nodes, scope.weight, v0, v, tailNodes, tailToolCalls)
  {
    assert scope == Scope(scope.protected, scope.weight);
  }

  lemma TreeIsNoNode(history: HistoryTree, nodes: seq<Node>)
    ensures history !in Objects(nodes)
  {
  }

  lemma BuiltIsSound(cs: seq<Candidate>, nodes: seq<Node>, scope: Scope, v: Flags)
    requires BuiltUpTo(cs, nodes, scope, v, |nodes|)
    ensures forall c :: c in cs ==> Sound(c, nodes, scope, v)
  {
  }

  lemma ReportedSavings(r: CompactionResult, steps: seq<Candidate>, nodes: seq<Node>, v0: Flags, v: Flags, overhead: int)
    requires Reports(r, steps, nodes, v0, v, overhead)
    ensures r.tokensBefore == TotalCost(nodes, v0) + overhead
    ensures r.estimatedSavings == TotalCost(nodes, v0) - TotalCost(nodes, v)
  {
  }

  /** A single step can cost more than it saves: a turn whose summary names many advisories, once its
      one long result is collapsed, is cheaper expanded than collapsed, though both steps are candidates. */
  method StepThatCosts() returns (t: TurnNode, tool: ToolCallNode, v0: Flags)
    ensures tool in t.tools && ToolCollapsible(tool, v0) && TurnCollapsible(t, v0)
    ensures var v := After(v0, CollapseTool(0.0, t, tool));
      NodeCost(Turn(t), After(v, CollapseTurn(0.0, t))) > NodeCost(Turn(t), v)
  {
    v0 := Flags({}, {}, {}, {});
    tool := new ToolCallNode(ToolCall("1", "f", ""), ToolResult("1", seq(400, _ => 'r'), false), "", "f()", 0.0);
    var advisory := new AdvisoryNode(seq(40, _ => 's'), "note", 0.0);
    t := new TurnNode("", [tool], [advisory], 0.0);
    ghost var v := After(v0, CollapseTool(0.0, t, tool));
    CostsOfOne(t, tool, advisory, v0);
    CostsOfOne(t, tool, advisory, v);
    assert AdvisorySources(t.advisories) == [advisory.source];
    assert ToolSummaries(t.tools) == [tool.summary];
    var mention := "[advisories: " + advisory.source + "]";
    assert Join([advisory.source], ", ") == advisory.source;
    assert t.Summary() == Join(["f()"] + [mention], " | ");
    assert (["f()"] + [mention])[1..] == [mention];
    assert |t.Summary()| >= 50;
  }

  lemma CostsOfOne(t: TurnNode, tool: ToolCallNode, advisory: AdvisoryNode, v: Flags)
    requires t.tools == [tool] && t.advisories == [advisory]
    ensures ToolCosts(t.tools, v) == ToolCost(tool, v) && AdvisoryCosts(t.advisories, v) == AdvisoryCost(advisory, v)
  {
    assert t.tools[..0] == [] && t.advisories[..0] == [];
  }
}
