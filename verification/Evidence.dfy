// What of the file observations of a history reaches the request, and what does not.
module Evidence {
  import opened History
  import opened Optional
  import opened Projection
  import opened Transcript
  import LineNumbers
  import Observations
  import ObservationPlanner

  /** What the planner sees of the tools: what their names and texts mean. */
  datatype Reading = Reading(world: Observations.World, policy: Observations.Policy, kind: string -> Observations.Tool,
                             note: Observations.Replacement -> string)

  function AsCall(t: ToolCallNode, kind: string -> Observations.Tool): Observations.Call {
    Observations.Call(t.toolCall.callId, kind(t.toolCall.name), t.result.isError, t.toolCall.arguments, t.result.content)
  }

  function StoredTools(tools: seq<ToolCallNode>, v: Flags, kind: string -> Observations.Tool): (r: seq<ObservationPlanner.StoredCall>)
    ensures |r| == |tools|
  {
    seq(|tools|, k requires 0 <= k < |tools| => ObservationPlanner.StoredCall(AsCall(tools[k], kind), tools[k] in v.tools))
  }

  /** The history as the planner sees it. */
  function ForPlanner(nodes: seq<Node>, v: Flags, kind: string -> Observations.Tool): (r: seq<ObservationPlanner.Node>)
    ensures |r| == |nodes|
  {
    seq(|nodes|, i requires 0 <= i < |nodes| =>
      if nodes[i].Turn? then ObservationPlanner.Turn(nodes[i].turn in v.turns, StoredTools(nodes[i].turn.tools, v, kind))
      else ObservationPlanner.NotATurn)
  }

  function Visible(nodes: seq<Node>, v: Flags, kind: string -> Observations.Tool): seq<Observations.Call> {
    ObservationPlanner.VisibleCalls(ForPlanner(nodes, v, kind))
  }

  /** The replacement as a request's plan holds it. */
  function ForRequest(r: Observations.Replacement, note: Observations.Replacement -> string): (q: Replacement)
    ensures q.stale <==> r.StaleObservation?
    ensures q.superseding == if q.stale then None else Some(r.supersedingId)
  {
    match r
    case StaleObservation(id) => Replacement(id, note(r), true, None)
    case RedundantObservation(id, later) => Replacement(id, note(r), false, Some(later))
  }

  function ForRequests(rs: seq<Observations.Replacement>, note: Observations.Replacement -> string): (r: seq<Replacement>)
    ensures |r| == |rs|
  {
    seq(|rs|, k requires 0 <= k < |rs| => ForRequest(rs[k], note))
  }

  /** The replacements of the planner. */
  function PlannedReplacements(nodes: seq<Node>, v: Flags, reading: Reading): seq<Replacement> {
    var calls := Visible(nodes, v, reading.kind);
    ForRequests(Observations.Planned(reading.world, reading.policy, calls, |calls|), reading.note)
  }

  // ----- where the visible calls are

  /** The call stands expanded in an expanded turn. */
  ghost predicate StandsAt(nodes: seq<Node>, v: Flags, i: nat, k: nat) {
    && i < |nodes| && nodes[i].Turn? && nodes[i].turn !in v.turns
    && k < |nodes[i].turn.tools| && nodes[i].turn.tools[k] !in v.tools
  }

  ghost predicate ShownInTurn(calls: seq<ObservationPlanner.StoredCall>, c: Observations.Call) {
    exists k :: 0 <= k < |calls| && !calls[k].detailCollapsed && calls[k].call == c
  }

  ghost predicate ShownInNodes(nodes: seq<ObservationPlanner.Node>, c: Observations.Call) {
    exists i: nat :: i < |nodes| && nodes[i].Turn? && !nodes[i].collapsed && ShownInTurn(nodes[i].calls, c)
  }

  lemma {:induction false} InTurn(calls: seq<ObservationPlanner.StoredCall>, c: Observations.Call)
    ensures c in ObservationPlanner.VisibleInTurn(calls) <==> ShownInTurn(calls, c)
  {
    if calls != [] {
      InTurn(calls[1..], c);
      if k :| 0 <= k < |calls| && !calls[k].detailCollapsed && calls[k].call == c {
        if k > 0 { assert calls[1..][k - 1] == calls[k]; }
      }
    }
  }

  lemma {:induction false} InNodes(nodes: seq<ObservationPlanner.Node>, c: Observations.Call)
    ensures c in ObservationPlanner.VisibleCalls(nodes) <==> ShownInNodes(nodes, c)
  {
    if nodes != [] {
      InNodes(nodes[1..], c);
      if nodes[0].Turn? { InTurn(nodes[0].calls, c); }
      hide ShownInTurn, ObservationPlanner.VisibleInTurn;
      if i: nat :| i < |nodes| && nodes[i].Turn? && !nodes[i].collapsed && ShownInTurn(nodes[i].calls, c) {
        if i > 0 { assert nodes[1..][i - 1] == nodes[i]; }
      }
      if i: nat :| i < |nodes[1..]| && nodes[1..][i].Turn? && !nodes[1..][i].collapsed && ShownInTurn(nodes[1..][i].calls, c) {
        assert nodes[1..][i] == nodes[i + 1];
      }
    }
  }

  /** The visible calls are those that stand expanded. */
  lemma VisibleStands(nodes: seq<Node>, v: Flags, kind: string -> Observations.Tool, c: Observations.Call)
    ensures c in Visible(nodes, v, kind) <==>
      exists i: nat, k: nat :: StandsAt(nodes, v, i, k) && AsCall(nodes[i].turn.tools[k], kind) == c
  {
    InNodes(ForPlanner(nodes, v, kind), c);
    hide AsCall;
    if c in Visible(nodes, v, kind) {
      FoundStands(nodes, v, kind, c);
    }
    if i: nat, k: nat :| StandsAt(nodes, v, i, k) && AsCall(nodes[i].turn.tools[k], kind) == c {
      assert !StoredTools(nodes[i].turn.tools, v, kind)[k].detailCollapsed;
      assert ShownInTurn(ForPlanner(nodes, v, kind)[i].calls, c);
    }
  }

  lemma FoundStands(nodes: seq<Node>, v: Flags, kind: string -> Observations.Tool, c: Observations.Call)
    requires ShownInNodes(ForPlanner(nodes, v, kind), c)
    ensures exists i: nat, k: nat :: StandsAt(nodes, v, i, k) && AsCall(nodes[i].turn.tools[k], kind) == c
  {
    hide AsCall;
    var shown := ForPlanner(nodes, v, kind);
    var i: nat :| i < |nodes| && shown[i].Turn? && !shown[i].collapsed && ShownInTurn(shown[i].calls, c);
    var k :| 0 <= k < |shown[i].calls| && !shown[i].calls[k].detailCollapsed && shown[i].calls[k].call == c;
    assert StandsAt(nodes, v, i, k);
  }

  // ----- unique identifiers

  ghost predicate DistinctInTurn(calls: seq<ObservationPlanner.StoredCall>) {
    forall k, l :: 0 <= k < l < |calls| ==> calls[k].call.id != calls[l].call.id
  }

  ghost predicate Apart(a: seq<ObservationPlanner.StoredCall>, b: seq<ObservationPlanner.StoredCall>) {
    forall k, l :: 0 <= k < |a| && 0 <= l < |b| ==> a[k].call.id != b[l].call.id
  }

  ghost predicate DistinctShown(nodes: seq<ObservationPlanner.Node>) {
    && (forall i :: 0 <= i < |nodes| && nodes[i].Turn? ==> DistinctInTurn(nodes[i].calls))
    && (forall i, j :: 0 <= i < j < |nodes| && nodes[i].Turn? && nodes[j].Turn? ==> Apart(nodes[i].calls, nodes[j].calls))
  }

  lemma UniqueAppend(a: seq<Observations.Call>, b: seq<Observations.Call>)
    requires Observations.UniqueIds(a) && Observations.UniqueIds(b)
    requires forall c, d :: c in a && d in b ==> c.id != d.id
    ensures Observations.UniqueIds(a + b)
  {
  }

  lemma {:induction false} UniqueInTurn(calls: seq<ObservationPlanner.StoredCall>)
    requires DistinctInTurn(calls)
    ensures Observations.UniqueIds(ObservationPlanner.VisibleInTurn(calls))
  {
    if calls != [] {
      UniqueInTurn(calls[1..]);
      var rest := ObservationPlanner.VisibleInTurn(calls[1..]);
      forall d | d in rest ensures d.id != calls[0].call.id {
        InTurn(calls[1..], d);
      }
      UniqueAppend(if calls[0].detailCollapsed then [] else [calls[0].call], rest);
    }
  }

  lemma {:induction false} UniqueInNodes(nodes: seq<ObservationPlanner.Node>)
    requires DistinctShown(nodes)
    ensures Observations.UniqueIds(ObservationPlanner.VisibleCalls(nodes))
  {
    if nodes != [] {
      UniqueInNodes(nodes[1..]);
      var rest := ObservationPlanner.VisibleCalls(nodes[1..]);
      if nodes[0].Turn? && !nodes[0].collapsed {
        var first := ObservationPlanner.VisibleInTurn(nodes[0].calls);
        UniqueInTurn(nodes[0].calls);
        forall c, d | c in first && d in rest ensures c.id != d.id {
          FirstApart(nodes, c, d);
        }
        UniqueAppend(first, rest);
      } else {
        assert [] + rest == rest;
      }
    }
  }

  lemma FirstApart(nodes: seq<ObservationPlanner.Node>, c: Observations.Call, d: Observations.Call)
    requires nodes != [] && DistinctShown(nodes) && nodes[0].Turn? && !nodes[0].collapsed
    requires c in ObservationPlanner.VisibleInTurn(nodes[0].calls) && d in ObservationPlanner.VisibleCalls(nodes[1..])
    ensures c.id != d.id
  {
    InTurn(nodes[0].calls, c);
    InNodes(nodes[1..], d);
    hide ObservationPlanner.VisibleCalls, ObservationPlanner.VisibleInTurn;
    var j: nat :| j < |nodes[1..]| && nodes[1..][j].Turn? && ShownInTurn(nodes[1..][j].calls, d);
    assert Apart(nodes[0].calls, nodes[j + 1].calls);
  }

  lemma UniqueVisible(nodes: seq<Node>, v: Flags, kind: string -> Observations.Tool)
    requires UniqueCallIds(nodes)
    ensures Observations.UniqueIds(Visible(nodes, v, kind))
  {
    var shown := ForPlanner(nodes, v, kind);
    assert forall i :: 0 <= i < |nodes| && nodes[i].Turn? ==> DistinctInTurn(shown[i].calls);
    assert forall i, j :: 0 <= i < j < |nodes| && nodes[i].Turn? && nodes[j].Turn? ==> Apart(shown[i].calls, shown[j].calls);
    UniqueInNodes(shown);
  }

  // ----- what replaces a visible call

  lemma DecisionNames(w: Observations.World, policy: Observations.Policy, calls: seq<Observations.Call>, i: nat)
    requires i < |calls|
    ensures var decision := Observations.Decision(w, policy, calls, i);
      decision.Some? ==> (match decision.value case StaleObservation(id) => id case RedundantObservation(id, _) => id) == calls[i].id
  {
  }

  lemma {:induction false} FirstOfMore(a: seq<Replacement>, b: seq<Replacement>, id: string)
    ensures FirstReplacement(a + b, id) == if FirstReplacement(a, id).Some? then FirstReplacement(a, id) else FirstReplacement(b, id)
  {
    if a == [] {
      assert a + b == b;
    } else {
      assert (a + b)[1..] == a[1..] + b;
      FirstOfMore(a[1..], b, id);
    }
  }

  lemma ForMore(a: seq<Observations.Replacement>, b: seq<Observations.Replacement>, note: Observations.Replacement -> string)
    ensures ForRequests(a + b, note) == ForRequests(a, note) + ForRequests(b, note)
  {
  }

  /** The plan replaces exactly the results the planner decided on. */
  lemma {:induction false} ReplacedIff(reading: Reading, calls: seq<Observations.Call>, n: nat, p: nat)
    requires Observations.UniqueIds(calls) && n <= |calls| && p < |calls|
    ensures var rs := ForRequests(Observations.Planned(reading.world, reading.policy, calls, n), reading.note);
      FirstReplacement(rs, calls[p].id) ==
        if p < n && Observations.Decision(reading.world, reading.policy, calls, p).Some?
        then Some(reading.note(Observations.Decision(reading.world, reading.policy, calls, p).value)) else None
  {
    hide *;
    if n == 0 {
      NonePlanned(reading, calls, calls[p].id);
    } else {
      ReplacedIff(reading, calls, n - 1, p);
      OneMorePlanned(reading, calls, n, calls[p].id);
      SamePlace(calls, p, n - 1);
    }
  }

  lemma NonePlanned(reading: Reading, calls: seq<Observations.Call>, id: string)
    ensures FirstReplacement(ForRequests(Observations.Planned(reading.world, reading.policy, calls, 0), reading.note), id) == None
  {
  }

  lemma SamePlace(calls: seq<Observations.Call>, p: nat, q: nat)
    requires Observations.UniqueIds(calls) && p < |calls| && q < |calls|
    ensures calls[p].id == calls[q].id <==> p == q
  {
  }

  lemma OneMorePlanned(reading: Reading, calls: seq<Observations.Call>, n: nat, id: string)
    requires 0 < n <= |calls|
    ensures var decision := Observations.Decision(reading.world, reading.policy, calls, n - 1);
      var before := ForRequests(Observations.Planned(reading.world, reading.policy, calls, n - 1), reading.note);
      var now := ForRequests(Observations.Planned(reading.world, reading.policy, calls, n), reading.note);
      FirstReplacement(now, id) ==
        if FirstReplacement(before, id).None? && decision.Some? && calls[n - 1].id == id
        then Some(reading.note(decision.value)) else FirstReplacement(before, id)
  {
    var before := Observations.Planned(reading.world, reading.policy, calls, n - 1);
    var decision := Observations.Decision(reading.world, reading.policy, calls, n - 1);
    DecisionNames(reading.world, reading.policy, calls, n - 1);
    hide Observations.Decision;
    match decision
    case Some(r) =>
      ForMore(before, [r], reading.note);
      FirstOfMore(ForRequests(before, reading.note), ForRequests([r], reading.note), id);
    case None =>
      assert before + [] == before;
  }

  // ----- the message that answers a call

  /** The result of the k-th call of the turn, under the plan. */
  function ResultOf(t: TurnNode, k: nat, v: Flags, plan: RenderPlan, folded: set<string>, foldedNote: ToolCallNode -> string): Message
    requires k < |t.tools|
  {
    var m := PlannedResult(t.tools[k], v, plan, folded, foldedNote);
    m.(content := m.content + Appended(k, |t.tools|, AdvisoriesText(t.advisories, v)))
  }

  /** Turns the request sends with their results. */
  predicate Expanded(nodes: seq<Node>, i: nat, v: Flags, plan: RenderPlan) {
    i < |nodes| && nodes[i].Turn? && nodes[i].turn !in v.turns && i !in plan.collapsedTurns
  }

  lemma UntouchedAlike(t: TurnNode, v: Flags, plan: RenderPlan, folded: set<string>, foldedNote: ToolCallNode -> string)
    requires forall k :: 0 <= k < |t.tools| ==> !Touched(t.tools[k], plan, folded)
    ensures StoredCalls(t.tools, v) == PlannedCalls(t.tools, v, plan)
    ensures StoredResults(t.tools, v) == PlannedResults(t.tools, v, plan, folded, foldedNote)
  {
  }

  /** The results of a turn, in the shortcut too. */
  lemma ExpandedTurn(t: TurnNode, index: nat, v: Flags, plan: RenderPlan, folded: set<string>, foldedNote: ToolCallNode -> string)
    requires t !in v.turns && index !in plan.collapsedTurns
    ensures var messages := PlannedTurn(t, index, v, plan, folded, foldedNote);
      && messages != [] && messages[0] == Assistant(t.assistantContent, PlannedCalls(t.tools, v, plan))
      && messages[1..] == WithAdvisories(PlannedResults(t.tools, v, plan, folded, foldedNote), AdvisoriesText(t.advisories, v))
  {
    if forall k :: 0 <= k < |t.tools| ==> !Touched(t.tools[k], plan, folded) {
      UntouchedAlike(t, v, plan, folded, foldedNote);
    }
    hide WithAdvisories, PlannedResults, StoredResults, AdvisoriesText, Touched, PlannedCalls, StoredCalls;
  }

  lemma TurnResults(t: TurnNode, index: nat, v: Flags, plan: RenderPlan, folded: set<string>, foldedNote: ToolCallNode -> string,
                    m: Message)
    requires m.ToolMessage?
    ensures m in PlannedTurn(t, index, v, plan, folded, foldedNote) <==>
      && t !in v.turns && index !in plan.collapsedTurns
      && exists k :: 0 <= k < |t.tools| && m == ResultOf(t, k, v, plan, folded, foldedNote)
  {
    hide *;
    if t !in v.turns && index !in plan.collapsedTurns {
      ExpandedTurn(t, index, v, plan, folded, foldedNote);
      var messages := PlannedTurn(t, index, v, plan, folded, foldedNote);
      assert messages == [messages[0]] + messages[1..];
      ResultsAre(t, v, plan, folded, foldedNote, messages[1..]);
      assert m in messages <==> m in messages[1..];
    } else {
      CollapsedTurnSilent(t, index, v, plan, folded, foldedNote);
    }
  }

  lemma ResultsAre(t: TurnNode, v: Flags, plan: RenderPlan, folded: set<string>, foldedNote: ToolCallNode -> string, results: seq<Message>)
    requires results == WithAdvisories(PlannedResults(t.tools, v, plan, folded, foldedNote), AdvisoriesText(t.advisories, v))
    ensures |results| == |t.tools|
    ensures forall k :: 0 <= k < |t.tools| ==> results[k] == ResultOf(t, k, v, plan, folded, foldedNote)
  {
    hide AdvisoriesText, PlannedResult, Appended;
  }

  lemma CollapsedTurnSilent(t: TurnNode, index: nat, v: Flags, plan: RenderPlan, folded: set<string>, foldedNote: ToolCallNode -> string)
    requires t in v.turns || index in plan.collapsedTurns
    ensures forall m :: m in PlannedTurn(t, index, v, plan, folded, foldedNote) ==> !m.ToolMessage?
  {
  }

  lemma {:induction false} RequestResults(nodes: seq<Node>, n: nat, v: Flags, plan: RenderPlan, folded: set<string>,
                                          foldedNote: ToolCallNode -> string, m: Message)
    requires n <= |nodes| && m.ToolMessage?
    ensures m in Rendered(nodes, n, v, plan, folded, foldedNote) <==>
      exists i: nat, k: nat :: i < n && Expanded(nodes, i, v, plan) && k < |nodes[i].turn.tools|
        && m == ResultOf(nodes[i].turn, k, v, plan, folded, foldedNote)
  {
    hide PlannedTurn, ResultOf;
    if n > 0 {
      RequestResults(nodes, n - 1, v, plan, folded, foldedNote, m);
      if nodes[n - 1].Turn? {
        TurnResults(nodes[n - 1].turn, n - 1, v, plan, folded, foldedNote, m);
      }
    }
  }

  /** The only results under the call's identifier, and there is one, say the text and then the turn's
      advisories where they are due. */
  ghost predicate Says(messages: seq<Message>, t: TurnNode, k: nat, v: Flags, text: string)
    requires k < |t.tools|
  {
    && !Silent(messages, t.tools[k].toolCall.callId)
    && forall m :: m in messages && m.ToolMessage? && m.callId == t.tools[k].toolCall.callId ==>
         m.content == text + Appended(k, |t.tools|, AdvisoriesText(t.advisories, v))
  }

  ghost predicate Silent(messages: seq<Message>, id: string) {
    forall m :: m in messages && m.ToolMessage? ==> m.callId != id
  }

  lemma SaysOneText(messages: seq<Message>, t: TurnNode, k: nat, v: Flags, a: string, b: string)
    requires k < |t.tools| && Says(messages, t, k, v, a) && Says(messages, t, k, v, b)
    ensures a == b
  {
    var rest := Appended(k, |t.tools|, AdvisoriesText(t.advisories, v));
    assert a + rest == b + rest;
    assert |a| == |b|;
    assert (a + rest)[..|a|] == a && (b + rest)[..|b|] == b;
  }

  /** Of a result the request sends exactly what its plan says, or nothing when the turn is collapsed. */
  lemma ResultSent(nodes: seq<Node>, i: nat, k: nat, v: Flags, plan: RenderPlan, folded: set<string>,
                   foldedNote: ToolCallNode -> string, context: string)
    requires Proper(nodes) && UniqueCallIds(nodes) && i < |nodes| && nodes[i].Turn? && k < |nodes[i].turn.tools|
    ensures var messages := WithContext(Rendered(nodes, |nodes|, v, plan, folded, foldedNote), context);
      var t := nodes[i].turn;
      if Expanded(nodes, i, v, plan) then Says(messages, t, k, v, PlannedResult(t.tools[k], v, plan, folded, foldedNote).content)
      else Silent(messages, t.tools[k].toolCall.callId)
  {
    hide *;
    var messages := Rendered(nodes, |nodes|, v, plan, folded, foldedNote);
    var t := nodes[i].turn;
    forall m: Message | m.ToolMessage? && m.callId == t.tools[k].toolCall.callId
      ensures m in messages <==> Expanded(nodes, i, v, plan) && m == ResultOf(t, k, v, plan, folded, foldedNote)
    {
      OnlyResult(nodes, i, k, v, plan, folded, foldedNote, m);
    }
    ProperAnswers(nodes, i);
    OnlyResultSays(messages, t, k, v, plan, folded, foldedNote, context, Expanded(nodes, i, v, plan));
  }

  lemma OnlyResult(nodes: seq<Node>, i: nat, k: nat, v: Flags, plan: RenderPlan, folded: set<string>,
                   foldedNote: ToolCallNode -> string, m: Message)
    requires Proper(nodes) && UniqueCallIds(nodes) && i < |nodes| && nodes[i].Turn? && k < |nodes[i].turn.tools|
    requires m.ToolMessage? && m.callId == nodes[i].turn.tools[k].toolCall.callId
    ensures m in Rendered(nodes, |nodes|, v, plan, folded, foldedNote) <==>
      Expanded(nodes, i, v, plan) && m == ResultOf(nodes[i].turn, k, v, plan, folded, foldedNote)
  {
    RequestResults(nodes, |nodes|, v, plan, folded, foldedNote, m);
    hide PlannedResult, Appended, AdvisoriesText, Rendered, Proper;
    if j: nat, l: nat :|
      j < |nodes| && Expanded(nodes, j, v, plan) && l < |nodes[j].turn.tools| && m == ResultOf(nodes[j].turn, l, v, plan, folded, foldedNote)
    {
      ProperAnswers(nodes, j);
    }
  }

  lemma OnlyResultSays(messages: seq<Message>, t: TurnNode, k: nat, v: Flags, plan: RenderPlan, folded: set<string>,
                       foldedNote: ToolCallNode -> string, context: string, sent: bool)
    requires k < |t.tools| && OwnAnswers(Turn(t))
    requires forall m: Message :: m.ToolMessage? && m.callId == t.tools[k].toolCall.callId ==>
      (m in messages <==> sent && m == ResultOf(t, k, v, plan, folded, foldedNote))
    ensures if sent then Says(WithContext(messages, context), t, k, v, PlannedResult(t.tools[k], v, plan, folded, foldedNote).content)
      else Silent(WithContext(messages, context), t.tools[k].toolCall.callId)
  {
    hide PlannedResult, Appended, AdvisoriesText;
    assert sent ==> ResultOf(t, k, v, plan, folded, foldedNote) in messages;
  }

  // ----- what becomes of the evidence

  predicate NotStale(reading: Reading, calls: seq<Observations.Call>, p: nat)
    requires p < |calls|
  {
    var decision := Observations.Decision(reading.world, reading.policy, calls, p);
    decision.Some? ==> decision.value.RedundantObservation?
  }

  /** Neither folded nor collapsed by the plan. */
  predicate Kept(plan: RenderPlan, folded: set<string>, i: nat, id: string) {
    i !in plan.collapsedTurns && id !in folded && id !in plan.detailCollapsed
  }

  /** What the request sends of a result that is not replaced. */
  ghost predicate Fate(messages: seq<Message>, t: TurnNode, i: nat, k: nat, v: Flags, plan: RenderPlan, folded: set<string>,
                       foldedNote: ToolCallNode -> string)
    requires k < |t.tools|
  {
    var x := t.tools[k];
    if i in plan.collapsedTurns then Silent(messages, x.toolCall.callId)
    else
      Says(messages, t, k, v,
        if x.toolCall.callId in folded then foldedNote(x)
        else if x.toolCall.callId in plan.detailCollapsed then x.summary else x.result.content)
  }

  /** The call at this place has lasting evidence for the call at p, and the request sends its result as
      its plan says. */
  ghost predicate EndsAt(reading: Reading, nodes: seq<Node>, v: Flags, plan: RenderPlan, folded: set<string>,
                         foldedNote: ToolCallNode -> string, messages: seq<Message>, p: nat, i: nat, k: nat) {
    && StandsAt(nodes, v, i, k)
    && Fate(messages, nodes[i].turn, i, k, v, plan, folded, foldedNote)
    && var calls, last := Visible(nodes, v, reading.kind), AsCall(nodes[i].turn.tools[k], reading.kind);
       && p < |calls|
       && last == calls[Observations.Survivor(reading.world, reading.policy, calls, p)]
       && Observations.Facts(reading.world, calls[p]) <= Observations.Facts(reading.world, last)
  }

  /** No identifier stands for two calls, and the plan's replacements are the planner's. */
  ghost predicate PlannedFor(reading: Reading, nodes: seq<Node>, v: Flags, plan: RenderPlan) {
    Proper(nodes) && UniqueCallIds(nodes) && plan.replacements == PlannedReplacements(nodes, v, reading)
  }

  /** A visible result that is not replaced. */
  lemma UnreplacedFate(reading: Reading, nodes: seq<Node>, v: Flags, plan: RenderPlan, folded: set<string>,
                       foldedNote: ToolCallNode -> string, context: string, p: nat, i: nat, k: nat)
    requires PlannedFor(reading, nodes, v, plan) && StandsAt(nodes, v, i, k)
    requires var calls := Visible(nodes, v, reading.kind);
      p < |calls| && calls[p] == AsCall(nodes[i].turn.tools[k], reading.kind)
      && Observations.Decision(reading.world, reading.policy, calls, p) == None
    ensures var messages := WithContext(Rendered(nodes, |nodes|, v, plan, folded, foldedNote), context);
      Fate(messages, nodes[i].turn, i, k, v, plan, folded, foldedNote)
  {
    var calls := Visible(nodes, v, reading.kind);
    UniqueVisible(nodes, v, reading.kind);
    ReplacedIff(reading, calls, |calls|, p);
    ResultSent(nodes, i, k, v, plan, folded, foldedNote, context);
    hide Rendered, Says, Silent, Visible, ForRequests, FirstReplacement, Observations.Decision, Observations.Planned, Observations.UniqueIds;
  }

  /** From the request: every visible result that is not stale has all its facts in its survivor, and the
      survivor's result is sent as stored, unless it is folded or the plan collapses its detail or turn. */
  lemma EvidenceReachesRequest(reading: Reading, nodes: seq<Node>, v: Flags, plan: RenderPlan, folded: set<string>,
                               foldedNote: ToolCallNode -> string, context: string, p: nat)
    requires PlannedFor(reading, nodes, v, plan)
    requires p < |Visible(nodes, v, reading.kind)| && NotStale(reading, Visible(nodes, v, reading.kind), p)
    ensures var messages := WithContext(Rendered(nodes, |nodes|, v, plan, folded, foldedNote), context);
      exists i: nat, k: nat :: EndsAt(reading, nodes, v, plan, folded, foldedNote, messages, p, i, k)
  {
    var calls := Visible(nodes, v, reading.kind);
    Observations.EvidenceSurvives(reading.world, reading.policy, calls, p);
    var j := Observations.Survivor(reading.world, reading.policy, calls, p);
    VisibleStands(nodes, v, reading.kind, calls[j]);
    hide Rendered, Fate, Visible, Proper, UniqueCallIds, Observations.Decision, Observations.Facts, AsCall, StandsAt;
    var i: nat, k: nat :| StandsAt(nodes, v, i, k) && AsCall(nodes[i].turn.tools[k], reading.kind) == calls[j];
    UnreplacedFate(reading, nodes, v, plan, folded, foldedNote, context, j, i, k);
    var messages := WithContext(Rendered(nodes, |nodes|, v, plan, folded, foldedNote), context);
    assert EndsAt(reading, nodes, v, plan, folded, foldedNote, messages, p, i, k);
  }

  /** The survivor's stored result is what the request says if and only if it is neither folded nor
      collapsed by the plan; for texts that differ from it, which stand in for it otherwise. */
  lemma SaysStoredIff(messages: seq<Message>, t: TurnNode, i: nat, k: nat, v: Flags, plan: RenderPlan, folded: set<string>,
                      foldedNote: ToolCallNode -> string)
    requires k < |t.tools| && Fate(messages, t, i, k, v, plan, folded, foldedNote)
    requires foldedNote(t.tools[k]) != t.tools[k].result.content && t.tools[k].summary != t.tools[k].result.content
    ensures Says(messages, t, k, v, t.tools[k].result.content) <==> Kept(plan, folded, i, t.tools[k].toolCall.callId)
  {
    var x := t.tools[k];
    var said := if x.toolCall.callId in folded then foldedNote(x)
      else if x.toolCall.callId in plan.detailCollapsed then x.summary else x.result.content;
    if i !in plan.collapsedTurns && Says(messages, t, k, v, x.result.content) {
      SaysOneText(messages, t, k, v, said, x.result.content);
    }
  }

  // ----- fact by fact

  /** The plan leaves the result as it is, and so the request says it. */
  ghost predicate SentAsStored(messages: seq<Message>, t: TurnNode, i: nat, k: nat, v: Flags, plan: RenderPlan, folded: set<string>)
    requires k < |t.tools|
  {
    var id := t.tools[k].toolCall.callId;
    Kept(plan, folded, i, id) && plan.ReplacementFor(id).None? && Says(messages, t, k, v, t.tools[k].result.content)
  }

  /** Some visible result is sent as stored and states the fact. */
  ghost predicate FactSent(reading: Reading, nodes: seq<Node>, v: Flags, plan: RenderPlan, folded: set<string>,
                           messages: seq<Message>, fact: (Observations.Path, LineNumbers.FileLine)) {
    exists i: nat, k: nat ::
      && StandsAt(nodes, v, i, k) && SentAsStored(messages, nodes[i].turn, i, k, v, plan, folded)
      && fact in Observations.Facts(reading.world, AsCall(nodes[i].turn.tools[k], reading.kind))
  }

  /** The visible call at p is neither folded nor collapsed by the plan. */
  ghost predicate KeptAt(reading: Reading, nodes: seq<Node>, v: Flags, plan: RenderPlan, folded: set<string>, p: nat) {
    var calls := Visible(nodes, v, reading.kind);
    p < |calls| && exists i: nat, k: nat ::
      && StandsAt(nodes, v, i, k) && AsCall(nodes[i].turn.tools[k], reading.kind) == calls[p]
      && Kept(plan, folded, i, calls[p].id)
  }

  /** The visible result at p is still true and states the fact, and where its evidence ended the plan
      neither folds nor collapses it. */
  ghost predicate Lasts(reading: Reading, nodes: seq<Node>, v: Flags, plan: RenderPlan, folded: set<string>,
                        fact: (Observations.Path, LineNumbers.FileLine), p: nat) {
    var calls := Visible(nodes, v, reading.kind);
    && p < |calls| && NotStale(reading, calls, p) && fact in Observations.Facts(reading.world, calls[p])
    && KeptAt(reading, nodes, v, plan, folded, Observations.Survivor(reading.world, reading.policy, calls, p))
  }

  /** A fact is sent if and only if some result that is not stale states it and that result's survivor
      is neither folded nor collapsed: replacements lose no fact that is still true. */
  lemma FactSentIff(reading: Reading, nodes: seq<Node>, v: Flags, plan: RenderPlan, folded: set<string>,
                    foldedNote: ToolCallNode -> string, context: string, fact: (Observations.Path, LineNumbers.FileLine))
    requires PlannedFor(reading, nodes, v, plan)
    ensures var messages := WithContext(Rendered(nodes, |nodes|, v, plan, folded, foldedNote), context);
      FactSent(reading, nodes, v, plan, folded, messages, fact) <==>
        exists p: nat :: Lasts(reading, nodes, v, plan, folded, fact, p)
  {
    var messages := WithContext(Rendered(nodes, |nodes|, v, plan, folded, foldedNote), context);
    hide *;
    if p: nat :| Lasts(reading, nodes, v, plan, folded, fact, p) {
      LastingIsSent(reading, nodes, v, plan, folded, foldedNote, context, fact, p);
    }
    if FactSent(reading, nodes, v, plan, folded, messages, fact) {
      SentLasts(reading, nodes, v, plan, folded, messages, fact);
    }
  }

  lemma LastingIsSent(reading: Reading, nodes: seq<Node>, v: Flags, plan: RenderPlan, folded: set<string>,
                      foldedNote: ToolCallNode -> string, context: string, fact: (Observations.Path, LineNumbers.FileLine), p: nat)
    requires PlannedFor(reading, nodes, v, plan) && Lasts(reading, nodes, v, plan, folded, fact, p)
    ensures var messages := WithContext(Rendered(nodes, |nodes|, v, plan, folded, foldedNote), context);
      FactSent(reading, nodes, v, plan, folded, messages, fact)
  {
    var calls := Visible(nodes, v, reading.kind);
    Observations.EvidenceSurvives(reading.world, reading.policy, calls, p);
    var j := Observations.Survivor(reading.world, reading.policy, calls, p);
    UniqueVisible(nodes, v, reading.kind);
    ReplacedIff(reading, calls, |calls|, j);
    hide Visible, Proper, UniqueCallIds, Observations.Decision, Observations.Facts, StandsAt, Rendered, Says, Silent,
      Observations.Planned, ForRequests, Observations.UniqueIds, FirstReplacement;
    var i: nat, k: nat :| StandsAt(nodes, v, i, k) && AsCall(nodes[i].turn.tools[k], reading.kind) == calls[j]
      && Kept(plan, folded, i, calls[j].id);
    UnreplacedFate(reading, nodes, v, plan, folded, foldedNote, context, j, i, k);
    var messages := WithContext(Rendered(nodes, |nodes|, v, plan, folded, foldedNote), context);
    assert SentAsStored(messages, nodes[i].turn, i, k, v, plan, folded);
  }

  lemma SentLasts(reading: Reading, nodes: seq<Node>, v: Flags, plan: RenderPlan, folded: set<string>,
                  messages: seq<Message>, fact: (Observations.Path, LineNumbers.FileLine))
    requires PlannedFor(reading, nodes, v, plan) && FactSent(reading, nodes, v, plan, folded, messages, fact)
    ensures exists p: nat :: Lasts(reading, nodes, v, plan, folded, fact, p)
  {
    hide Observations.Decision, Observations.Facts, Says, Proper, Visible;
    var calls := Visible(nodes, v, reading.kind);
    var i: nat, k: nat :|
      && StandsAt(nodes, v, i, k) && SentAsStored(messages, nodes[i].turn, i, k, v, plan, folded)
      && fact in Observations.Facts(reading.world, AsCall(nodes[i].turn.tools[k], reading.kind));
    VisibleStands(nodes, v, reading.kind, AsCall(nodes[i].turn.tools[k], reading.kind));
    var p: nat :| p < |calls| && calls[p] == AsCall(nodes[i].turn.tools[k], reading.kind);
    UniqueVisible(nodes, v, reading.kind);
    ReplacedIff(reading, calls, |calls|, p);
    UnreplacedSurvives(reading, calls, p);
    assert KeptAt(reading, nodes, v, plan, folded, p);
    assert Lasts(reading, nodes, v, plan, folded, fact, p);
  }

  lemma UnreplacedSurvives(reading: Reading, calls: seq<Observations.Call>, p: nat)
    requires p < |calls| && Observations.Decision(reading.world, reading.policy, calls, p) == None
    ensures Observations.Survivor(reading.world, reading.policy, calls, p) == p
  {
    Observations.SupersederIsNamed(reading.world, reading.policy, calls, p);
  }
}
