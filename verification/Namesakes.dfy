// A conversation in which a request collapses a guarded call, because an unguarded one has its name.
module Namesakes {
  import opened Compaction
  import opened Evidence
  import opened History
  import opened Ledger
  import opened Projection
  import opened Protection
  import opened Sorting
  import opened Text
  import opened Transcript

  // ----- what a message weighs

  function Escaped(s: string): string {
    if s == [] then "" else EscapedChar(s[0]) + Escaped(s[1..])
  }

  function EscapedChar(c: char): string {
    match c
    case '"' => "\\\""
    case '\\' => "\\\\"
    case '\n' => "\\n"
    case '\r' => "\\r"
    case '\t' => "\\t"
    case _ => [c]
  }

  /** A text as JSON has it. */
  function Quoted(s: string): string {
    "\"" + Escaped(s) + "\""
  }

  function CallText(c: ToolCall): string {
    "{\"name\": " + Quoted(c.name) + ", \"arguments\": " + Quoted(c.arguments) + "}"
  }

  function CallTexts(calls: seq<ToolCall>): (r: seq<string>)
    ensures |r| == |calls|
  {
    seq(|calls|, k requires 0 <= k < |calls| => CallText(calls[k]))
  }

  /** `_message_metric_payload`, as JSON. */
  function Payload(m: Message): string {
    match m
    case User(content) => "{\"role\": \"user\", \"content\": " + Quoted(content) + "}"
    case Assistant(content, calls) =>
      "{\"role\": \"assistant\", \"content\": " + Quoted(content)
      + (if calls == [] then "" else ", \"tool_calls\": [" + Join(CallTexts(calls), ", ") + "]") + "}"
    case ToolMessage(id, content, _) =>
      "{\"role\": \"tool\", \"content\": " + Quoted(content) + ", \"call_id\": " + Quoted(id) + "}"
  }

  function NoNote(t: ToolCallNode): string { "" }

  /** A request that folds nothing and brings no file context. */
  function Plain(): Surroundings<()> {
    Surroundings(_ => {}, _ => "", _ => (), NoNote, Payload)
  }

  // ----- what one detail saves

  /** Message by message, the second transcript weighs no more than the first. */
  ghost predicate NoLonger(a: seq<Message>, b: seq<Message>) {
    |a| == |b| && forall k :: 0 <= k < |a| ==> |Payload(b[k])| <= |Payload(a[k])|
  }

  lemma {:induction false} TokensFall(a: seq<Message>, b: seq<Message>, k: nat)
    requires NoLonger(a, b)
    ensures TokensOf(b, Payload) <= TokensOf(a, Payload)
    ensures k < |a| && EstimateTokens(Payload(b[k])) < EstimateTokens(Payload(a[k])) ==> TokensOf(b, Payload) < TokensOf(a, Payload)
  {
    hide Payload;
    if a != [] {
      TokensFall(a[..|a| - 1], b[..|b| - 1], k);
    }
  }

  lemma {:induction false} JoinNoLonger(a: seq<string>, b: seq<string>, sep: string)
    requires |a| == |b| && forall k :: 0 <= k < |a| ==> |b[k]| <= |a[k]|
    ensures |Join(b, sep)| <= |Join(a, sep)|
  {
    if |a| > 1 { JoinNoLonger(a[1..], b[1..], sep); }
  }

  /** Two plans that differ in one call's detail alone. */
  ghost predicate OneDetailMore(p: RenderPlan, q: RenderPlan, id: string) {
    p.replacements == [] && p.collapsedTurns == {} && p.detailCollapsed == {} && q == p.(detailCollapsed := {id})
  }

  /** The call's summary and abbreviated arguments are no longer than its result and arguments. */
  ghost predicate Shortens(x: ToolCallNode) {
    && |Quoted(x.summary)| <= |Quoted(x.result.content)|
    && |Quoted(x.abbreviatedArguments)| <= |Quoted(x.toolCall.arguments)|
  }

  ghost predicate ShortDetails(t: TurnNode, id: string) {
    t.advisories == [] && forall k :: 0 <= k < |t.tools| && t.tools[k].toolCall.callId == id ==> Shortens(t.tools[k])
  }

  lemma CallNoLonger(x: ToolCallNode, v: Flags, p: RenderPlan, q: RenderPlan, id: string)
    requires OneDetailMore(p, q, id) && (x.toolCall.callId == id ==> Shortens(x))
    ensures |CallText(PlannedCall(x, v, q))| <= |CallText(PlannedCall(x, v, p))|
  {
    hide Quoted;
  }

  lemma ResultNoLonger(x: ToolCallNode, v: Flags, p: RenderPlan, q: RenderPlan, id: string)
    requires OneDetailMore(p, q, id) && (x.toolCall.callId == id ==> Shortens(x))
    ensures var a, b := PlannedResult(x, v, p, {}, NoNote), PlannedResult(x, v, q, {}, NoNote);
      && |Payload(b)| <= |Payload(a)|
      && (x.toolCall.callId == id && x !in v.tools ==> a.content == x.result.content && b.content == x.summary)
  {
    hide Quoted;
  }

  lemma AssistantNoLonger(t: TurnNode, v: Flags, p: RenderPlan, q: RenderPlan, id: string)
    requires OneDetailMore(p, q, id) && ShortDetails(t, id)
    ensures |Payload(Assistant(t.assistantContent, PlannedCalls(t.tools, v, q)))| <=
      |Payload(Assistant(t.assistantContent, PlannedCalls(t.tools, v, p)))|
  {
    var a, b := PlannedCalls(t.tools, v, p), PlannedCalls(t.tools, v, q);
    hide Quoted, CallText, Join;
    forall k | 0 <= k < |t.tools| ensures |CallTexts(b)[k]| <= |CallTexts(a)[k]| {
      CallNoLonger(t.tools[k], v, p, q, id);
    }
    JoinNoLonger(CallTexts(a), CallTexts(b), ", ");
  }

  /** The messages of an expanded turn without advisories. */
  lemma TurnSays(t: TurnNode, index: nat, v: Flags, plan: RenderPlan)
    requires t !in v.turns && index !in plan.collapsedTurns && t.advisories == []
    ensures var a := PlannedTurn(t, index, v, plan, {}, NoNote);
      && a != [] && a[0] == Assistant(t.assistantContent, PlannedCalls(t.tools, v, plan)) && |a[1..]| == |t.tools|
      && forall k :: 0 <= k < |t.tools| ==> a[1..][k] == PlannedResult(t.tools[k], v, plan, {}, NoNote)
  {
    ExpandedTurn(t, index, v, plan, {}, NoNote);
    NoAdvisories(t, v);
    hide PlannedTurn, PlannedResult, AdvisoriesText;
    var results := PlannedResults(t.tools, v, plan, {}, NoNote);
    assert WithAdvisories(results, "") == results;
  }

  lemma NoAdvisories(t: TurnNode, v: Flags)
    requires t.advisories == []
    ensures AdvisoriesText(t.advisories, v) == ""
  {
  }

  lemma TurnNoLonger(t: TurnNode, index: nat, v: Flags, p: RenderPlan, q: RenderPlan, id: string)
    requires OneDetailMore(p, q, id) && ShortDetails(t, id) && t !in v.turns
    ensures NoLonger(PlannedTurn(t, index, v, p, {}, NoNote), PlannedTurn(t, index, v, q, {}, NoNote))
  {
    TurnSays(t, index, v, p);
    TurnSays(t, index, v, q);
    AssistantNoLonger(t, v, p, q, id);
    var a, b := PlannedTurn(t, index, v, p, {}, NoNote), PlannedTurn(t, index, v, q, {}, NoNote);
    hide PlannedTurn, PlannedResult, PlannedCalls, Payload, Shortens;
    forall k | 0 <= k < |t.tools| ensures |Payload(b[1..][k])| <= |Payload(a[1..][k])| {
      ResultNoLonger(t.tools[k], v, p, q, id);
    }
    NoLongerAfter(a, b);
  }

  lemma NoLongerAfter(a: seq<Message>, b: seq<Message>)
    requires a != [] && b != [] && |Payload(b[0])| <= |Payload(a[0])| && NoLonger(a[1..], b[1..])
    ensures NoLonger(a, b)
  {
    hide Payload;
    assert a == [a[0]] + a[1..] && b == [b[0]] + b[1..];
  }

  ghost predicate AllShort(nodes: seq<Node>, v: Flags, id: string) {
    forall i :: 0 <= i < |nodes| && nodes[i].Turn? ==> nodes[i].turn !in v.turns && ShortDetails(nodes[i].turn, id)
  }

  /** Node by node, collapsing the detail makes nothing longer. */
  lemma {:induction false} RequestNoLonger(nodes: seq<Node>, n: nat, v: Flags, p: RenderPlan, q: RenderPlan, id: string)
    requires n <= |nodes| && AllShort(nodes, v, id) && OneDetailMore(p, q, id)
    ensures NoLonger(Rendered(nodes, n, v, p, {}, NoNote), Rendered(nodes, n, v, q, {}, NoNote))
  {
    hide PlannedTurn, ShortDetails, Payload;
    if n > 0 {
      RequestNoLonger(nodes, n - 1, v, p, q, id);
      if nodes[n - 1].Turn? {
        TurnNoLonger(nodes[n - 1].turn, n - 1, v, p, q, id);
      }
    }
  }

  lemma {:induction false} EarlierFirst(nodes: seq<Node>, m: nat, n: nat, v: Flags, plan: RenderPlan)
    requires m <= n <= |nodes|
    ensures Rendered(nodes, m, v, plan, {}, NoNote) <= Rendered(nodes, n, v, plan, {}, NoNote)
    decreases n - m
  {
    hide PlannedNode;
    if m < n { EarlierFirst(nodes, m, n - 1, v, plan); }
  }

  /** Where the first result of a turn after one prompt stands. */
  lemma FirstResult(nodes: seq<Node>, v: Flags, plan: RenderPlan)
    requires |nodes| > 1 && nodes[0].Prompt? && nodes[1].Turn? && nodes[1].turn.tools != [] && nodes[1].turn.advisories == []
    requires nodes[1].turn !in v.turns && 1 !in plan.collapsedTurns
    ensures var a := Rendered(nodes, |nodes|, v, plan, {}, NoNote);
      |a| > 2 && a[2] == PlannedResult(nodes[1].turn.tools[0], v, plan, {}, NoNote)
  {
    var t := nodes[1].turn;
    TurnSays(t, 1, v, plan);
    EarlierFirst(nodes, 2, |nodes|, v, plan);
    OneMoreRendered(nodes, 1, v, plan, {}, NoNote);
    OneMoreRendered(nodes, 2, v, plan, {}, NoNote);
    NothingRendered(nodes, v, plan, {}, NoNote);
    hide PlannedTurn, PlannedResult, Rendered;
    var own := PlannedTurn(t, 1, v, plan, {}, NoNote);
    assert Rendered(nodes, 2, v, plan, {}, NoNote)[2] == own[1] == own[1..][0];
  }

  /** What a request pays less once a result after the first prompt is sent as its summary. */
  lemma DetailSaves(nodes: seq<Node>, v: Flags, p: RenderPlan, q: RenderPlan, x: ToolCallNode)
    requires |nodes| > 1 && nodes[0].Prompt? && nodes[1].Turn? && nodes[1].turn.tools != [] && nodes[1].turn.tools[0] == x
    requires AllShort(nodes, v, x.toolCall.callId) && OneDetailMore(p, q, x.toolCall.callId) && x !in v.tools
    requires |Quoted(x.summary)| + CHARS_PER_TOKEN <= |Quoted(x.result.content)|
    ensures CostOf(nodes, v, Plain())(q) < CostOf(nodes, v, Plain())(p)
  {
    RequestNoLonger(nodes, |nodes|, v, p, q, x.toolCall.callId);
    FirstResult(nodes, v, p);
    FirstResult(nodes, v, q);
    ResultNoLonger(x, v, p, q, x.toolCall.callId);
    LighterResult(PlannedResult(x, v, p, {}, NoNote), PlannedResult(x, v, q, {}, NoNote));
    hide PlannedTurn, Rendered, Payload, PlannedResult, EstimateTokens, Quoted;
    TokensFall(Rendered(nodes, |nodes|, v, p, {}, NoNote), Rendered(nodes, |nodes|, v, q, {}, NoNote), 2);
  }

  lemma LighterResult(a: Message, b: Message)
    requires a.ToolMessage? && b.ToolMessage? && a.callId == b.callId
    requires |Quoted(b.content)| + CHARS_PER_TOKEN <= |Quoted(a.content)|
    ensures EstimateTokens(Payload(b)) < EstimateTokens(Payload(a))
  {
    hide Quoted;
  }

  // ----- the conversation

  /** A prompt, a turn with one call and its answer; a prompt, a turn whose first call has the old call's
      name, and its answer. */
  datatype Conversation = Conversation(asked: UserPromptNode, early: TurnNode, reply: TurnNode,
                                       askedAgain: UserPromptNode, latest: TurnNode, closing: TurnNode) {
    function Nodes(): seq<Node> {
      [Prompt(asked), Turn(early), Turn(reply), Prompt(askedAgain), Turn(latest), Turn(closing)]
    }

    ghost predicate HasNamesakes() {
      && |early.tools| == 1 && reply.tools == [] && |latest.tools| == 6 && closing.tools == []
      && early.tools[0].toolCall.callId == latest.tools[0].toolCall.callId
      && early.salience == early.tools[0].salience
      && ToolCollapsible(early.tools[0], NoFlags)
      && |Quoted(early.tools[0].summary)| + CHARS_PER_TOKEN <= |Quoted(early.tools[0].result.content)|
      && AllShort(Nodes(), NoFlags, early.tools[0].toolCall.callId)
    }
  }

  const NoFlags: Flags := Flags({}, {}, {}, {})

  lemma OnlyEarlyUnguarded(c: Conversation)
    requires |c.early.tools| == 1 && c.reply.tools == [] && |c.latest.tools| == 6 && c.closing.tools == []
    ensures !Guarded(c.Nodes(), 1, {}) && forall i: nat :: 2 <= i < 6 ==> Guarded(c.Nodes(), i, {})
  {
    var nodes := c.Nodes();
    assert nodes[6..] == [];
    CallsFrom(nodes, 5);
    CallsFrom(nodes, 4);
    CallsFrom(nodes, 3);
    CallsFrom(nodes, 2);
    assert LatestPrompt(nodes) >= 3;
  }

  lemma CallsFrom(nodes: seq<Node>, i: nat)
    requires i < |nodes|
    ensures CallTotal(nodes[i..]) == CallCount(nodes[i]) + CallTotal(nodes[i + 1..])
  {
    assert nodes[i..][1..] == nodes[i + 1..];
  }

  /** The first step collapses the old call's detail. */
  lemma FirstStep(c: Conversation, weight: nat -> real, steps: seq<PlanStep>)
    requires c.HasNamesakes() && Offered(steps, c.Nodes(), {}, weight, NoFlags) && SortedBy(steps, GoesFirst)
    ensures steps != [] && steps[0].CollapseDetail? && steps[0].callId == c.early.tools[0].toolCall.callId
  {
    OnlyEarlyUnguarded(c);
    var nodes, x := c.Nodes(), c.early.tools[0];
    var detail := CollapseDetail(1, 0, Decayed(x.salience, weight(4)), x.toolCall.callId);
    hide Guarded, ToolCollapsible, TurnCollapsible, Decayed, AllShort, Quoted, ShortDetails, Shortens, GoesFirst;
    assert StepFor(detail, nodes, GuardedNodes(nodes, {}), weight, NoFlags);
    assert detail in steps;
    var k :| 0 <= k < |steps| && steps[k] == detail;
    assert steps[0] in steps;
    OnlyEarlySteps(c, weight, steps[0]);
    assert k == 0 || GoesFirst(steps[0], steps[k]);
    DetailBeforeTurn(c.early, weight(4), steps[0], detail);
  }

  lemma DetailBeforeTurn(t: TurnNode, weight: real, s: PlanStep, detail: PlanStep)
    requires |t.tools| == 1 && t.salience == t.tools[0].salience && StepOfTurn(s, t, weight, NoFlags)
    requires detail.CollapseDetail? && detail.effectiveSalience == Decayed(t.salience, weight)
    requires s == detail || GoesFirst(s, detail)
    ensures s.CollapseDetail? && s.callId == t.tools[0].toolCall.callId
  {
    hide ToolCollapsible, TurnCollapsible, Decayed;
  }

  lemma OnlyEarlySteps(c: Conversation, weight: nat -> real, s: PlanStep)
    requires |c.early.tools| == 1 && c.reply.tools == [] && |c.latest.tools| == 6 && c.closing.tools == []
    requires StepFor(s, c.Nodes(), GuardedNodes(c.Nodes(), {}), weight, NoFlags)
    ensures s.nodeIndex == 1 && StepOfTurn(s, c.early, weight(4), NoFlags)
  {
    OnlyEarlyUnguarded(c);
    hide StepOfTurn, Guarded;
    assert s.nodeIndex !in GuardedNodes(c.Nodes(), {});
    assert s.nodeIndex < 2;
  }

  lemma FirstStepTaken(steps: seq<PlanStep>, p: RenderPlan, q: RenderPlan, cost: RenderPlan -> nat)
    requires steps != [] && steps[0].CollapseDetail? && OneDetailMore(p, q, steps[0].callId) && cost(q) < cost(p)
    ensures steps[0].callId in Walk(steps, |steps|, p, cost, 0).detailCollapsed
  {
    assert {} + {steps[0].callId} == {steps[0].callId};
    StepTaken(steps, 0, p, cost, 0);
    WalkAdds(steps, 1, |steps|, p, cost, 0);
  }

  /** The guarded call, whose turn is in the protected tail, is sent as its summary. */
  lemma GuardedCallCollapses(c: Conversation, weight: nat -> real, steps: seq<PlanStep>)
    requires c.HasNamesakes() && Offered(steps, c.Nodes(), {}, weight, NoFlags) && SortedBy(steps, GoesFirst)
    ensures var plan := FinalPlan(c.Nodes(), NoFlags, Plain(), [], {}, steps, 0);
      && Guarded(c.Nodes(), 4, {})
      && PlannedResult(c.latest.tools[0], NoFlags, plan, {}, NoNote).content == c.latest.tools[0].summary
  {
    var nodes, x := c.Nodes(), c.early.tools[0];
    var required := RequiredPlan({}, []);
    var more := required.(detailCollapsed := {x.toolCall.callId});
    assert InitialPlan({}).replacements + [] == [];
    OnlyEarlyUnguarded(c);
    FirstStep(c, weight, steps);
    hide CostOf, Walk, Guarded, Offered, SortedBy, AllShort, Quoted, ToolCollapsible;
    DetailSaves(nodes, NoFlags, required, more, x);
    FirstStepTaken(steps, required, more, CostOf(nodes, NoFlags, Plain()));
    WalkAdds(steps, 0, |steps|, required, CostOf(nodes, NoFlags, Plain()), 0);
  }

  lemma {:induction false} PlainText(n: nat)
    ensures |Quoted(seq(n, _ => 'r'))| == n + 2
    decreases n
  {
    var text := seq(n, _ => 'r');
    if n > 0 {
      PlainText(n - 1);
      assert text[1..] == seq(n - 1, _ => 'r');
    }
  }

  /** There is such a conversation, with nothing collapsed in it. */
  method NamesakeConversation() returns (c: Conversation)
    ensures c.HasNamesakes() && Proper(c.Nodes()) && View(c.Nodes()) == NoFlags
  {
    var asked := new UserPromptNode("look", 0.0);
    var again := new UserPromptNode("again", 0.0);
    var x := LongCall("1");
    var y := LongCall("1");
    var others := OtherCalls();
    var early := new TurnNode("", [x], [], 0.0);
    var reply := new TurnNode("done", [], [], 0.0);
    var latest := new TurnNode("", [y] + others, [], 0.0);
    var closing := new TurnNode("done", [], [], 0.0);
    c := Conversation(asked, early, reply, again, latest, closing);
    hide *;
    assert forall z :: z in latest.tools ==> z == y || z in others;
    AreNamesakes(c);
    IsProper(c);
    IsClear(c);
  }

  lemma AreNamesakes(c: Conversation)
    requires |c.early.tools| == 1 && c.reply.tools == [] && |c.latest.tools| == 6 && c.closing.tools == []
    requires c.early.advisories == c.reply.advisories == c.latest.advisories == c.closing.advisories == []
    requires c.early.tools[0].toolCall.callId == c.latest.tools[0].toolCall.callId
    requires c.early.salience == c.early.tools[0].salience && ToolCollapsible(c.early.tools[0], NoFlags)
    requires Shortens(c.early.tools[0]) && forall z :: z in c.latest.tools ==> Shortens(z)
    requires |Quoted(c.early.tools[0].summary)| + CHARS_PER_TOKEN <= |Quoted(c.early.tools[0].result.content)|
    ensures c.HasNamesakes()
  {
    hide Quoted, Shortens, ToolCollapsible;
  }

  lemma IsProper(c: Conversation)
    requires |c.early.tools| == 1 && c.early.tools[0] !in c.latest.tools && c.reply.tools == [] && c.closing.tools == []
    requires c.early.advisories == c.reply.advisories == c.latest.advisories == c.closing.advisories == []
    requires c.asked != c.askedAgain && c.early !in {c.reply, c.latest, c.closing}
    requires c.reply !in {c.latest, c.closing} && c.latest != c.closing
    requires forall z :: z in c.early.tools + c.latest.tools ==> z.toolCall.callId == z.result.callId
    ensures Proper(c.Nodes())
  {
    var nodes := c.Nodes();
    assert NodeTools(nodes[0]) == {} && NodeTools(nodes[2]) == {} && NodeTools(nodes[3]) == {} && NodeTools(nodes[5]) == {};
    assert NodeTools(nodes[1]) !! NodeTools(nodes[4]);
    assert forall i :: 0 <= i < 6 ==> NodeAdvisories(nodes[i]) == {};
    assert NodePrompts(nodes[0]) !! NodePrompts(nodes[3]);
    assert forall i :: i in {1, 2, 4, 5} ==> NodePrompts(nodes[i]) == {};
    forall i, t | 0 <= i < 6 && t in NodeTools(nodes[i]) ensures t.toolCall.callId == t.result.callId {
      assert t in c.early.tools + c.latest.tools;
    }
    hide NodeTools, NodeAdvisories, NodePrompts;
  }

  /** Nothing in the node is collapsed. */
  ghost predicate Clear(n: Node)
    reads NodeTools(n), NodeAdvisories(n), NodeTurns(n), NodePrompts(n)
  {
    && (forall x :: x in NodeTools(n) ==> !x.detailCollapsed) && (forall x :: x in NodeAdvisories(n) ==> !x.collapsed)
    && (forall x :: x in NodeTurns(n) ==> !x.collapsed) && (forall x :: x in NodePrompts(n) ==> !x.collapsed)
  }

  lemma {:induction false} ClearView(nodes: seq<Node>)
    requires forall i :: 0 <= i < |nodes| ==> Clear(nodes[i])
    ensures View(nodes) == NoFlags
  {
    if nodes != [] {
      assert Clear(nodes[0]);
      ClearView(nodes[1..]);
    }
  }

  lemma IsClear(c: Conversation)
    requires forall t :: t in [c.early, c.reply, c.latest, c.closing] ==> !t.collapsed && t.advisories == []
    requires forall t, x :: t in [c.early, c.reply, c.latest, c.closing] && x in t.tools ==> !x.detailCollapsed
    requires !c.asked.collapsed && !c.askedAgain.collapsed
    ensures View(c.Nodes()) == NoFlags
  {
    ClearView(c.Nodes());
  }

  /** Calls with names of their own. */
  method OtherCalls() returns (calls: seq<ToolCallNode>)
    ensures |calls| == 5
    ensures forall x :: x in calls ==> fresh(x) && !x.detailCollapsed && x.toolCall.callId == x.result.callId && Shortens(x)
  {
    calls := [];
    for i := 2 to 7
      invariant |calls| == i - 2
      invariant forall x :: x in calls ==> fresh(x) && !x.detailCollapsed && x.toolCall.callId == x.result.callId && Shortens(x)
    {
      var x := LongCall(Decimal(i));
      calls := calls + [x];
    }
  }

  /** A call with a long result. */
  method LongCall(id: string) returns (x: ToolCallNode)
    ensures fresh(x) && !x.detailCollapsed && x.salience == 0.0
    ensures x.toolCall.callId == id && x.result.callId == id && Shortens(x) && ToolCollapsible(x, NoFlags)
    ensures |Quoted(x.summary)| + CHARS_PER_TOKEN <= |Quoted(x.result.content)|
  {
    PlainText(40);
    PlainText(1);
    x := new ToolCallNode(ToolCall(id, "f", ""), ToolResult(id, seq(40, _ => 'r'), false), "", seq(1, _ => 'r'), 0.0);
  }
}
