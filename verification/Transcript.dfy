// The provider transcript: every collapse state, render plan and folded set sends paired tool messages.
module Transcript {
  import opened History
  import opened Compaction
  import opened Optional
  import opened Text

  datatype Message =
    | User(content: string)
    | Assistant(content: string, calls: seq<ToolCall>)
    | ToolMessage(callId: string, content: string, isError: bool)

  /** A stored result replaced for one request, because it is stale or because another call's result
      supersedes it. */
  datatype Replacement = Replacement(callId: string, content: string, stale: bool, superseding: Option<string>)

  /** What one request changes: replaced results, detail-collapsed calls, collapsed turns, and how
      file observations are folded. */
  datatype RenderPlan = RenderPlan(replacements: seq<Replacement>, detailCollapsed: set<string>, collapsedTurns: set<nat>,
                                   foldOlder: bool, protectedObservations: set<string>) {
    function ReplacementFor(callId: string): Option<string> {
      FirstReplacement(replacements, callId)
    }
  }

  function FirstReplacement(replacements: seq<Replacement>, callId: string): (r: Option<string>)
    ensures r == None <==> forall k :: 0 <= k < |replacements| ==> replacements[k].callId != callId
  {
    if replacements == [] then None
    else if replacements[0].callId == callId then Some(replacements[0].content)
    else FirstReplacement(replacements[1..], callId)
  }

  // ----- stored rendering

  /** `render_tool_call` */
  function StoredCall(t: ToolCallNode, v: Flags): ToolCall {
    if t in v.tools then t.toolCall.(arguments := t.abbreviatedArguments) else t.toolCall
  }

  /** `render_result` */
  function StoredResult(t: ToolCallNode, v: Flags): Message {
    if t in v.tools then ToolMessage(t.result.callId, t.summary, false)
    else ToolMessage(t.result.callId, t.result.content, t.result.isError)
  }

  function AdvisoryText(a: AdvisoryNode, v: Flags): string {
    if a in v.advisories then a.Summary() else a.content
  }

  /** `_render_advisories` */
  function AdvisoriesText(advisories: seq<AdvisoryNode>, v: Flags): string {
    Join(seq(|advisories|, k requires 0 <= k < |advisories| => AdvisoryText(advisories[k], v)), "\n\n")
  }

  /** What follows the content of the k-th of n results. */
  function Appended(k: int, n: nat, text: string): string {
    if k == n - 1 && text != "" then "\n\n" + text else ""
  }

  /** Advisory text goes at the end of the last result, where there is one. */
  function WithAdvisories(results: seq<Message>, text: string): (r: seq<Message>)
    requires forall k :: 0 <= k < |results| ==> results[k].ToolMessage?
    ensures |r| == |results|
    ensures forall k :: 0 <= k < |r| ==>
      r[k].ToolMessage? && r[k].callId == results[k].callId && r[k].isError == results[k].isError
    ensures forall k :: 0 <= k < |r| ==> r[k].content == results[k].content + Appended(k, |results|, text)
  {
    if text == "" || results == [] then results
    else
      var last := results[|results| - 1];
      results[|results| - 1 := ToolMessage(last.callId, last.content + "\n\n" + text, last.isError)]
  }

  // ----- rendering under a plan

  /** Where the content of one result comes from: a replacement, the folded view, the stored form. */
  function PlannedResult(t: ToolCallNode, v: Flags, plan: RenderPlan, folded: set<string>, foldedNote: ToolCallNode -> string): (m: Message)
    ensures m.ToolMessage? && m.callId == t.result.callId
  {
    var id := t.toolCall.callId;
    if plan.ReplacementFor(id).Some? then
      ToolMessage(t.result.callId, plan.ReplacementFor(id).value, t.result.isError)
    else if id in folded then ToolMessage(t.result.callId, foldedNote(t), t.result.isError)
    else if id in plan.detailCollapsed then ToolMessage(t.result.callId, t.summary, t.result.isError)
    else StoredResult(t, v)
  }

  function PlannedCall(t: ToolCallNode, v: Flags, plan: RenderPlan): (c: ToolCall)
    ensures c.callId == t.toolCall.callId
  {
    if t.toolCall.callId in plan.detailCollapsed then t.toolCall.(arguments := t.abbreviatedArguments)
    else StoredCall(t, v)
  }

  predicate Touched(t: ToolCallNode, plan: RenderPlan, folded: set<string>) {
    var id := t.toolCall.callId;
    id in folded || id in plan.detailCollapsed || plan.ReplacementFor(id).Some?
  }

  function StoredCalls(tools: seq<ToolCallNode>, v: Flags): (r: seq<ToolCall>)
    ensures |r| == |tools|
  {
    seq(|tools|, k requires 0 <= k < |tools| => StoredCall(tools[k], v))
  }

  function StoredResults(tools: seq<ToolCallNode>, v: Flags): (r: seq<Message>)
    ensures |r| == |tools|
    ensures forall k :: 0 <= k < |r| ==> r[k].ToolMessage? && r[k].callId == tools[k].result.callId
  {
    seq(|tools|, k requires 0 <= k < |tools| => StoredResult(tools[k], v))
  }

  function PlannedCalls(tools: seq<ToolCallNode>, v: Flags, plan: RenderPlan): (r: seq<ToolCall>)
    ensures |r| == |tools|
    ensures forall k :: 0 <= k < |r| ==> r[k].callId == tools[k].toolCall.callId
  {
    seq(|tools|, k requires 0 <= k < |tools| => PlannedCall(tools[k], v, plan))
  }

  function PlannedResults(tools: seq<ToolCallNode>, v: Flags, plan: RenderPlan, folded: set<string>,
                          foldedNote: ToolCallNode -> string): (r: seq<Message>)
    ensures |r| == |tools|
    ensures forall k :: 0 <= k < |r| ==> r[k].ToolMessage? && r[k].callId == tools[k].result.callId
  {
    seq(|tools|, k requires 0 <= k < |tools| => PlannedResult(tools[k], v, plan, folded, foldedNote))
  }

  /** `TurnNode.render` */
  function StoredTurn(t: TurnNode, v: Flags): seq<Message> {
    if t in v.turns then [Assistant(t.Summary(), [])]
    else
      [Assistant(t.assistantContent, StoredCalls(t.tools, v))]
      + WithAdvisories(StoredResults(t.tools, v), AdvisoriesText(t.advisories, v))
  }

  /** `_render_turn_node` */
  function PlannedTurn(t: TurnNode, index: nat, v: Flags, plan: RenderPlan, folded: set<string>,
                       foldedNote: ToolCallNode -> string): seq<Message> {
    if t in v.turns then StoredTurn(t, v)
    else if index in plan.collapsedTurns then [Assistant(t.Summary(), [])]
    else if forall k :: 0 <= k < |t.tools| ==> !Touched(t.tools[k], plan, folded) then StoredTurn(t, v)
    else
      [Assistant(t.assistantContent, PlannedCalls(t.tools, v, plan))]
      + WithAdvisories(PlannedResults(t.tools, v, plan, folded, foldedNote), AdvisoriesText(t.advisories, v))
  }

  function PlannedNode(n: Node, index: nat, v: Flags, plan: RenderPlan, folded: set<string>,
                       foldedNote: ToolCallNode -> string): seq<Message> {
    match n
    case Prompt(p) => [User(if p in v.prompts then p.Summary() else p.content)]
    case Turn(t) => PlannedTurn(t, index, v, plan, folded, foldedNote)
    case Archive(_, notice) => [User(notice)]
    case Housekeeping(_) => []
  }

  /** `_render_nodes` on the first i nodes. */
  function Rendered(nodes: seq<Node>, i: nat, v: Flags, plan: RenderPlan, folded: set<string>,
                    foldedNote: ToolCallNode -> string): seq<Message>
    requires i <= |nodes|
  {
    if i == 0 then []
    else Rendered(nodes, i - 1, v, plan, folded, foldedNote) + PlannedNode(nodes[i - 1], i - 1, v, plan, folded, foldedNote)
  }

  // ----- pairing

  /** The messages right after an assistant message answer its calls, in order. */
  predicate AnswersInOrder(calls: seq<ToolCall>, messages: seq<Message>) {
    && |calls| <= |messages|
    && forall k :: 0 <= k < |calls| ==> messages[k].ToolMessage? && messages[k].callId == calls[k].callId
  }

  /** A message and the results that belong to it. */
  function GroupSize(m: Message): nat {
    if m.Assistant? then 1 + |m.calls| else 1
  }

  predicate StartsGroup(messages: seq<Message>)
    requires messages != []
  {
    match messages[0]
    case User(_) => true
    case Assistant(_, calls) => AnswersInOrder(calls, messages[1..])
    case ToolMessage(_, _, _) => false
  }

  /** What providers demand: each assistant message is followed by exactly the results of its calls,
      in order, and no result appears anywhere else. */
  predicate WellPaired(messages: seq<Message>)
    decreases |messages|
  {
    messages == [] || (StartsGroup(messages) && WellPaired(messages[GroupSize(messages[0])..]))
  }

  lemma GroupKept(a: seq<Message>, b: seq<Message>)
    requires a != [] && StartsGroup(a)
    ensures StartsGroup(a + b) && GroupSize(a[0]) <= |a|
    ensures (a + b)[GroupSize(a[0])..] == a[GroupSize(a[0])..] + b
  {
    assert (a + b)[1..] == a[1..] + b;
  }

  lemma {:induction false} PairedAppend(a: seq<Message>, b: seq<Message>)
    requires WellPaired(a) && WellPaired(b)
    ensures WellPaired(a + b)
    decreases |a|
  {
    if a == [] {
      assert a + b == b;
    } else {
      hide StartsGroup, GroupSize;
      GroupKept(a, b);
      assert (a + b)[0] == a[0] && a + b != [];
      PairedAppend(a[GroupSize(a[0])..], b);
    }
  }

  lemma OneTurnPaired(content: string, calls: seq<ToolCall>, results: seq<Message>)
    requires |results| == |calls| && AnswersInOrder(calls, results)
    ensures WellPaired([Assistant(content, calls)] + results)
  {
    var messages := [Assistant(content, calls)] + results;
    assert messages[1..] == results;
    assert messages[1 + |calls|..] == [];
  }

  ghost predicate OwnAnswers(n: Node) {
    n.Turn? ==> forall k :: 0 <= k < |n.turn.tools| ==> n.turn.tools[k].toolCall.callId == n.turn.tools[k].result.callId
  }

  lemma ProperAnswers(nodes: seq<Node>, i: nat)
    requires Proper(nodes) && i < |nodes|
    ensures OwnAnswers(nodes[i])
  {
    if nodes[i].Turn? {
      forall k | 0 <= k < |nodes[i].turn.tools|
        ensures nodes[i].turn.tools[k].toolCall.callId == nodes[i].turn.tools[k].result.callId
      {
        assert nodes[i].turn.tools[k] in NodeTools(nodes[i]);
      }
    }
  }

  lemma TurnPaired(t: TurnNode, index: nat, v: Flags, plan: RenderPlan, folded: set<string>, foldedNote: ToolCallNode -> string)
    requires OwnAnswers(Turn(t))
    ensures WellPaired(PlannedTurn(t, index, v, plan, folded, foldedNote))
  {
    SummaryPaired(t.Summary());
    StoredPaired(t, v);
    PlannedPaired(t, v, plan, folded, foldedNote);
    hide AdvisoriesText, WellPaired, Touched, StoredCalls, StoredResults, PlannedCalls, PlannedResults, WithAdvisories;
  }

  lemma SummaryPaired(summary: string)
    ensures WellPaired([Assistant(summary, [])])
  {
    OneTurnPaired(summary, [], []);
    assert [Assistant(summary, [])] + [] == [Assistant(summary, [])];
  }

  lemma StoredPaired(t: TurnNode, v: Flags)
    requires OwnAnswers(Turn(t))
    ensures WellPaired([Assistant(t.assistantContent, StoredCalls(t.tools, v))]
                       + WithAdvisories(StoredResults(t.tools, v), AdvisoriesText(t.advisories, v)))
  {
    hide AdvisoriesText, WellPaired;
    OneTurnPaired(t.assistantContent, StoredCalls(t.tools, v),
                  WithAdvisories(StoredResults(t.tools, v), AdvisoriesText(t.advisories, v)));
  }

  lemma PlannedPaired(t: TurnNode, v: Flags, plan: RenderPlan, folded: set<string>, foldedNote: ToolCallNode -> string)
    requires OwnAnswers(Turn(t))
    ensures WellPaired([Assistant(t.assistantContent, PlannedCalls(t.tools, v, plan))]
                       + WithAdvisories(PlannedResults(t.tools, v, plan, folded, foldedNote), AdvisoriesText(t.advisories, v)))
  {
    hide AdvisoriesText, WellPaired, PlannedCall, PlannedResult;
    OneTurnPaired(t.assistantContent, PlannedCalls(t.tools, v, plan),
                  WithAdvisories(PlannedResults(t.tools, v, plan, folded, foldedNote), AdvisoriesText(t.advisories, v)));
  }

  lemma NodePaired(n: Node, index: nat, v: Flags, plan: RenderPlan, folded: set<string>, foldedNote: ToolCallNode -> string)
    requires OwnAnswers(n)
    ensures WellPaired(PlannedNode(n, index, v, plan, folded, foldedNote))
  {
    if n.Turn? {
      TurnPaired(n.turn, index, v, plan, folded, foldedNote);
    }
  }

  /** Every proper history renders to paired messages, in every state of its flags and under every
      plan and folded set. */
  lemma {:induction false} RenderedPaired(nodes: seq<Node>, i: nat, v: Flags, plan: RenderPlan, folded: set<string>,
                                          foldedNote: ToolCallNode -> string)
    requires Proper(nodes) && i <= |nodes|
    ensures WellPaired(Rendered(nodes, i, v, plan, folded, foldedNote))
  {
    hide *;
    if i == 0 {
      NothingRendered(nodes, v, plan, folded, foldedNote);
    } else {
      var before := Rendered(nodes, i - 1, v, plan, folded, foldedNote);
      var now := PlannedNode(nodes[i - 1], i - 1, v, plan, folded, foldedNote);
      OneMoreRendered(nodes, i, v, plan, folded, foldedNote);
      RenderedPaired(nodes, i - 1, v, plan, folded, foldedNote);
      ProperAnswers(nodes, i - 1);
      NodePaired(nodes[i - 1], i - 1, v, plan, folded, foldedNote);
      PairedAppend(before, now);
    }
  }

  /** The file context that follows the nodes. */
  function WithContext(messages: seq<Message>, context: string): seq<Message> {
    if context == "" then messages else messages + [User(context)]
  }

  /** The whole request. */
  lemma TranscriptPaired(nodes: seq<Node>, v: Flags, plan: RenderPlan, folded: set<string>,
                         foldedNote: ToolCallNode -> string, context: string)
    requires Proper(nodes)
    ensures WellPaired(WithContext(Rendered(nodes, |nodes|, v, plan, folded, foldedNote), context))
  {
    RenderedPaired(nodes, |nodes|, v, plan, folded, foldedNote);
    assert [User(context)][1..] == [];
    PairedAppend(Rendered(nodes, |nodes|, v, plan, folded, foldedNote), [User(context)]);
  }

  // ----- what a plan leaves alone

  function Ids(calls: seq<ToolCall>): seq<string> {
    seq(|calls|, k requires 0 <= k < |calls| => calls[k].callId)
  }

  /** The identifiers of the calls a transcript sends. */
  function SentIds(messages: seq<Message>): seq<string> {
    if messages == [] then []
    else (if messages[0].Assistant? then Ids(messages[0].calls) else []) + SentIds(messages[1..])
  }

  function TurnIds(t: TurnNode): seq<string> {
    seq(|t.tools|, k requires 0 <= k < |t.tools| => t.tools[k].toolCall.callId)
  }

  /** The identifiers of the calls of the first i nodes' turns that are collapsed neither in the
      history nor by the plan. */
  function ExpandedIds(nodes: seq<Node>, i: nat, v: Flags, plan: RenderPlan): seq<string>
    requires i <= |nodes|
  {
    if i == 0 then [] else ExpandedIds(nodes, i - 1, v, plan) + NodeIds(nodes[i - 1], i - 1, v, plan)
  }

  function NodeIds(n: Node, index: nat, v: Flags, plan: RenderPlan): seq<string> {
    if n.Turn? && n.turn !in v.turns && index !in plan.collapsedTurns then TurnIds(n.turn) else []
  }

  lemma NothingRendered(nodes: seq<Node>, v: Flags, plan: RenderPlan, folded: set<string>, foldedNote: ToolCallNode -> string)
    ensures var none := Rendered(nodes, 0, v, plan, folded, foldedNote);
      none == [] && WellPaired(none) && SentIds(none) == [] && ExpandedIds(nodes, 0, v, plan) == []
  {
  }

  lemma OneMoreRendered(nodes: seq<Node>, i: nat, v: Flags, plan: RenderPlan, folded: set<string>,
                        foldedNote: ToolCallNode -> string)
    requires 0 < i <= |nodes|
    ensures Rendered(nodes, i, v, plan, folded, foldedNote) ==
      Rendered(nodes, i - 1, v, plan, folded, foldedNote) + PlannedNode(nodes[i - 1], i - 1, v, plan, folded, foldedNote)
    ensures ExpandedIds(nodes, i, v, plan) == ExpandedIds(nodes, i - 1, v, plan) + NodeIds(nodes[i - 1], i - 1, v, plan)
  {
    hide PlannedNode, NodeIds;
  }

  lemma {:induction false} SentAppend(a: seq<Message>, b: seq<Message>)
    ensures SentIds(a + b) == SentIds(a) + SentIds(b)
  {
    if a == [] {
      assert a + b == b;
    } else {
      assert (a + b)[1..] == a[1..] + b;
      SentAppend(a[1..], b);
    }
  }

  lemma {:induction false} ResultsSendNone(results: seq<Message>)
    requires forall k :: 0 <= k < |results| ==> results[k].ToolMessage?
    ensures SentIds(results) == []
  {
    if results != [] { ResultsSendNone(results[1..]); }
  }

  lemma OneTurnSends(content: string, calls: seq<ToolCall>, results: seq<Message>)
    requires forall k :: 0 <= k < |results| ==> results[k].ToolMessage?
    ensures SentIds([Assistant(content, calls)] + results) == Ids(calls)
  {
    assert ([Assistant(content, calls)] + results)[1..] == results;
    ResultsSendNone(results);
  }

  lemma TurnSends(t: TurnNode, index: nat, v: Flags, plan: RenderPlan, folded: set<string>, foldedNote: ToolCallNode -> string)
    ensures SentIds(PlannedTurn(t, index, v, plan, folded, foldedNote)) == NodeIds(Turn(t), index, v, plan)
  {
    hide SentIds, WithAdvisories, StoredCalls, StoredResults, PlannedCalls, PlannedResults, AdvisoriesText, Touched, Ids, TurnIds;
    OneTurnSends(t.Summary(), [], []);
    assert [Assistant(t.Summary(), [])] + [] == [Assistant(t.Summary(), [])];
    var text := AdvisoriesText(t.advisories, v);
    OneTurnSends(t.assistantContent, StoredCalls(t.tools, v), WithAdvisories(StoredResults(t.tools, v), text));
    OneTurnSends(t.assistantContent, PlannedCalls(t.tools, v, plan),
                 WithAdvisories(PlannedResults(t.tools, v, plan, folded, foldedNote), text));
    SameIds(t, v, plan);
  }

  lemma SameIds(t: TurnNode, v: Flags, plan: RenderPlan)
    ensures Ids([]) == []
    ensures Ids(StoredCalls(t.tools, v)) == TurnIds(t)
    ensures Ids(PlannedCalls(t.tools, v, plan)) == TurnIds(t)
  {
  }

  lemma NodeSends(n: Node, index: nat, v: Flags, plan: RenderPlan, folded: set<string>, foldedNote: ToolCallNode -> string)
    ensures SentIds(PlannedNode(n, index, v, plan, folded, foldedNote)) == NodeIds(n, index, v, plan)
  {
    if n.Turn? {
      TurnSends(n.turn, index, v, plan, folded, foldedNote);
    }
  }

  /** Replacing, folding and detail-collapsing drop no call: exactly the calls of the expanded turns
      are sent, in history order. */
  lemma {:induction false} NoCallDropped(nodes: seq<Node>, i: nat, v: Flags, plan: RenderPlan, folded: set<string>,
                                         foldedNote: ToolCallNode -> string)
    requires i <= |nodes|
    ensures SentIds(Rendered(nodes, i, v, plan, folded, foldedNote)) == ExpandedIds(nodes, i, v, plan)
  {
    hide *;
    if i == 0 {
      NothingRendered(nodes, v, plan, folded, foldedNote);
    } else {
      var before := Rendered(nodes, i - 1, v, plan, folded, foldedNote);
      var now := PlannedNode(nodes[i - 1], i - 1, v, plan, folded, foldedNote);
      OneMoreRendered(nodes, i, v, plan, folded, foldedNote);
      NoCallDropped(nodes, i - 1, v, plan, folded, foldedNote);
      NodeSends(nodes[i - 1], i - 1, v, plan, folded, foldedNote);
      SentAppend(before, now);
    }
  }

  /** A result no plan decision names is sent as stored, and the shortcut for turns without any
      decision sends what the general form would. */
  lemma UntouchedAsStored(t: TurnNode, index: nat, v: Flags, plan: RenderPlan, folded: set<string>,
                          foldedNote: ToolCallNode -> string, k: nat)
    requires t !in v.turns && index !in plan.collapsedTurns && k < |t.tools| && !Touched(t.tools[k], plan, folded)
    ensures var stored, planned := StoredTurn(t, v), PlannedTurn(t, index, v, plan, folded, foldedNote);
      && |planned| == |stored| == 1 + |t.tools|
      && planned[1 + k] == stored[1 + k]
      && planned[0].calls[k] == stored[0].calls[k]
  {
  }

  // ----- the methods

  /** `_render_advisories` */
  method RenderAdvisories(t: TurnNode, ghost v: Flags) returns (text: string)
    requires TurnMatches(t, v)
    ensures text == AdvisoriesText(t.advisories, v)
  {
    var parts: seq<string> := [];
    for i := 0 to |t.advisories|
      invariant |parts| == i
      invariant forall k :: 0 <= k < i ==> parts[k] == AdvisoryText(t.advisories[k], v)
    {
      var a := t.advisories[i];
      assert a in t.advisories;
      if a.collapsed {
        var s := a.Summary();
        if s != "" { parts := parts + [s]; }
      } else {
        parts := parts + [a.content];
      }
    }
    assert parts == seq(|t.advisories|, k requires 0 <= k < |t.advisories| => AdvisoryText(t.advisories[k], v));
    text := Join(parts, "\n\n");
  }

  /** `TurnNode.render` */
  method RenderStored(t: TurnNode, ghost v: Flags) returns (messages: seq<Message>)
    requires TurnMatches(t, v)
    ensures messages == StoredTurn(t, v)
  {
    if t.collapsed {
      return [Assistant(t.Summary(), [])];
    }
    var calls: seq<ToolCall>, results: seq<Message> := [], [];
    for i := 0 to |t.tools|
      invariant |calls| == |results| == i
      invariant forall k :: 0 <= k < i ==> calls[k] == StoredCall(t.tools[k], v) && results[k] == StoredResult(t.tools[k], v)
    {
      var x := t.tools[i];
      assert x in t.tools;
      if x.detailCollapsed {
        calls := calls + [x.toolCall.(arguments := x.abbreviatedArguments)];
        results := results + [ToolMessage(x.result.callId, x.summary, false)];
      } else {
        calls := calls + [x.toolCall];
        results := results + [ToolMessage(x.result.callId, x.result.content, x.result.isError)];
      }
    }
    assert calls == StoredCalls(t.tools, v) && results == StoredResults(t.tools, v);
    var text := RenderAdvisories(t, v);
    messages := [Assistant(t.assistantContent, calls)] + WithAdvisories(results, text);
  }

  /** `_render_turn_node` */
  method RenderTurnNode(t: TurnNode, index: nat, folded: set<string>, plan: RenderPlan,
                        foldedNote: ToolCallNode -> string, ghost v: Flags) returns (messages: seq<Message>)
    requires TurnMatches(t, v)
    ensures messages == PlannedTurn(t, index, v, plan, folded, foldedNote)
  {
    if t.collapsed {
      messages := RenderStored(t, v);
      return;
    }
    if index in plan.collapsedTurns {
      return [Assistant(t.Summary(), [])];
    }
    if forall k :: 0 <= k < |t.tools| ==> !Touched(t.tools[k], plan, folded) {
      messages := RenderStored(t, v);
      return;
    }
    var calls, results := RenderPlanned(t, folded, plan, foldedNote, v);
    var text := RenderAdvisories(t, v);
    messages := [Assistant(t.assistantContent, calls)] + WithAdvisories(results, text);
  }

  /** The calls and results of a turn the plan touches. */
  method RenderPlanned(t: TurnNode, folded: set<string>, plan: RenderPlan, foldedNote: ToolCallNode -> string, ghost v: Flags)
    returns (calls: seq<ToolCall>, results: seq<Message>)
    requires TurnMatches(t, v)
    ensures calls == PlannedCalls(t.tools, v, plan)
    ensures results == PlannedResults(t.tools, v, plan, folded, foldedNote)
  {
    calls, results := [], [];
    for i := 0 to |t.tools|
      invariant |calls| == |results| == i
      invariant forall k :: 0 <= k < i ==> calls[k] == PlannedCall(t.tools[k], v, plan)
      invariant forall k :: 0 <= k < i ==> results[k] == PlannedResult(t.tools[k], v, plan, folded, foldedNote)
    {
      var x := t.tools[i];
      assert x in t.tools;
      var id := x.toolCall.callId;
      var call := if x.detailCollapsed || id in plan.detailCollapsed
        then x.toolCall.(arguments := x.abbreviatedArguments) else x.toolCall;
      var result: Message;
      if plan.ReplacementFor(id).Some? {
        result := ToolMessage(x.result.callId, plan.ReplacementFor(id).value, x.result.isError);
      } else if id in folded {
        result := ToolMessage(x.result.callId, foldedNote(x), x.result.isError);
      } else if id in plan.detailCollapsed {
        result := ToolMessage(x.result.callId, x.summary, x.result.isError);
      } else if x.detailCollapsed {
        result := ToolMessage(x.result.callId, x.summary, false);
      } else {
        result := ToolMessage(x.result.callId, x.result.content, x.result.isError);
      }
      calls, results := calls + [call], results + [result];
    }
  }

  /** `_render_nodes`, and the file context behind it. */
  method RenderHistory(history: HistoryTree, folded: set<string>, plan: RenderPlan, foldedNote: ToolCallNode -> string,
                       context: string)
    returns (messages: seq<Message>)
    requires Proper(history.nodes)
    ensures messages ==
      WithContext(Rendered(history.nodes, |history.nodes|, View(history.nodes), plan, folded, foldedNote), context)
    ensures WellPaired(messages)
  {
    hide *;
    var nodes := history.nodes;
    ghost var v := View(nodes);
    ViewMatches(nodes);
    ObjectsAllocated(nodes);
    messages := [];
    NothingRendered(nodes, v, plan, folded, foldedNote);
    for i := 0 to |nodes|
      invariant View(nodes) == v
      invariant messages == Rendered(nodes, i, v, plan, folded, foldedNote)
    {
      ViewMatches(nodes);
      var added := RenderNode(nodes[i], i, folded, plan, foldedNote, v);
      OneMoreRendered(nodes, i + 1, v, plan, folded, foldedNote);
      messages := messages + added;
    }
    TranscriptPaired(nodes, v, plan, folded, foldedNote, context);
    messages := WithContext(messages, context);
  }

  method RenderNode(n: Node, index: nat, folded: set<string>, plan: RenderPlan, foldedNote: ToolCallNode -> string,
                    ghost v: Flags)
    returns (messages: seq<Message>)
    requires NodeMatches(n, v)
    ensures messages == PlannedNode(n, index, v, plan, folded, foldedNote)
  {
    match n {
      case Prompt(p) => messages := [User(if p.collapsed then p.Summary() else p.content)];
      case Turn(t) => messages := RenderTurnNode(t, index, folded, plan, foldedNote, v);
      case Archive(_, notice) => messages := [User(notice)];
      case Housekeeping(_) => messages := [];
    }
  }
}
