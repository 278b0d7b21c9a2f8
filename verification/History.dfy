// The stored history: nodes whose collapse flags compaction flips, and what they cost.
module History {
  import opened Integers
  import opened Text

  const CHARS_PER_TOKEN: nat := 4
  const LONG_CONTENT_THRESHOLD: nat := 2000
  const TRUNCATED_PREFIX_CHARS: nat := 500
  const SUMMARY_CONTENT_PREFIX_CHARS: nat := 200

  datatype ToolCall = ToolCall(callId: string, name: string, arguments: string)

  datatype ToolResult = ToolResult(callId: string, content: string, isError: bool)

  /** `estimate_tokens` */
  function EstimateTokens(text: string): (n: nat)
    ensures n >= 1
  {
    Max(1, |text| / CHARS_PER_TOKEN)
  }

  /** `_truncate_content` */
  function TruncateContent(content: string, prefixChars: nat): string {
    if |content| <= prefixChars then content
    else content[..prefixChars] + "\n[... " + Decimal(|content| - prefixChars) + " more characters]"
  }

  // ----- nodes

  /** A tool call and its result; the summary and the abbreviated arguments are given texts. */
  class ToolCallNode {
    const toolCall: ToolCall
    const result: ToolResult
    const abbreviatedArguments: string
    const summary: string
    const salience: real
    var detailCollapsed: bool

    constructor (toolCall: ToolCall, result: ToolResult, abbreviatedArguments: string, summary: string, salience: real)
      ensures this.toolCall == toolCall && this.result == result && !detailCollapsed
      ensures this.abbreviatedArguments == abbreviatedArguments && this.summary == summary && this.salience == salience
    {
      this.toolCall, this.result := toolCall, result;
      this.abbreviatedArguments, this.summary, this.salience := abbreviatedArguments, summary, salience;
      detailCollapsed := false;
    }

    function ExpandedTokenCost(): nat {
      EstimateTokens(toolCall.name) + EstimateTokens(toolCall.arguments) + EstimateTokens(result.content)
    }

    function CollapsedTokenCost(): nat {
      EstimateTokens(toolCall.name) + EstimateTokens(abbreviatedArguments) + EstimateTokens(summary)
    }
  }

  /** Status text attached to a turn. */
  class AdvisoryNode {
    const source: string
    const content: string
    const salience: real
    var collapsed: bool

    constructor (source: string, content: string, salience: real)
      ensures this.source == source && this.content == content && this.salience == salience && !collapsed
    {
      this.source, this.content, this.salience, collapsed := source, content, salience, false;
    }

    function Summary(): string { "[" + source + " advisory]" }

    function ExpandedTokenCost(): nat { EstimateTokens(content) }

    function CollapsedTokenCost(): nat { EstimateTokens(Summary()) }
  }

  class UserPromptNode {
    const content: string
    const salience: real
    var collapsed: bool

    constructor (content: string, salience: real)
      ensures this.content == content && this.salience == salience && !collapsed
    {
      this.content, this.salience, collapsed := content, salience, false;
    }

    predicate IsLong() { |content| > LONG_CONTENT_THRESHOLD }

    function Summary(): string { TruncateContent(content, TRUNCATED_PREFIX_CHARS) }

    function ExpandedTokenCost(): nat { EstimateTokens(content) }

    function CollapsedTokenCost(): nat { EstimateTokens(Summary()) }
  }

  /** An assistant turn with its tool calls. */
  class TurnNode {
    const assistantContent: string
    const tools: seq<ToolCallNode>
    const advisories: seq<AdvisoryNode>
    const salience: real
    var collapsed: bool

    constructor (assistantContent: string, tools: seq<ToolCallNode>, advisories: seq<AdvisoryNode>, salience: real)
      ensures this.assistantContent == assistantContent && this.tools == tools && this.advisories == advisories
      ensures this.salience == salience && !collapsed
    {
      this.assistantContent, this.tools, this.advisories := assistantContent, tools, advisories;
      this.salience, collapsed := salience, false;
    }

    function Summary(): string {
      var parts :=
        (if assistantContent != "" then [TruncateContent(assistantContent, SUMMARY_CONTENT_PREFIX_CHARS)] else [])
        + ToolSummaries(tools)
        + (if advisories != [] then ["[advisories: " + Join(AdvisorySources(advisories), ", ") + "]"] else []);
      if parts == [] then "[empty turn]" else Join(parts, " | ")
    }

    function CollapsedTokenCost(): nat { EstimateTokens(Summary()) }
  }

  function ToolSummaries(tools: seq<ToolCallNode>): seq<string> {
    if tools == [] then [] else [tools[0].summary] + ToolSummaries(tools[1..])
  }

  function AdvisorySources(advisories: seq<AdvisoryNode>): seq<string> {
    if advisories == [] then [] else [advisories[0].source] + AdvisorySources(advisories[1..])
  }

  /** A top-level history node. Archive markers carry their notice; housekeeping renders as nothing. */
  datatype Node =
    | Prompt(prompt: UserPromptNode)
    | Turn(turn: TurnNode)
    | Archive(nodeCount: nat, notice: string)
    | Housekeeping(inner: seq<Node>)

  // ----- the objects of a history

  function NodeTools(n: Node): set<ToolCallNode> {
    if n.Turn? then set t | t in n.turn.tools else {}
  }

  function NodeAdvisories(n: Node): set<AdvisoryNode> {
    if n.Turn? then set a | a in n.turn.advisories else {}
  }

  function NodeTurns(n: Node): set<TurnNode> {
    if n.Turn? then {n.turn} else {}
  }

  function NodePrompts(n: Node): set<UserPromptNode> {
    if n.Prompt? then {n.prompt} else {}
  }

  function Tools(nodes: seq<Node>): (r: set<ToolCallNode>)
    ensures forall i :: 0 <= i < |nodes| ==> NodeTools(nodes[i]) <= r
  {
    if nodes == [] then {} else NodeTools(nodes[0]) + Tools(nodes[1..])
  }

  function Advisories(nodes: seq<Node>): (r: set<AdvisoryNode>)
    ensures forall i :: 0 <= i < |nodes| ==> NodeAdvisories(nodes[i]) <= r
  {
    if nodes == [] then {} else NodeAdvisories(nodes[0]) + Advisories(nodes[1..])
  }

  function Turns(nodes: seq<Node>): (r: set<TurnNode>)
    ensures forall i :: 0 <= i < |nodes| ==> NodeTurns(nodes[i]) <= r
  {
    if nodes == [] then {} else NodeTurns(nodes[0]) + Turns(nodes[1..])
  }

  function Prompts(nodes: seq<Node>): (r: set<UserPromptNode>)
    ensures forall i :: 0 <= i < |nodes| ==> NodePrompts(nodes[i]) <= r
  {
    if nodes == [] then {} else NodePrompts(nodes[0]) + Prompts(nodes[1..])
  }

  /** Which nodes are collapsed: the whole mutable state of a history's nodes. */
  datatype Flags = Flags(tools: set<ToolCallNode>, advisories: set<AdvisoryNode>,
                         turns: set<TurnNode>, prompts: set<UserPromptNode>)

  ghost function View(nodes: seq<Node>): Flags
    reads Tools(nodes), Advisories(nodes), Turns(nodes), Prompts(nodes)
  {
    Flags(
      set t | t in Tools(nodes) && t.detailCollapsed,
      set a | a in Advisories(nodes) && a.collapsed,
      set t | t in Turns(nodes) && t.collapsed,
      set p | p in Prompts(nodes) && p.collapsed)
  }

  // ----- costs, as functions of the flags

  function ToolCost(t: ToolCallNode, v: Flags): nat {
    if t in v.tools then t.CollapsedTokenCost() else t.ExpandedTokenCost()
  }

  function AdvisoryCost(a: AdvisoryNode, v: Flags): nat {
    if a in v.advisories then a.CollapsedTokenCost() else a.ExpandedTokenCost()
  }

  function ToolCosts(tools: seq<ToolCallNode>, v: Flags): nat {
    if tools == [] then 0 else ToolCosts(tools[..|tools| - 1], v) + ToolCost(tools[|tools| - 1], v)
  }

  function AdvisoryCosts(advisories: seq<AdvisoryNode>, v: Flags): nat {
    if advisories == [] then 0
    else AdvisoryCosts(advisories[..|advisories| - 1], v) + AdvisoryCost(advisories[|advisories| - 1], v)
  }

  function TurnCost(t: TurnNode, v: Flags): nat {
    if t in v.turns then t.CollapsedTokenCost()
    else EstimateTokens(t.assistantContent) + ToolCosts(t.tools, v) + AdvisoryCosts(t.advisories, v)
  }

  function PromptCost(p: UserPromptNode, v: Flags): nat {
    if p in v.prompts then p.CollapsedTokenCost() else p.ExpandedTokenCost()
  }

  function NodeCost(n: Node, v: Flags): nat {
    match n
    case Prompt(p) => PromptCost(p, v)
    case Turn(t) => TurnCost(t, v)
    case Archive(_, notice) => EstimateTokens(notice)
    case Housekeeping(_) => 0
  }

  function TotalCost(nodes: seq<Node>, v: Flags): nat {
    if nodes == [] then 0 else TotalCost(nodes[..|nodes| - 1], v) + NodeCost(nodes[|nodes| - 1], v)
  }

  // ----- the tree

  /** Objects belong to one node each, and results answer their own calls. */
  ghost predicate Proper(nodes: seq<Node>) {
    && (forall i, j :: 0 <= i < j < |nodes| ==>
          && NodeTools(nodes[i]) !! NodeTools(nodes[j])
          && NodeAdvisories(nodes[i]) !! NodeAdvisories(nodes[j])
          && NodeTurns(nodes[i]) !! NodeTurns(nodes[j])
          && NodePrompts(nodes[i]) !! NodePrompts(nodes[j]))
    && (forall i, t :: 0 <= i < |nodes| && t in NodeTools(nodes[i]) ==> t.toolCall.callId == t.result.callId)
  }

  /** How tool calls are summarised; JSON handling is not part of this model. */
  datatype Summaries = Summaries(abbreviate: string -> string, summarize: (ToolCall, ToolResult) -> string)

  /** The last result with the call's identifier, as a dictionary built from the results holds it. */
  function ResultFor(results: seq<ToolResult>, callId: string): (i: int)
    ensures -1 <= i < |results|
    ensures i >= 0 ==> results[i].callId == callId
    ensures forall k :: i < k < |results| ==> results[k].callId != callId
  {
    if results == [] then -1
    else if results[|results| - 1].callId == callId then |results| - 1
    else ResultFor(results[..|results| - 1], callId)
  }

  /** The calls that have a result, in order. */
  function Answered(calls: seq<ToolCall>, results: seq<ToolResult>): seq<ToolCall> {
    if calls == [] then []
    else
      var before, last := Answered(calls[..|calls| - 1], results), calls[|calls| - 1];
      if ResultFor(results, last.callId) >= 0 then before + [last] else before
  }

  class HistoryTree {
    var nodes: seq<Node>

    constructor ()
      ensures nodes == []
    {
      nodes := [];
    }

    method AppendUserPrompt(content: string, salience: real) returns (p: UserPromptNode)
      requires Proper(nodes)
      modifies this
      ensures fresh(p) && p.content == content && !p.collapsed
      ensures nodes == old(nodes) + [Prompt(p)] && Proper(nodes)
    {
      p := new UserPromptNode(content, salience);
      nodes := nodes + [Prompt(p)];
    }

    /** `append_turn`: calls without a result are skipped. */
    method AppendTurn(content: string, calls: seq<ToolCall>, results: seq<ToolResult>,
                      advisories: seq<AdvisoryNode>, salience: real, toolSalience: real, summaries: Summaries)
      returns (t: TurnNode)
      requires Proper(nodes)
      modifies this
      ensures fresh(t) && !t.collapsed && t.assistantContent == content && t.advisories == advisories && t.salience == salience
      ensures nodes == old(nodes) + [Turn(t)]
      ensures Proper(nodes) <==> forall i :: 0 <= i < |old(nodes)| ==> NodeAdvisories(old(nodes)[i]) !! NodeAdvisories(Turn(t))
      ensures |t.tools| == |Answered(calls, results)|
      ensures forall k :: 0 <= k < |t.tools| ==>
        && fresh(t.tools[k]) && !t.tools[k].detailCollapsed
        && t.tools[k].toolCall == Answered(calls, results)[k]
        && 0 <= ResultFor(results, t.tools[k].toolCall.callId)
        && t.tools[k].result == results[ResultFor(results, t.tools[k].toolCall.callId)]
    {
      var tools := AnsweredNodes(calls, results, toolSalience, summaries);
      t := new TurnNode(content, tools, advisories, salience);
      nodes := nodes + [Turn(t)];
      ProperMore(old(nodes), t);
    }
  }

  /** A turn keeps the tree proper if and only if its advisories are its own. */
  lemma ProperMore(nodes: seq<Node>, t: TurnNode)
    requires Proper(nodes) && (forall i :: 0 <= i < |nodes| ==> NodeTurns(nodes[i]) !! {t})
    requires forall i :: 0 <= i < |nodes| ==> NodeTools(nodes[i]) !! NodeTools(Turn(t))
    requires forall x :: x in t.tools ==> x.toolCall.callId == x.result.callId
    ensures Proper(nodes + [Turn(t)]) <==>
      forall i :: 0 <= i < |nodes| ==> NodeAdvisories(nodes[i]) !! NodeAdvisories(Turn(t))
  {
    var more := nodes + [Turn(t)];
    if Proper(more) {
      forall i | 0 <= i < |nodes| ensures NodeAdvisories(nodes[i]) !! NodeAdvisories(Turn(t)) {
        assert NodeAdvisories(more[i]) !! NodeAdvisories(more[|nodes|]);
      }
    }
  }

  /** The loop of `append_turn` over the assistant's calls. */
  method AnsweredNodes(calls: seq<ToolCall>, results: seq<ToolResult>, salience: real, summaries: Summaries)
    returns (tools: seq<ToolCallNode>)
    ensures |tools| == |Answered(calls, results)|
    ensures forall k :: 0 <= k < |tools| ==>
      && fresh(tools[k]) && !tools[k].detailCollapsed
      && tools[k].toolCall == Answered(calls, results)[k]
      && 0 <= ResultFor(results, tools[k].toolCall.callId)
      && tools[k].result == results[ResultFor(results, tools[k].toolCall.callId)]
  {
    tools := [];
    for i := 0 to |calls|
      invariant |tools| == |Answered(calls[..i], results)|
      invariant forall k :: 0 <= k < |tools| ==>
        && fresh(tools[k]) && !tools[k].detailCollapsed
        && tools[k].toolCall == Answered(calls[..i], results)[k]
        && 0 <= ResultFor(results, tools[k].toolCall.callId)
        && tools[k].result == results[ResultFor(results, tools[k].toolCall.callId)]
    {
      assert calls[..i + 1][..i] == calls[..i];
      var r := ResultFor(results, calls[i].callId);
      if r >= 0 {
        var node := new ToolCallNode(calls[i], results[r], summaries.abbreviate(calls[i].arguments),
                                     summaries.summarize(calls[i], results[r]), salience);
        tools := tools + [node];
      }
    }
    assert calls[..|calls|] == calls;
  }
}
