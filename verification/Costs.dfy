// What the stored costs stand for: the texts a history sends, and which nodes are spared.
module Costs {
  import opened Compaction
  import opened History
  import opened Protection
  import opened Text
  import opened Transcript

  /** A token stands for four characters, and every text costs one. */
  lemma EstimateIs(text: string)
    ensures var n := EstimateTokens(text);
      n >= 1 && |text| < 4 * (n + 1) && (n > 1 ==> 4 * n <= |text|)
  {
  }

  // ----- sent texts

  /** The texts a message carries. */
  function Texts(m: Message): seq<string> {
    match m
    case User(content) => [content]
    case Assistant(content, calls) => [content] + CallTexts(calls)
    case ToolMessage(_, content, _) => [content]
  }

  function CallTexts(calls: seq<ToolCall>): seq<string> {
    if calls == [] then []
    else CallTexts(calls[..|calls| - 1]) + [calls[|calls| - 1].name, calls[|calls| - 1].arguments]
  }

  function SentTexts(messages: seq<Message>): seq<string> {
    if messages == [] then [] else SentTexts(messages[..|messages| - 1]) + Texts(messages[|messages| - 1])
  }

  function Estimates(texts: seq<string>): nat {
    if texts == [] then 0 else Estimates(texts[..|texts| - 1]) + EstimateTokens(texts[|texts| - 1])
  }

  lemma {:induction false} EstimatesAppend(a: seq<string>, b: seq<string>)
    ensures Estimates(a + b) == Estimates(a) + Estimates(b)
  {
    if b == [] {
      assert a + b == a;
    } else {
      assert (a + b)[..|a + b| - 1] == a + b[..|b| - 1];
      EstimatesAppend(a, b[..|b| - 1]);
    }
  }

  lemma EstimatesOne(a: string)
    ensures Estimates([a]) == EstimateTokens(a)
  {
    assert [a][..0] == [];
    assert Estimates([]) == 0;
  }

  lemma SentMore(a: seq<Message>, m: Message)
    ensures SentTexts([]) == [] && SentTexts(a + [m]) == SentTexts(a) + Texts(m)
  {
    assert (a + [m])[..|a|] == a;
  }

  lemma {:induction false} SentAppended(a: seq<Message>, b: seq<Message>)
    ensures SentTexts(a + b) == SentTexts(a) + SentTexts(b)
  {
    hide *;
    if b == [] {
      assert a + b == a;
      SentMore(a, User(""));
    } else {
      var front, last := b[..|b| - 1], b[|b| - 1];
      assert b == front + [last];
      assert a + b == (a + front) + [last];
      SentAppended(a, front);
      SentMore(a + front, last);
      SentMore(front, last);
    }
  }

  lemma SentOne(m: Message)
    ensures SentTexts([m]) == Texts(m)
  {
    assert [m][..0] == [];
  }

  function AdvisoryTexts(advisories: seq<AdvisoryNode>, v: Flags): seq<string> {
    seq(|advisories|, k requires 0 <= k < |advisories| => AdvisoryText(advisories[k], v))
  }

  lemma {:induction false} ToolsCost(tools: seq<ToolCallNode>, v: Flags)
    ensures ToolCosts(tools, v) ==
      Estimates(CallTexts(StoredCalls(tools, v))) + Estimates(SentTexts(StoredResults(tools, v)))
  {
    if tools != [] {
      var front, last := tools[..|tools| - 1], tools[|tools| - 1];
      ToolsCost(front, v);
      var calls, results := StoredCalls(tools, v), StoredResults(tools, v);
      var call, result := StoredCall(last, v), StoredResult(last, v);
      assert calls[..|calls| - 1] == StoredCalls(front, v) && calls[|calls| - 1] == call;
      assert results[..|results| - 1] == StoredResults(front, v) && results[|results| - 1] == result;
      assert CallTexts(calls) == CallTexts(StoredCalls(front, v)) + [call.name, call.arguments];
      assert SentTexts(results) == SentTexts(StoredResults(front, v)) + Texts(result);
      ToolCostIs(last, v);
      hide *;
      EstimatesAppend(CallTexts(StoredCalls(front, v)), [call.name, call.arguments]);
      EstimatesAppend(SentTexts(StoredResults(front, v)), Texts(result));
      OneMoreCost(tools, v);
    } else {
      assert StoredCalls(tools, v) == [] && StoredResults(tools, v) == [];
    }
  }

  lemma OneMoreCost(tools: seq<ToolCallNode>, v: Flags)
    requires tools != []
    ensures ToolCosts(tools, v) == ToolCosts(tools[..|tools| - 1], v) + ToolCost(tools[|tools| - 1], v)
  {
  }

  lemma ToolCostIs(t: ToolCallNode, v: Flags)
    ensures var call := StoredCall(t, v);
      ToolCost(t, v) == Estimates([call.name, call.arguments]) + Estimates(Texts(StoredResult(t, v)))
  {
    hide EstimateTokens;
    var call, result := StoredCall(t, v), StoredResult(t, v);
    assert [call.name, call.arguments] == [call.name] + [call.arguments];
    EstimatesAppend([call.name], [call.arguments]);
    EstimatesOne(call.name);
    EstimatesOne(call.arguments);
    EstimatesOne(result.content);
  }

  lemma {:induction false} AdvisoriesCost(advisories: seq<AdvisoryNode>, v: Flags)
    ensures AdvisoryCosts(advisories, v) == Estimates(AdvisoryTexts(advisories, v))
  {
    if advisories != [] {
      hide EstimateTokens;
      var front, texts := advisories[..|advisories| - 1], AdvisoryTexts(advisories, v);
      AdvisoriesCost(front, v);
      assert texts[..|texts| - 1] == AdvisoryTexts(front, v);
    }
  }

  /** A request that changes nothing. */
  const AsStored: RenderPlan := RenderPlan([], {}, {}, false, {})

  /** A node costs the estimates of the texts it sends; a turn's advisories are estimated apart, though they are sent
      at the end of its last result. */
  lemma CostOfSent(n: Node, index: nat, v: Flags, foldedNote: ToolCallNode -> string)
    ensures n.Turn? && n.turn !in v.turns ==>
      NodeCost(n, v) ==
        Estimates(SentTexts([Assistant(n.turn.assistantContent, StoredCalls(n.turn.tools, v))] + StoredResults(n.turn.tools, v)))
        + Estimates(AdvisoryTexts(n.turn.advisories, v))
    ensures !n.Turn? || n.turn in v.turns ==>
      NodeCost(n, v) == Estimates(SentTexts(PlannedNode(n, index, v, AsStored, {}, foldedNote)))
  {
    hide EstimateTokens;
    match n
    case Prompt(p) =>
      PlainCost(User(if p in v.prompts then p.Summary() else p.content));
    case Archive(_, notice) =>
      PlainCost(User(notice));
    case Housekeeping(_) =>
    case Turn(t) =>
      var message, results := Assistant(t.assistantContent, StoredCalls(t.tools, v)), StoredResults(t.tools, v);
      SentAppended([message], results);
      SentOne(message);
      EstimatesAppend(SentTexts([message]), SentTexts(results));
      EstimatesAppend([t.assistantContent], CallTexts(message.calls));
      EstimatesOne(t.assistantContent);
      ToolsCost(t.tools, v);
      AdvisoriesCost(t.advisories, v);
      PlainCost(Assistant(t.Summary(), []));
      assert CallTexts([]) == [];
  }

  ghost predicate NoAdvisories(n: Node, v: Flags) {
    n.Turn? && n.turn !in v.turns ==> n.turn.advisories == []
  }

  lemma NodeSendsCost(n: Node, index: nat, v: Flags, foldedNote: ToolCallNode -> string)
    requires NoAdvisories(n, v)
    ensures NodeCost(n, v) == Estimates(SentTexts(PlannedNode(n, index, v, AsStored, {}, foldedNote)))
  {
    CostOfSent(n, index, v, foldedNote);
    hide EstimateTokens, SentTexts, NodeCost;
    if n.Turn? && n.turn !in v.turns {
      assert AdvisoryTexts([], v) == [] && AdvisoriesText([], v) == "";
      assert forall k :: 0 <= k < |n.turn.tools| ==> !Touched(n.turn.tools[k], AsStored, {});
    }
  }

  /** Without advisories the cost of a history is the estimate of what it sends. */
  lemma {:induction false} TotalCostIsSent(nodes: seq<Node>, i: nat, v: Flags, foldedNote: ToolCallNode -> string)
    requires i <= |nodes| && forall k :: 0 <= k < |nodes| ==> NoAdvisories(nodes[k], v)
    ensures TotalCost(nodes[..i], v) == Estimates(SentTexts(Rendered(nodes, i, v, AsStored, {}, foldedNote)))
  {
    hide *;
    NoCost(v);
    if i == 0 {
      assert nodes[..0] == [];
      NothingRendered(nodes, v, AsStored, {}, foldedNote);
    } else {
      var before := Rendered(nodes, i - 1, v, AsStored, {}, foldedNote);
      var now := PlannedNode(nodes[i - 1], i - 1, v, AsStored, {}, foldedNote);
      TotalCostIsSent(nodes, i - 1, v, foldedNote);
      OneMoreRendered(nodes, i, v, AsStored, {}, foldedNote);
      NodeSendsCost(nodes[i - 1], i - 1, v, foldedNote);
      SentAppended(before, now);
      EstimatesAppend(SentTexts(before), SentTexts(now));
      assert nodes[..i] == nodes[..i - 1] + [nodes[i - 1]];
      TotalMore(nodes[..i - 1], nodes[i - 1], v);
    }
  }

  lemma NoCost(v: Flags)
    ensures TotalCost([], v) == Estimates(SentTexts([])) == 0
  {
  }

  lemma TotalMore(nodes: seq<Node>, n: Node, v: Flags)
    ensures TotalCost(nodes + [n], v) == TotalCost(nodes, v) + NodeCost(n, v)
  {
    assert (nodes + [n])[..|nodes|] == nodes;
  }

  lemma PlainCost(m: Message)
    requires m.Assistant? ==> m.calls == []
    ensures !m.ToolMessage? ==> Estimates(SentTexts([m])) == EstimateTokens(m.content)
  {
    hide EstimateTokens;
    SentOne(m);
    EstimatesOne(m.content);
    assert CallTexts([]) == [];
  }

  // ----- summaries

  /** A truncated text keeps its beginning and says how many characters are missing. */
  lemma TruncationKeeps(content: string, prefixChars: nat) returns (missing: string)
    ensures var r := TruncateContent(content, prefixChars);
      if |content| <= prefixChars then r == content
      else
        && r == content[..prefixChars] + "\n[... " + missing + " more characters]"
        && AllDigits(missing) && DecimalValue(missing) == |content| - prefixChars
  {
    missing := "";
    if |content| > prefixChars {
      missing := Decimal(|content| - prefixChars);
      DecimalRoundTrip(|content| - prefixChars);
    }
  }

  lemma {:induction false} JoinHolds(parts: seq<string>, separator: string, k: nat) returns (a: string, b: string)
    requires k < |parts|
    ensures Join(parts, separator) == a + parts[k] + b
  {
    if k == 0 {
      a := "";
      b := if |parts| == 1 then "" else separator + Join(parts[1..], separator);
      assert |parts| == 1 ==> a + parts[k] + b == parts[0];
    } else {
      var c, d := JoinHolds(parts[1..], separator, k - 1);
      a, b := parts[0] + separator + c, d;
    }
  }

  lemma {:induction false} SummaryOf(tools: seq<ToolCallNode>, k: nat)
    requires k < |tools|
    ensures |ToolSummaries(tools)| == |tools| && ToolSummaries(tools)[k] == tools[k].summary
  {
    if k > 0 {
      SummaryOf(tools[1..], k - 1);
    } else if |tools| > 1 {
      SummaryOf(tools[1..], 0);
    }
  }

  /** A collapsed turn still tells what each of its calls did. */
  lemma SummaryMentions(t: TurnNode, k: nat) returns (a: string, b: string)
    requires k < |t.tools|
    ensures t.Summary() == a + t.tools[k].summary + b
  {
    SummaryOf(t.tools, k);
    var first := if t.assistantContent != "" then [TruncateContent(t.assistantContent, SUMMARY_CONTENT_PREFIX_CHARS)] else [];
    var last := if t.advisories != [] then ["[advisories: " + Join(AdvisorySources(t.advisories), ", ") + "]"] else [];
    var parts := first + ToolSummaries(t.tools) + last;
    assert parts[|first| + k] == t.tools[k].summary;
    hide Join, TruncateContent, ToolSummaries, AdvisorySources;
    a, b := JoinHolds(parts, " | ", |first| + k);
  }

  // ----- what compaction takes

  /** A run takes only what saves tokens on unprotected nodes, at the salience decayed by the node's age, and only once
      everything less salient is gone. */
  lemma TakenByAge(steps: seq<Candidate>, nodes: seq<Node>, weight: nat -> real, v0: Flags, v: Flags,
                   tailNodes: int, tailToolCalls: int, c: Candidate)
    requires GreedyRun(steps, nodes, weight, v0, v, tailNodes, tailToolCalls) && c in steps
    ensures exists j: nat ::
      && j < |nodes| && !IsProtected(nodes, j, tailNodes, tailToolCalls)
      && CandidateFor(c, nodes[j], weight(|nodes| - 1 - j), v0)
    ensures forall i: nat, d :: (
      && i < |nodes| && !IsProtected(nodes, i, tailNodes, tailToolCalls)
      && CandidateFor(d, nodes[i], weight(|nodes| - 1 - i), v0) && d.effectiveSalience < c.effectiveSalience) ==>
        Applied(v, d) || InCollapsedTurn(v, d)
  {
    var protected: set<nat> :| ProtectedSet(protected, nodes, tailNodes, tailToolCalls)
      && LeastSalientFirst(steps, nodes, Scope(protected, weight), v0, v);
    var scope := Scope(protected, weight);
    assert Sound(c, nodes, scope, v0);
    hide IsProtected, ToolCollapsible, AdvisoryCollapsible, TurnCollapsible, PromptCollapsible, Decayed;
    forall i: nat, d |
      && i < |nodes| && !IsProtected(nodes, i, tailNodes, tailToolCalls)
      && CandidateFor(d, nodes[i], weight(|nodes| - 1 - i), v0) && d.effectiveSalience < c.effectiveSalience
      ensures Applied(v, d) || InCollapsedTurn(v, d)
    {
      assert NodeGreedy(nodes[i], weight(|nodes| - 1 - i), c.effectiveSalience, v0, v);
    }
  }

  /** Decay scales: without it a salience stays, and decaying twice decays by the product. */
  lemma DecayScales(salience: real, a: real, b: real)
    ensures Decayed(salience, 1.0) == salience && Decayed(salience, a * b) == Decayed(Decayed(salience, a), b)
  {
    assert salience * (a * b) == salience * a * b;
  }

  lemma {:induction false} NumeralIsShort(n: nat)
    ensures |Decimal(n)| <= 1 + n / 10
  {
    if n >= 10 { NumeralIsShort(n / 10); }
  }

  /** Exactly the prompts of more than 2000 characters save tokens by being truncated, as long as they stand whole. */
  lemma LongPromptsSave(p: UserPromptNode, v: Flags)
    ensures PromptCollapsible(p, v) <==> p !in v.prompts && |p.content| > 2000
  {
    if |p.content| > 2000 {
      NumeralIsShort(|p.content| - 500);
      assert |p.Summary()| < 600 + |p.content| / 10;
    }
  }

  // ----- protection

  /** The calls of these nodes, in order. */
  function Calls(nodes: seq<Node>): seq<ToolCallNode> {
    if nodes == [] then [] else (if nodes[0].Turn? then nodes[0].turn.tools else []) + Calls(nodes[1..])
  }

  lemma {:induction false} CallsCounted(nodes: seq<Node>)
    ensures |Calls(nodes)| == CallTotal(nodes)
  {
    if nodes != [] { CallsCounted(nodes[1..]); }
  }

  /** Spared are the last nodes, the prompt that no later prompt follows, and turns whose last call is among the
      newest calls. */
  lemma ProtectedIff(nodes: seq<Node>, i: nat, tailNodes: int, tailToolCalls: int)
    requires i < |nodes|
    ensures IsProtected(nodes, i, tailNodes, tailToolCalls) <==>
      || |nodes| - i <= tailNodes
      || (nodes[i].Prompt? && forall k :: i < k < |nodes| ==> !nodes[k].Prompt?)
      || (nodes[i].Turn? && nodes[i].turn.tools != [] && |Calls(nodes[i + 1..])| < tailToolCalls)
  {
    CallsCounted(nodes[i + 1..]);
    hide CallTotal, Calls;
  }
}
