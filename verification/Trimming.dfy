// Housekeeping: the oldest nodes give way to an archive marker, and the housekeeping exchange to one node.
module Trimming {
  import opened History
  import opened Optional
  import opened Protection
  import opened Sorting
  import opened Transcript

  const CONTEXT_BOUNDARY_TEXT: string :=
    "[CONTEXT BOUNDARY: Everything above this point will be removed from your message history after this turn. "
    + "If any of that content is important, write it to your journal now.]"

  /** The cut takes exactly the nodes before the first protected one. */
  ghost predicate CutsBeforeProtected(cut: Option<nat>, n: nat, protected: set<nat>) {
    match cut
    case None => n == 0 || 0 in protected
    case Some(c) =>
      && c < n
      && (forall i: nat :: i <= c ==> i !in protected)
      && (c + 1 in protected || (c + 1 == n && protected == {}))
  }

  /** `select_cut_point`: the last node to trim. */
  method SelectCutPoint(n: nat, protected: set<nat>) returns (cut: Option<nat>)
    requires forall i :: i in protected ==> i < n
    ensures CutsBeforeProtected(cut, n, protected)
  {
    if n == 0 {
      return None;
    }
    if protected == {} {
      return Some(n - 1);
    }
    var first := Least(protected);
    if first == 0 {
      return None;
    }
    cut := Some(first - 1);
  }

  /** The sub-loop, given what it appends. */
  method RunSubLoop(history: HistoryTree, appended: seq<Node>)
    modifies history
    ensures history.nodes == old(history.nodes) + appended
  {
    history.nodes := history.nodes + appended;
  }

  /** `perform_housekeeping`: how many nodes were trimmed, nothing when none could be. */
  method PerformHousekeeping(history: HistoryTree, appended: seq<Node>, notice: nat -> string)
    returns (trimmed: Option<nat>, ghost boundary: Node)
    requires Proper(history.nodes)
    modifies history
    ensures var before := old(history.nodes);
      match trimmed
      case None => history.nodes == before && (before == [] || IsProtected(before, 0, TAIL_NODES, TAIL_CALLS))
      case Some(n) =>
        && 0 < n <= |before| && TrimsUpTo(before, n)
        && boundary.Prompt? && fresh(boundary.prompt) && boundary.prompt.content == CONTEXT_BOUNDARY_TEXT
        && history.nodes == Trimmed(before, n, notice(n), [boundary] + appended)
        && Proper(history.nodes)
  {
    var before := history.nodes;
    var protected := ProtectedIndices(before, TAIL_NODES, TAIL_CALLS);
    var cut := SelectCutPoint(|before|, protected);
    if cut.None? {
      trimmed, boundary := None, Housekeeping([]);
      return;
    }
    var toTrim := cut.value + 1;
    var prompt := new UserPromptNode(CONTEXT_BOUNDARY_TEXT, 1.0);
    boundary := Prompt(prompt);
    history.nodes := before[..toTrim] + [Prompt(prompt)] + before[toTrim..];
    RunSubLoop(history, appended);
    var tailStart, tailEnd := cut.value + 2, |before| + 1;
    var tail := history.nodes[tailStart..tailEnd];
    var inner := [Prompt(prompt)] + history.nodes[tailEnd..];
    assert tail == before[toTrim..];
    assert history.nodes[tailEnd..] == appended;
    history.nodes := [Archive(toTrim, notice(toTrim))] + tail + [Housekeeping(inner)];
    TrimmedProper(before, toTrim, notice(toTrim), inner);
    trimmed := Some(toTrim);
  }

  const TAIL_NODES := DEFAULT_PROTECTED_TAIL_NODES
  const TAIL_CALLS := DEFAULT_PROTECTED_TAIL_TOOL_CALLS

  /** None of the first n nodes is protected, and the next one is. */
  ghost predicate TrimsUpTo(nodes: seq<Node>, n: nat)
    requires n <= |nodes|
  {
    && (forall i: nat :: i < n ==> !IsProtected(nodes, i, TAIL_NODES, TAIL_CALLS))
    && (n < |nodes| ==> IsProtected(nodes, n, TAIL_NODES, TAIL_CALLS))
  }

  /** An archive marker, every node past the cut in order, one housekeeping node. */
  function Trimmed(nodes: seq<Node>, n: nat, notice: string, inner: seq<Node>): seq<Node>
    requires n <= |nodes|
  {
    [Archive(n, notice)] + nodes[n..] + [Housekeeping(inner)]
  }

  lemma TrimmedProper(nodes: seq<Node>, n: nat, notice: string, inner: seq<Node>)
    requires Proper(nodes) && n <= |nodes|
    ensures Proper(Trimmed(nodes, n, notice, inner))
  {
    var r := Trimmed(nodes, n, notice, inner);
    assert forall k :: 0 < k < |r| - 1 ==> r[k] == nodes[n + k - 1];
  }

  // ----- what is conserved

  lemma {:induction false} CallsAfter(nodes: seq<Node>, protected: set<nat>, i: nat)
    requires i <= |nodes|
    ensures ProtectedCalls(nodes, protected, i) <= CallTotal(nodes[i..])
    decreases |nodes| - i
  {
    if i < |nodes| {
      CallsAfter(nodes, protected, i + 1);
      assert nodes[i..][1..] == nodes[i + 1..];
    }
  }

  lemma {:induction false} NothingProtectedBefore(nodes: seq<Node>, protected: set<nat>, i: nat, n: nat)
    requires i <= n <= |nodes| && forall k: nat :: k < n ==> k !in protected
    ensures ProtectedCalls(nodes, protected, i) == ProtectedCalls(nodes, protected, n)
    decreases n - i
  {
    if i < n { NothingProtectedBefore(nodes, protected, i + 1, n); }
  }

  lemma {:induction false} TailSplit(nodes: seq<Node>, a: nat, b: nat, tail: seq<Node>)
    requires a <= b == |nodes|
    ensures CallTotal((nodes + tail)[a..]) == CallTotal(nodes[a..]) + CallTotal(tail)
    decreases b - a
  {
    if a == b {
      assert (nodes + tail)[a..] == tail && nodes[a..] == [];
    } else {
      TailSplit(nodes, a + 1, b, tail);
      assert (nodes + tail)[a..][1..] == (nodes + tail)[a + 1..];
      assert nodes[a..][1..] == nodes[a + 1..];
    }
  }

  /** Housekeeping keeps every protected node, in order, the latest prompt and the newest tool calls
      among them. */
  lemma TrimmingConserves(nodes: seq<Node>, protected: set<nat>, n: nat, notice: string, inner: seq<Node>)
    requires n <= |nodes| && TrimsUpTo(nodes, n) && ProtectedSet(protected, nodes, TAIL_NODES, TAIL_CALLS)
    ensures var after := Trimmed(nodes, n, notice, inner);
      && (forall i :: i in protected ==> n <= i && after[1 + i - n] == nodes[i])
      && (LatestPrompt(nodes) >= 0 ==> LatestPrompt(after) == 1 + LatestPrompt(nodes) - n)
      && CallTotal(after) >= (if TAIL_CALLS < CallTotal(nodes) then TAIL_CALLS else CallTotal(nodes))
  {
    KeepsProtected(nodes, protected, n, notice, inner);
    KeepsCalls(nodes, protected, n, notice, inner);
    if LatestPrompt(nodes) >= 0 {
      KeepsLatestPrompt(nodes, n, notice, inner);
    }
    hide *;
  }

  lemma KeepsProtected(nodes: seq<Node>, protected: set<nat>, n: nat, notice: string, inner: seq<Node>)
    requires n <= |nodes| && TrimsUpTo(nodes, n) && ProtectedSet(protected, nodes, TAIL_NODES, TAIL_CALLS)
    ensures forall i :: i in protected ==> n <= i < |nodes| && Trimmed(nodes, n, notice, inner)[1 + i - n] == nodes[i]
  {
    hide IsProtected;
  }

  lemma KeepsCalls(nodes: seq<Node>, protected: set<nat>, n: nat, notice: string, inner: seq<Node>)
    requires n <= |nodes| && TrimsUpTo(nodes, n) && ProtectedSet(protected, nodes, TAIL_NODES, TAIL_CALLS)
    ensures CallTotal(Trimmed(nodes, n, notice, inner)) >=
      (if TAIL_CALLS < CallTotal(nodes) then TAIL_CALLS else CallTotal(nodes))
  {
    hide IsProtected, CallTotal, ProtectedCalls, Trimmed;
    NewestCallsProtected(nodes, protected, TAIL_NODES, TAIL_CALLS, 0);
    assert nodes[0..] == nodes;
    NothingProtectedBefore(nodes, protected, 0, n);
    CallsAfter(nodes, protected, n);
    TrimmedCalls(nodes, n, notice, inner);
  }

  lemma KeepsLatestPrompt(nodes: seq<Node>, n: nat, notice: string, inner: seq<Node>)
    requires n <= |nodes| && TrimsUpTo(nodes, n) && LatestPrompt(nodes) >= 0
    ensures LatestPrompt(Trimmed(nodes, n, notice, inner)) == 1 + LatestPrompt(nodes) - n
  {
    var latest := LatestPrompt(nodes);
    assert latest >= n by {
      assert IsProtected(nodes, latest, TAIL_NODES, TAIL_CALLS);
    }
    hide IsProtected, LatestPrompt;
    LatestPromptIs(Trimmed(nodes, n, notice, inner), 1 + latest - n);
  }

  lemma LatestPromptIs(nodes: seq<Node>, i: int)
    requires 0 <= i < |nodes| && nodes[i].Prompt? && forall k :: i < k < |nodes| ==> !nodes[k].Prompt?
    ensures LatestPrompt(nodes) == i
  {
  }

  lemma TrimmedCalls(nodes: seq<Node>, n: nat, notice: string, inner: seq<Node>)
    requires n <= |nodes|
    ensures CallTotal(Trimmed(nodes, n, notice, inner)) == CallTotal(nodes[n..])
  {
    TailSplit(nodes, n, |nodes|, [Housekeeping(inner)]);
    assert Trimmed(nodes, n, notice, inner)[1..] == (nodes + [Housekeeping(inner)])[n..];
  }

  /** The exchange itself is never sent and costs nothing. */
  lemma {:induction false} TrimmedCost(nodes: seq<Node>, n: nat, notice: string, inner: seq<Node>, v: Flags)
    requires n <= |nodes|
    ensures TotalCost(Trimmed(nodes, n, notice, inner), v) == EstimateTokens(notice) + TotalCost(nodes[n..], v)
  {
    var marked := [Archive(n, notice)] + nodes[n..];
    assert Trimmed(nodes, n, notice, inner)[..|marked|] == marked;
    CostAfterMarker(Archive(n, notice), nodes[n..], v);
  }

  lemma {:induction false} CostAfterMarker(first: Node, rest: seq<Node>, v: Flags)
    ensures TotalCost([first] + rest, v) == NodeCost(first, v) + TotalCost(rest, v)
  {
    if rest != [] {
      assert ([first] + rest)[..|rest|] == [first] + rest[..|rest| - 1];
      CostAfterMarker(first, rest[..|rest| - 1], v);
    }
  }

  /** The same decisions, for nodes that stand one place earlier. */
  function Earlier(plan: RenderPlan): RenderPlan {
    plan.(collapsedTurns := set i | i in plan.collapsedTurns && i >= 1 :: i - 1)
  }

  /** What the trimmed history sends: the notice, and the kept nodes as they would be sent alone. */
  lemma {:induction false} TrimmedSends(nodes: seq<Node>, n: nat, i: nat, notice: string, inner: seq<Node>, v: Flags,
                                        plan: RenderPlan, folded: set<string>, foldedNote: ToolCallNode -> string)
    requires n <= |nodes| && 1 <= i <= 1 + |nodes| - n
    ensures Rendered(Trimmed(nodes, n, notice, inner), i, v, plan, folded, foldedNote) ==
      [User(notice)] + Rendered(nodes[n..], i - 1, v, Earlier(plan), folded, foldedNote)
    decreases i
  {
    hide *;
    var after := Trimmed(nodes, n, notice, inner);
    TrimmedAt(nodes, n, notice, inner, i - 1);
    OneMoreRendered(after, i, v, plan, folded, foldedNote);
    if i == 1 {
      NothingRendered(after, v, plan, folded, foldedNote);
      NothingRendered(nodes[n..], v, Earlier(plan), folded, foldedNote);
      MarkerSent(n, notice, inner, v, plan, folded, foldedNote);
    } else {
      TrimmedSends(nodes, n, i - 1, notice, inner, v, plan, folded, foldedNote);
      OneMoreRendered(nodes[n..], i - 1, v, Earlier(plan), folded, foldedNote);
      SentAlike(nodes[n..][i - 2], i - 2, v, plan, folded, foldedNote);
      Regroup([User(notice)], Rendered(nodes[n..], i - 2, v, Earlier(plan), folded, foldedNote),
              PlannedNode(nodes[n..][i - 2], i - 2, v, Earlier(plan), folded, foldedNote));
    }
  }

  lemma Regroup(a: seq<Message>, b: seq<Message>, c: seq<Message>)
    ensures (a + b) + c == a + (b + c)
  {
  }

  lemma TrimmedAt(nodes: seq<Node>, n: nat, notice: string, inner: seq<Node>, k: nat)
    requires n <= |nodes| && k < 2 + |nodes| - n
    ensures var after := Trimmed(nodes, n, notice, inner);
      && |after| == 2 + |nodes| - n
      && after[k] == if k == 0 then Archive(n, notice) else if k == |after| - 1 then Housekeeping(inner) else nodes[n..][k - 1]
  {
  }

  lemma MarkerSent(n: nat, notice: string, inner: seq<Node>, v: Flags, plan: RenderPlan, folded: set<string>,
                   foldedNote: ToolCallNode -> string)
    ensures PlannedNode(Archive(n, notice), 0, v, plan, folded, foldedNote) == [User(notice)]
    ensures forall i: nat :: PlannedNode(Housekeeping(inner), i, v, plan, folded, foldedNote) == []
  {
  }

  /** A node is sent the same one place earlier, when the plan moves along. */
  lemma SentAlike(node: Node, i: nat, v: Flags, plan: RenderPlan, folded: set<string>, foldedNote: ToolCallNode -> string)
    ensures PlannedNode(node, i + 1, v, plan, folded, foldedNote) == PlannedNode(node, i, v, Earlier(plan), folded, foldedNote)
  {
    assert i + 1 in plan.collapsedTurns <==> i in Earlier(plan).collapsedTurns by {
      if i + 1 in plan.collapsedTurns { assert (i + 1) - 1 in Earlier(plan).collapsedTurns; }
    }
    if node.Turn? {
      var t, earlier := node.turn, Earlier(plan);
      assert forall x :: Touched(x, plan, folded) <==> Touched(x, earlier, folded);
      assert PlannedCalls(t.tools, v, plan) == PlannedCalls(t.tools, v, earlier);
      assert PlannedResults(t.tools, v, plan, folded, foldedNote) == PlannedResults(t.tools, v, earlier, folded, foldedNote);
      hide PlannedCalls, PlannedResults, StoredTurn, AdvisoriesText, WithAdvisories, Touched;
    }
  }

  /** Under every plan the exchange itself is not sent: the notice, then the kept nodes. */
  lemma HousekeepingSendsNothing(nodes: seq<Node>, n: nat, notice: string, inner: seq<Node>, v: Flags, plan: RenderPlan,
                                 folded: set<string>, foldedNote: ToolCallNode -> string)
    requires n <= |nodes|
    ensures var after := Trimmed(nodes, n, notice, inner);
      Rendered(after, |after|, v, plan, folded, foldedNote) ==
        [User(notice)] + Rendered(nodes[n..], |nodes| - n, v, Earlier(plan), folded, foldedNote)
  {
    hide *;
    var after := Trimmed(nodes, n, notice, inner);
    TrimmedAt(nodes, n, notice, inner, 1 + |nodes| - n);
    MarkerSent(n, notice, inner, v, plan, folded, foldedNote);
    TrimmedSends(nodes, n, |after| - 1, notice, inner, v, plan, folded, foldedNote);
    OneMoreRendered(after, |after|, v, plan, folded, foldedNote);
  }
}
