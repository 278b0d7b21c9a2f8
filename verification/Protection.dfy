// Which nodes compaction must leave alone.
module Protection {
  import opened History

  const DEFAULT_PROTECTED_TAIL_NODES: int := 4
  const DEFAULT_PROTECTED_TAIL_TOOL_CALLS: int := 6

  function CallCount(n: Node): nat {
    if n.Turn? then |n.turn.tools| else 0
  }

  function CallTotal(nodes: seq<Node>): nat {
    if nodes == [] then 0 else CallCount(nodes[0]) + CallTotal(nodes[1..])
  }

  /** The position of the latest user prompt, or -1. */
  function LatestPrompt(nodes: seq<Node>): (i: int)
    ensures -1 <= i < |nodes|
    ensures i >= 0 ==> nodes[i].Prompt?
    ensures forall k :: i < k < |nodes| ==> !nodes[k].Prompt?
  {
    if nodes == [] then -1
    else if nodes[|nodes| - 1].Prompt? then |nodes| - 1
    else LatestPrompt(nodes[..|nodes| - 1])
  }

  /** A node is protected when it is in the tail, is the latest prompt, or holds one of the newest
      `tailToolCalls` tool calls: fewer than that many calls come after it. */
  predicate IsProtected(nodes: seq<Node>, i: nat, tailNodes: int, tailToolCalls: int)
    requires i < |nodes|
  {
    || i >= |nodes| - tailNodes
    || i == LatestPrompt(nodes)
    || (CallCount(nodes[i]) > 0 && CallTotal(nodes[i + 1..]) < tailToolCalls)
  }

  /** `protected` holds exactly the positions of the protected nodes. */
  ghost predicate ProtectedSet(protected: set<nat>, nodes: seq<Node>, tailNodes: int, tailToolCalls: int) {
    forall i: nat :: i in protected <==> i < |nodes| && IsProtected(nodes, i, tailNodes, tailToolCalls)
  }

  /** Positions first..n - 1. */
  method TailIndices(first: nat, n: nat) returns (r: set<nat>)
    ensures forall k: nat :: k in r <==> first <= k < n
  {
    r := {};
    var i := first;
    while i < n
      invariant first <= i && (i == first || i <= n)
      invariant forall k: nat :: k in r <==> first <= k < i
    {
      r := r + {i};
      i := i + 1;
    }
  }

  /** The backward search for the latest prompt. */
  method FindLatestPrompt(nodes: seq<Node>) returns (i: int)
    ensures i == LatestPrompt(nodes)
  {
    i := |nodes| - 1;
    while i >= 0
      invariant -1 <= i < |nodes|
      invariant forall k :: i < k < |nodes| ==> !nodes[k].Prompt?
    {
      if nodes[i].Prompt? {
        break;
      }
      i := i - 1;
    }
  }

  /** The turn at position k holds one of the newest tool calls. */
  predicate HoldsNewCall(nodes: seq<Node>, k: nat, tailToolCalls: int) {
    k < |nodes| && CallCount(nodes[k]) > 0 && CallTotal(nodes[k + 1..]) < tailToolCalls
  }

  /** The backward count of tool calls. */
  method NewestCallIndices(nodes: seq<Node>, tailToolCalls: int) returns (r: set<nat>)
    ensures forall k: nat :: k in r <==> HoldsNewCall(nodes, k, tailToolCalls)
  {
    r := {};
    var remaining := tailToolCalls;
    var i := |nodes| - 1;
    assert nodes[|nodes|..] == [];
    while i >= 0
      invariant -1 <= i < |nodes|
      invariant remaining == tailToolCalls - CallTotal(nodes[i + 1..])
      invariant forall k: nat :: k in r <==> i < k && HoldsNewCall(nodes, k, tailToolCalls)
    {
      if remaining <= 0 {
        break;
      }
      assert nodes[i..][1..] == nodes[i + 1..];
      if CallCount(nodes[i]) > 0 {
        r := r + {i};
        remaining := remaining - CallCount(nodes[i]);
      }
      i := i - 1;
    }
    forall k | 0 <= k <= i ensures !HoldsNewCall(nodes, k, tailToolCalls) {
      LaterCallsFewer(nodes, k + 1, i + 1);
    }
  }

  /** `_protected_indices` */
  method ProtectedIndices(nodes: seq<Node>, tailNodes: int, tailToolCalls: int) returns (r: set<nat>)
    ensures ProtectedSet(r, nodes, tailNodes, tailToolCalls)
  {
    var n := |nodes|;
    r := TailIndices(if n - tailNodes < 0 then 0 else n - tailNodes, n);
    var latest := FindLatestPrompt(nodes);
    if latest >= 0 {
      r := r + {latest};
    }
    var calls := NewestCallIndices(nodes, tailToolCalls);
    r := r + calls;
  }

  lemma {:induction false} LaterCallsFewer(nodes: seq<Node>, a: nat, b: nat)
    requires a <= b <= |nodes|
    ensures CallTotal(nodes[a..]) >= CallTotal(nodes[b..])
    decreases b - a
  {
    if a < b {
      assert nodes[a..][1..] == nodes[a + 1..];
      LaterCallsFewer(nodes, a + 1, b);
    }
  }

  // ----- what protection covers

  /** The tool calls of the protected nodes from position i on. */
  function ProtectedCalls(nodes: seq<Node>, protected: set<nat>, i: nat): nat
    requires i <= |nodes|
    decreases |nodes| - i
  {
    if i == |nodes| then 0
    else (if i in protected then CallCount(nodes[i]) else 0) + ProtectedCalls(nodes, protected, i + 1)
  }

  /** Protection covers at least the newest min(tail, all) tool calls, and no unprotected turn
      holds any of them. */
  lemma {:induction false} NewestCallsProtected(
      nodes: seq<Node>, protected: set<nat>, tailNodes: int, tailToolCalls: int, i: nat)
    requires i <= |nodes|
    requires ProtectedSet(protected, nodes, tailNodes, tailToolCalls)
    ensures ProtectedCalls(nodes, protected, i) >=
      if tailToolCalls < CallTotal(nodes[i..]) then tailToolCalls else CallTotal(nodes[i..])
    ensures forall k :: i <= k < |nodes| && k !in protected && CallCount(nodes[k]) > 0 ==>
      CallTotal(nodes[k + 1..]) >= tailToolCalls
    decreases |nodes| - i
  {
    if i < |nodes| {
      NewestCallsProtected(nodes, protected, tailNodes, tailToolCalls, i + 1);
      assert nodes[i..][1..] == nodes[i + 1..];
    } else {
      assert nodes[i..] == [];
    }
  }
}
