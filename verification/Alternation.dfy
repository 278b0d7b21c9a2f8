// When the roles of a transcript alternate.
module Alternation {
  import opened History
  import opened Transcript

  datatype Role = FromUser | FromAssistant | FromTool

  function RoleOf(m: Message): Role {
    match m
    case User(_) => FromUser
    case Assistant(_, _) => FromAssistant
    case ToolMessage(_, _, _) => FromTool
  }

  function Roles(messages: seq<Message>): (r: seq<Role>)
    ensures |r| == |messages|
  {
    seq(|messages|, k requires 0 <= k < |messages| => RoleOf(messages[k]))
  }

  /** No role follows itself, but for the results of one turn. */
  ghost predicate NoRepeat(roles: seq<Role>) {
    forall i, j :: 0 <= i < |roles| && j == i + 1 && j < |roles| && roles[i] == roles[j] ==> roles[i] == FromTool
  }

  ghost predicate Alternates(messages: seq<Message>) {
    NoRepeat(Roles(messages))
  }

  // ----- roles of nodes

  /** The turn at the index is sent with the results of its calls. */
  predicate SendsResults(t: TurnNode, index: nat, v: Flags, plan: RenderPlan) {
    t !in v.turns && index !in plan.collapsedTurns && t.tools != []
  }

  /** The roles a node is sent in; housekeeping sends nothing. */
  function NodeRoles(n: Node, index: nat, v: Flags, plan: RenderPlan): seq<Role> {
    match n
    case Prompt(_) => [FromUser]
    case Archive(_, _) => [FromUser]
    case Housekeeping(_) => []
    case Turn(t) =>
      [FromAssistant] + if SendsResults(t, index, v, plan) then seq(|t.tools|, _ => FromTool) else []
  }

  function HistoryRoles(nodes: seq<Node>, i: nat, v: Flags, plan: RenderPlan): seq<Role>
    requires i <= |nodes|
  {
    if i == 0 then [] else HistoryRoles(nodes, i - 1, v, plan) + NodeRoles(nodes[i - 1], i - 1, v, plan)
  }

  lemma RolesAppend(a: seq<Message>, b: seq<Message>)
    ensures Roles(a + b) == Roles(a) + Roles(b)
  {
  }

  lemma OneTurnRoles(content: string, calls: seq<ToolCall>, results: seq<Message>)
    requires forall k :: 0 <= k < |results| ==> results[k].ToolMessage?
    ensures Roles([Assistant(content, calls)] + results) == [FromAssistant] + seq(|results|, _ => FromTool)
  {
  }

  /** A turn is sent as an assistant, with its results behind it unless it is collapsed. */
  lemma TurnRoles(t: TurnNode, index: nat, v: Flags, plan: RenderPlan, folded: set<string>, foldedNote: ToolCallNode -> string)
    ensures Roles(PlannedTurn(t, index, v, plan, folded, foldedNote)) == NodeRoles(Turn(t), index, v, plan)
  {
    hide Roles, WithAdvisories, StoredCalls, StoredResults, PlannedCalls, PlannedResults, AdvisoriesText, Touched;
    OneTurnRoles(t.Summary(), [], []);
    assert [Assistant(t.Summary(), [])] + [] == [Assistant(t.Summary(), [])];
    var text := AdvisoriesText(t.advisories, v);
    OneTurnRoles(t.assistantContent, StoredCalls(t.tools, v), WithAdvisories(StoredResults(t.tools, v), text));
    OneTurnRoles(t.assistantContent, PlannedCalls(t.tools, v, plan),
                 WithAdvisories(PlannedResults(t.tools, v, plan, folded, foldedNote), text));
    assert seq(0, _ => FromTool) == [];
  }

  lemma NodeSentRoles(n: Node, index: nat, v: Flags, plan: RenderPlan, folded: set<string>, foldedNote: ToolCallNode -> string)
    ensures Roles(PlannedNode(n, index, v, plan, folded, foldedNote)) == NodeRoles(n, index, v, plan)
  {
    if n.Turn? {
      TurnRoles(n.turn, index, v, plan, folded, foldedNote);
    }
  }

  /** The roles sent are those of the nodes, whatever is replaced, folded or detail-collapsed. */
  lemma {:induction false} RenderedRoles(nodes: seq<Node>, i: nat, v: Flags, plan: RenderPlan, folded: set<string>,
                                         foldedNote: ToolCallNode -> string)
    requires i <= |nodes|
    ensures Roles(Rendered(nodes, i, v, plan, folded, foldedNote)) == HistoryRoles(nodes, i, v, plan)
  {
    hide *;
    if i == 0 {
      NothingRendered(nodes, v, plan, folded, foldedNote);
      NoRoles(nodes, v, plan);
    } else {
      RenderedRoles(nodes, i - 1, v, plan, folded, foldedNote);
      OneMoreRendered(nodes, i, v, plan, folded, foldedNote);
      OneMoreRoles(nodes, i, v, plan);
      NodeSentRoles(nodes[i - 1], i - 1, v, plan, folded, foldedNote);
      RolesAppend(Rendered(nodes, i - 1, v, plan, folded, foldedNote),
                  PlannedNode(nodes[i - 1], i - 1, v, plan, folded, foldedNote));
    }
  }

  lemma NoRoles(nodes: seq<Node>, v: Flags, plan: RenderPlan)
    ensures Roles([]) == [] && HistoryRoles(nodes, 0, v, plan) == []
  {
  }

  lemma OneMoreRoles(nodes: seq<Node>, i: nat, v: Flags, plan: RenderPlan)
    requires 0 < i <= |nodes|
    ensures HistoryRoles(nodes, i, v, plan) == HistoryRoles(nodes, i - 1, v, plan) + NodeRoles(nodes[i - 1], i - 1, v, plan)
  {
  }

  // ----- the exact condition

  predicate Speaks(n: Node) {
    !n.Housekeeping?
  }

  /** One node is followed by the next: nothing but housekeeping stands between them. */
  ghost predicate Meet(nodes: seq<Node>, i: nat, j: nat) {
    i < j < |nodes| && Speaks(nodes[i]) && Speaks(nodes[j]) && forall k :: i < k < j ==> !Speaks(nodes[k])
  }

  /** Meeting, the nodes repeat a role: two that speak for the user, or a turn behind one sent without results. */
  ghost predicate Clash(nodes: seq<Node>, i: nat, j: nat, v: Flags, plan: RenderPlan) {
    && Meet(nodes, i, j)
    && (nodes[i].Turn? <==> nodes[j].Turn?)
    && (nodes[i].Turn? ==> !SendsResults(nodes[i].turn, i, v, plan))
  }

  ghost predicate NoneClash(nodes: seq<Node>, upTo: nat, v: Flags, plan: RenderPlan) {
    forall i: nat, j: nat :: j < upTo ==> !Clash(nodes, i, j, v, plan)
  }

  /** The last node that speaks, if any, is a prompt or an archive marker. */
  ghost predicate EndsWithUser(nodes: seq<Node>) {
    exists i :: 0 <= i < |nodes| && Speaks(nodes[i]) && !nodes[i].Turn? && forall k :: i < k < |nodes| ==> !Speaks(nodes[k])
  }

  /** The last speaker among the first i nodes, or -1. */
  function LastSpeaker(nodes: seq<Node>, i: nat): (r: int)
    requires i <= |nodes|
    ensures -1 <= r < i
    ensures r >= 0 ==> Speaks(nodes[r])
    ensures forall k :: r < k < i ==> !Speaks(nodes[k])
  {
    if i == 0 then -1 else if Speaks(nodes[i - 1]) then i - 1 else LastSpeaker(nodes, i - 1)
  }

  /** The role a node's first message is sent in. */
  function FirstRole(n: Node): Role {
    if n.Turn? then FromAssistant else FromUser
  }

  /** The role a node's last message is sent in. */
  function LastRole(n: Node, index: nat, v: Flags, plan: RenderPlan): Role {
    if !n.Turn? then FromUser else if SendsResults(n.turn, index, v, plan) then FromTool else FromAssistant
  }

  lemma {:induction false} HistoryRolesEnd(nodes: seq<Node>, i: nat, v: Flags, plan: RenderPlan)
    requires i <= |nodes|
    ensures var r, s := LastSpeaker(nodes, i), HistoryRoles(nodes, i, v, plan);
      if r < 0 then s == [] else s != [] && s[|s| - 1] == LastRole(nodes[r], r, v, plan)
  {
    hide *;
    if i == 0 {
      NoRoles(nodes, v, plan);
    } else {
      HistoryRolesEnd(nodes, i - 1, v, plan);
      OneMoreRoles(nodes, i, v, plan);
      NodeRolesEnd(nodes[i - 1], i - 1, v, plan);
    }
    LastSpeakerMeans(nodes, i);
  }

  lemma NodeRolesEnd(n: Node, index: nat, v: Flags, plan: RenderPlan)
    ensures var own := NodeRoles(n, index, v, plan);
      if Speaks(n) then own != [] && own[|own| - 1] == LastRole(n, index, v, plan) else own == []
  {
  }

  lemma LastSpeakerMeans(nodes: seq<Node>, i: nat)
    requires i <= |nodes|
    ensures LastSpeaker(nodes, i) ==
      if i == 0 then -1 else if Speaks(nodes[i - 1]) then i - 1 else LastSpeaker(nodes, i - 1)
  {
  }

  lemma NodeRolesFine(n: Node, index: nat, v: Flags, plan: RenderPlan)
    ensures NoRepeat(NodeRoles(n, index, v, plan))
    ensures if Speaks(n) then NodeRoles(n, index, v, plan) != [] && NodeRoles(n, index, v, plan)[0] == FirstRole(n)
      else NodeRoles(n, index, v, plan) == []
  {
  }

  lemma NoRepeatAppend(a: seq<Role>, b: seq<Role>)
    requires b != [] && NoRepeat(b) && b[0] != FromTool
    ensures NoRepeat(a + b) <==> NoRepeat(a) && (a != [] ==> a[|a| - 1] != b[0])
  {
    var all := a + b;
    assert forall i :: 0 <= i < |a| ==> all[i] == a[i];
    assert forall i :: 0 <= i < |b| ==> all[|a| + i] == b[i];
    if a != [] {
      assert all[|a| - 1] == a[|a| - 1] && all[|a|] == b[0];
    }
    if NoRepeat(a) && (a != [] ==> a[|a| - 1] != b[0]) {
      forall i, j | 0 <= i < |all| && j == i + 1 && j < |all| && all[i] == all[j] ensures all[i] == FromTool {
        if i >= |a| {
          assert b[i - |a|] == b[j - |a|];
        }
      }
    }
  }

  lemma ClashAtLast(nodes: seq<Node>, i: nat, v: Flags, plan: RenderPlan)
    requires 0 < i <= |nodes|
    ensures var r, n := LastSpeaker(nodes, i - 1), nodes[i - 1];
      NoneClash(nodes, i, v, plan) <==>
        && NoneClash(nodes, i - 1, v, plan)
        && !(Speaks(n) && r >= 0 && LastRole(nodes[r], r, v, plan) == FirstRole(n))
  {
    var r, last := LastSpeaker(nodes, i - 1), i - 1;
    forall k: nat | Meet(nodes, k, last) ensures r == k {
    }
    if Speaks(nodes[last]) && r >= 0 {
      assert Meet(nodes, r, last);
      assert Clash(nodes, r, last, v, plan) <==>
        LastRole(nodes[r], r, v, plan) == FirstRole(nodes[last]);
    }
  }

  /** Roles repeat exactly where nodes clash. */
  lemma {:induction false} RepeatIsClash(nodes: seq<Node>, i: nat, v: Flags, plan: RenderPlan)
    requires i <= |nodes|
    ensures NoRepeat(HistoryRoles(nodes, i, v, plan)) <==> NoneClash(nodes, i, v, plan)
  {
    hide *;
    if i == 0 {
      NoRoles(nodes, v, plan);
      NothingClashes(nodes, v, plan);
    } else {
      RepeatIsClash(nodes, i - 1, v, plan);
      HistoryRolesEnd(nodes, i - 1, v, plan);
      ClashAtLast(nodes, i, v, plan);
      OneMoreRoles(nodes, i, v, plan);
      NodeRolesFine(nodes[i - 1], i - 1, v, plan);
      var before, own := HistoryRoles(nodes, i - 1, v, plan), NodeRoles(nodes[i - 1], i - 1, v, plan);
      if Speaks(nodes[i - 1]) {
        FirstIsNoTool(nodes[i - 1]);
        NoRepeatAppend(before, own);
      } else {
        assert before + [] == before;
      }
    }
  }

  lemma NothingClashes(nodes: seq<Node>, v: Flags, plan: RenderPlan)
    ensures NoRepeat([]) && NoneClash(nodes, 0, v, plan)
  {
  }

  lemma FirstIsNoTool(n: Node)
    ensures FirstRole(n) != FromTool
  {
  }

  /** A request's roles alternate if and only if no two nodes that speak for the user meet, no turn sent
      without results meets a turn, and no file context follows a node that speaks for the user. */
  lemma AlternatesIff(nodes: seq<Node>, v: Flags, plan: RenderPlan, folded: set<string>, foldedNote: ToolCallNode -> string,
                      context: string)
    ensures Alternates(WithContext(Rendered(nodes, |nodes|, v, plan, folded, foldedNote), context)) <==>
      NoneClash(nodes, |nodes|, v, plan) && !(context != "" && EndsWithUser(nodes))
  {
    var messages := Rendered(nodes, |nodes|, v, plan, folded, foldedNote);
    RenderedRoles(nodes, |nodes|, v, plan, folded, foldedNote);
    RepeatIsClash(nodes, |nodes|, v, plan);
    HistoryRolesEnd(nodes, |nodes|, v, plan);
    EndsWithLast(nodes);
    RolesAppend(messages, [User(context)]);
    assert Roles([User(context)]) == [FromUser];
    NoRepeatAppend(HistoryRoles(nodes, |nodes|, v, plan), [FromUser]);
    hide Rendered, HistoryRoles, NoneClash, EndsWithUser, Roles;
  }

  lemma EndsWithLast(nodes: seq<Node>)
    ensures var r := LastSpeaker(nodes, |nodes|);
      EndsWithUser(nodes) <==> r >= 0 && !nodes[r].Turn?
  {
  }

  // ----- inputs

  /** An ordinary tool loop alternates: a prompt, turns with calls, a prompt. */
  lemma ToolLoopAlternates(p: UserPromptNode, t: TurnNode, u: TurnNode, q: UserPromptNode, v: Flags, plan: RenderPlan,
                           folded: set<string>, foldedNote: ToolCallNode -> string)
    requires SendsResults(t, 1, v, plan)
    ensures Alternates(Rendered([Prompt(p), Turn(t), Turn(u), Prompt(q)], 4, v, plan, folded, foldedNote))
  {
    var nodes := [Prompt(p), Turn(t), Turn(u), Prompt(q)];
    AlternatesIff(nodes, v, plan, folded, foldedNote, "");
    hide Rendered, Alternates;
    forall i: nat, j: nat | i < j < |nodes| && Meet(nodes, i, j) ensures j <= i + 1 {
      assert Speaks(nodes[i + 1]);
    }
  }

  /** The failing cases occur: two prompts in a row; a turn, collapsed or without calls, before a turn; and
      a tool loop that alternates until the file context of its folded results follows the prompt. */
  lemma RolesRepeat(p: UserPromptNode, t: TurnNode, u: TurnNode, q: UserPromptNode, v: Flags, plan: RenderPlan,
                    foldedNote: ToolCallNode -> string)
    ensures !Alternates(Rendered([Prompt(p), Prompt(q)], 2, v, plan, {}, foldedNote))
    ensures t in v.turns || 0 in plan.collapsedTurns || t.tools == [] ==>
      !Alternates(Rendered([Turn(t), Turn(u)], 2, v, plan, {}, foldedNote))
    ensures SendsResults(t, 1, v, plan) ==>
      var messages := Rendered([Prompt(p), Turn(t), Turn(u), Prompt(q)], 4, v, plan, {t.tools[0].toolCall.callId}, foldedNote);
      Alternates(messages) && forall context :: context != "" ==> !Alternates(WithContext(messages, context))
  {
    var prompts, turns, loop := [Prompt(p), Prompt(q)], [Turn(t), Turn(u)], [Prompt(p), Turn(t), Turn(u), Prompt(q)];
    AlternatesIff(prompts, v, plan, {}, foldedNote, "");
    AlternatesIff(turns, v, plan, {}, foldedNote, "");
    assert Meet(prompts, 0, 1) && Meet(turns, 0, 1);
    hide Rendered, Alternates;
    assert Clash(prompts, 0, 1, v, plan);
    assert !SendsResults(t, 0, v, plan) ==> Clash(turns, 0, 1, v, plan);
    if SendsResults(t, 1, v, plan) {
      var folded := {t.tools[0].toolCall.callId};
      ToolLoopAlternates(p, t, u, q, v, plan, folded, foldedNote);
      assert Speaks(loop[3]) && !loop[3].Turn?;
      forall context | context != "" ensures !Alternates(WithContext(Rendered(loop, 4, v, plan, folded, foldedNote), context)) {
        AlternatesIff(loop, v, plan, folded, foldedNote, context);
      }
    }
  }
}
