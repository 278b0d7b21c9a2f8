// Indentation-based hierarchies: a depth for every line, then the nesting tree of the depths.
module Indentation {
  import opened Content
  import opened Integers
  import opened Optional

  // ----- depths

  /** `line.expandtabs(tabWidth)`, from a given column. */
  function ExpandTabs(line: string, tabWidth: nat, column: nat): string {
    if line == "" then ""
    else if line[0] == '\t' then
      var gap := if tabWidth == 0 then 0 else tabWidth - column % tabWidth;
      seq(gap, _ => ' ') + ExpandTabs(line[1..], tabWidth, column + gap)
    else if line[0] == '\n' || line[0] == '\r' then
      [line[0]] + ExpandTabs(line[1..], tabWidth, 0)
    else
      [line[0]] + ExpandTabs(line[1..], tabWidth, column + 1)
  }

  function LeadingSpaces(s: string): nat {
    if s != "" && s[0] == ' ' then 1 + LeadingSpaces(s[1..]) else 0
  }

  /** The indentation of a line, or None when it holds nothing but spaces and tabs. */
  function Indent(line: string, tabWidth: nat): Option<int> {
    var expanded := ExpandTabs(line, tabWidth, 0);
    var spaces := LeadingSpaces(expanded);
    if spaces < |expanded| then Some(spaces) else None
  }

  // ----- what the indentation is

  predicate IsIndent(c: char) {
    c == ' ' || c == '\t'
  }

  /** The column after the first k characters: a tab goes to the next stop, anything else one column on. */
  function Column(line: string, tabWidth: nat, k: nat): nat
    requires k <= |line|
  {
    if k == 0 then 0
    else
      ColumnAfter(Column(line, tabWidth, k - 1), line[k - 1], tabWidth)
  }

  function ColumnAfter(column: nat, c: char, tabWidth: nat): nat {
    if c != '\t' then column + 1 else if tabWidth == 0 then column else (column / tabWidth + 1) * tabWidth
  }

  lemma NextStop(column: nat, tabWidth: nat)
    requires tabWidth > 0
    ensures column + (tabWidth - column % tabWidth) == (column / tabWidth + 1) * tabWidth
  {
    assert column == column / tabWidth * tabWidth + column % tabWidth;
  }

  lemma {:induction false} SpacesThen(n: nat, rest: string)
    ensures LeadingSpaces(seq(n, _ => ' ') + rest) == n + LeadingSpaces(rest)
    decreases n
  {
    var s := seq(n, _ => ' ') + rest;
    if n == 0 {
      assert s == rest;
    } else {
      assert s[1..] == seq(n - 1, _ => ' ') + rest;
      SpacesThen(n - 1, rest);
    }
  }

  /** One space or tab is expanded to the next column. */
  lemma OneExpanded(s: string, tabWidth: nat, column: nat)
    requires s != "" && IsIndent(s[0])
    ensures var next, expanded := ColumnAfter(column, s[0], tabWidth), ExpandTabs(s, tabWidth, column);
      var rest := ExpandTabs(s[1..], tabWidth, next);
      && next >= column
      && LeadingSpaces(expanded) == next - column + LeadingSpaces(rest) && |expanded| == next - column + |rest|
  {
    var next := ColumnAfter(column, s[0], tabWidth);
    if s[0] == '\t' {
      TabExpands(s, tabWidth, column);
      hide ColumnAfter, ExpandTabs;
      SpacesThen(next - column, ExpandTabs(s[1..], tabWidth, next));
    }
  }

  lemma TabExpands(s: string, tabWidth: nat, column: nat)
    requires s != "" && s[0] == '\t'
    ensures var next := ColumnAfter(column, '\t', tabWidth);
      next >= column && ExpandTabs(s, tabWidth, column) == seq(next - column, _ => ' ') + ExpandTabs(s[1..], tabWidth, next)
  {
    if tabWidth > 0 { NextStop(column, tabWidth); }
  }

  /** Past its first i characters, all spaces and tabs, the line is expanded from their column. */
  lemma {:induction false} ExpandedFrom(line: string, tabWidth: nat, i: nat)
    requires i <= |line| && forall j :: 0 <= j < i ==> IsIndent(line[j])
    ensures var rest := ExpandTabs(line[i..], tabWidth, Column(line, tabWidth, i));
      && LeadingSpaces(ExpandTabs(line, tabWidth, 0)) == Column(line, tabWidth, i) + LeadingSpaces(rest)
      && |ExpandTabs(line, tabWidth, 0)| == Column(line, tabWidth, i) + |rest|
  {
    if i == 0 {
      assert line[0..] == line;
    } else {
      ExpandedFrom(line, tabWidth, i - 1);
      assert line[i - 1..][1..] == line[i..];
      OneExpanded(line[i - 1..], tabWidth, Column(line, tabWidth, i - 1));
      hide ExpandTabs, LeadingSpaces, ColumnAfter;
    }
  }

  /** A line of spaces and tabs alone has no indentation; any other has that of its first character that is
      neither: the column it stands in. */
  lemma IndentIsColumn(line: string, tabWidth: nat, k: nat)
    requires k <= |line| && (forall j :: 0 <= j < k ==> IsIndent(line[j])) && (k < |line| ==> !IsIndent(line[k]))
    ensures Indent(line, tabWidth) == if k == |line| then None else Some(Column(line, tabWidth, k))
  {
    ExpandedFrom(line, tabWidth, k);
    assert line[k..] != "" ==> line[k..][0] == line[k];
  }

  predicate Blank(raw: seq<Option<int>>, lo: int, hi: int) {
    forall k :: lo <= k < hi && 0 <= k < |raw| ==> raw[k].None?
  }

  /** `d` is the depth line `i` should get: its own indentation, or for a blank line the lesser
      indentation of its nearest nonblank neighbours, the only neighbour's, or 0. */
  ghost predicate IsDepthOf(raw: seq<Option<int>>, i: nat, d: int)
    requires i < |raw|
  {
    && (raw[i].Some? ==> d == raw[i].value)
    && (forall p, n :: 0 <= p < i < n < |raw| && raw[p].Some? && raw[n].Some? && Blank(raw, p + 1, n)
          ==> d == Min(raw[p].value, raw[n].value))
    && (forall p :: 0 <= p < i && raw[p].Some? && Blank(raw, p + 1, |raw|) ==> d == raw[p].value)
    && (forall n :: i < n < |raw| && raw[n].Some? && Blank(raw, 0, n) ==> d == raw[n].value)
    && (Blank(raw, 0, |raw|) ==> d == 0)
  }

  function Previous(raw: seq<Option<int>>, i: nat): Option<int>
    requires i < |raw|
  {
    if raw[i].Some? then raw[i] else if i == 0 then None else Previous(raw, i - 1)
  }

  function Next(raw: seq<Option<int>>, i: nat): Option<int>
    requires i < |raw|
    decreases |raw| - i
  {
    if raw[i].Some? then raw[i] else if i + 1 == |raw| then None else Next(raw, i + 1)
  }

  lemma {:induction false} PreviousIs(raw: seq<Option<int>>, i: nat, p: nat)
    requires p <= i < |raw| && raw[p].Some? && Blank(raw, p + 1, i + 1)
    ensures Previous(raw, i) == raw[p]
  {
    if p < i { PreviousIs(raw, i - 1, p); }
  }

  lemma {:induction false} NoPrevious(raw: seq<Option<int>>, i: nat)
    requires i < |raw| && Blank(raw, 0, i + 1)
    ensures Previous(raw, i) == None
  {
    if i > 0 { NoPrevious(raw, i - 1); }
  }

  lemma {:induction false} NextIs(raw: seq<Option<int>>, i: nat, n: nat)
    requires i <= n < |raw| && raw[n].Some? && Blank(raw, i, n)
    ensures Next(raw, i) == raw[n]
    decreases n - i
  {
    if i < n { NextIs(raw, i + 1, n); }
  }

  lemma {:induction false} NoNext(raw: seq<Option<int>>, i: nat)
    requires i < |raw| && Blank(raw, i, |raw|)
    ensures Next(raw, i) == None
    decreases |raw| - i
  {
    if i + 1 < |raw| { NoNext(raw, i + 1); }
  }

  function DepthFrom(previous: Option<int>, next: Option<int>): int {
    match (previous, next)
    case (Some(p), Some(n)) => Min(p, n)
    case (Some(p), None) => p
    case (None, Some(n)) => n
    case (None, None) => 0
  }

  lemma NearestNeighboursDecide(raw: seq<Option<int>>, i: nat)
    requires i < |raw|
    ensures IsDepthOf(raw, i, if raw[i].Some? then raw[i].value else DepthFrom(Previous(raw, i), Next(raw, i)))
  {
    if raw[i].None? {
      var d := DepthFrom(Previous(raw, i), Next(raw, i));
      forall p, n | 0 <= p < i < n < |raw| && raw[p].Some? && raw[n].Some? && Blank(raw, p + 1, n)
        ensures d == Min(raw[p].value, raw[n].value)
      {
        PreviousIs(raw, i, p);
        NextIs(raw, i, n);
      }
      forall p | 0 <= p < i && raw[p].Some? && Blank(raw, p + 1, |raw|) ensures d == raw[p].value {
        PreviousIs(raw, i, p);
        NoNext(raw, i);
      }
      forall n | i < n < |raw| && raw[n].Some? && Blank(raw, 0, n) ensures d == raw[n].value {
        NoPrevious(raw, i);
        NextIs(raw, i, n);
      }
      if Blank(raw, 0, |raw|) {
        NoPrevious(raw, i);
        NoNext(raw, i);
      }
    }
  }

  method PreviousNonblank(raw: seq<Option<int>>) returns (previous: seq<Option<int>>)
    ensures |previous| == |raw|
    ensures forall k :: 0 <= k < |raw| ==> previous[k] == Previous(raw, k)
  {
    previous := [];
    var last: Option<int> := None;
    for i := 0 to |raw|
      invariant |previous| == i
      invariant last == if i == 0 then None else Previous(raw, i - 1)
      invariant forall k :: 0 <= k < i ==> previous[k] == Previous(raw, k)
    {
      if raw[i].Some? { last := raw[i]; }
      previous := previous + [last];
    }
  }

  method NextNonblank(raw: seq<Option<int>>) returns (next: seq<Option<int>>)
    ensures |next| == |raw|
    ensures forall k :: 0 <= k < |raw| ==> next[k] == Next(raw, k)
  {
    next := [];
    var last: Option<int> := None;
    for i := |raw| downto 0
      invariant |next| == |raw| - i
      invariant last == if i == |raw| then None else Next(raw, i)
      invariant forall k :: i <= k < |raw| ==> next[k - i] == Next(raw, k)
    {
      if raw[i].Some? { last := raw[i]; }
      next := [last] + next;
    }
  }

  method ComputeDepths(lines: seq<string>, tabWidth: nat) returns (depths: seq<int>)
    ensures |depths| == |lines|
    ensures var raw := seq(|lines|, k requires 0 <= k < |lines| => Indent(lines[k], tabWidth));
      forall i :: 0 <= i < |lines| ==> IsDepthOf(raw, i, depths[i])
  {
    var raw: seq<Option<int>> := [];
    for i := 0 to |lines|
      invariant |raw| == i
      invariant forall k :: 0 <= k < i ==> raw[k] == Indent(lines[k], tabWidth)
    {
      raw := raw + [Indent(lines[i], tabWidth)];
    }

    var previous := PreviousNonblank(raw);
    var next := NextNonblank(raw);

    depths := [];
    for i := 0 to |lines|
      invariant |depths| == i
      invariant forall k :: 0 <= k < i ==> IsDepthOf(raw, k, depths[k])
    {
      NearestNeighboursDecide(raw, i);
      if raw[i].Some? {
        depths := depths + [raw[i].value];
      } else if previous[i].Some? && next[i].Some? {
        depths := depths + [Min(previous[i].value, next[i].value)];
      } else if previous[i].Some? {
        depths := depths + [previous[i].value];
      } else if next[i].Some? {
        depths := depths + [next[i].value];
      } else {
        depths := depths + [0];
      }
    }
    assert raw == seq(|lines|, k requires 0 <= k < |lines| => Indent(lines[k], tabWidth));
  }

  // ----- the nesting tree

  ghost predicate IsMinimum(depths: seq<int>, lo: int, hi: int, m: int)
    requires 0 <= lo <= hi < |depths|
  {
    && (forall k :: lo <= k <= hi ==> m <= depths[k])
    && (exists k :: lo <= k <= hi && m == depths[k])
  }

  /** `node` is the nesting tree of the lines it spans: its depth is their minimum, and its
      children are exactly the maximal runs of deeper lines, in order. */
  ghost predicate IsHierarchy(node: ContentNode, depths: seq<int>)
    decreases node, 1
  {
    && 1 <= node.start <= node.end <= |depths|
    && IsMinimum(depths, node.start - 1, node.end - 1, node.depth)
    && ChildrenAreRuns(node.children, depths, node.start - 1, node.end - 1, node.depth)
  }

  ghost predicate ChildrenAreRuns(children: seq<ContentNode>, depths: seq<int>, lo: int, hi: int, depth: int)
    requires 0 <= lo && hi < |depths|
    decreases children, 0
  {
    if children == [] then Own(depths, lo, hi, depth)
    else
      var c := children[0];
      && lo < c.start <= c.end <= hi + 1
      && Own(depths, lo, c.start - 2, depth)
      && Deeper(depths, c.start - 1, c.end - 1, depth)
      && (c.end <= hi ==> depths[c.end] <= depth)
      && IsHierarchy(c, depths)
      && ChildrenAreRuns(children[1..], depths, c.end, hi, depth)
  }

  predicate Own(depths: seq<int>, lo: int, hi: int, depth: int)
    requires 0 <= lo && hi < |depths|
  {
    forall k :: lo <= k <= hi ==> depths[k] <= depth
  }

  predicate Deeper(depths: seq<int>, lo: int, hi: int, depth: int)
    requires 0 <= lo && hi < |depths|
  {
    forall k :: lo <= k <= hi ==> depths[k] > depth
  }

  /** Taking one more line into the range, as an own line. */
  lemma {:induction false} ExtendOwn(children: seq<ContentNode>, depths: seq<int>, lo: int, hi: int, depth: int)
    requires 0 <= lo <= hi + 1 < |depths|
    requires ChildrenAreRuns(children, depths, lo, hi, depth) && depths[hi + 1] <= depth
    ensures ChildrenAreRuns(children, depths, lo, hi + 1, depth)
  {
    if children != [] {
      var c := children[0];
      ExtendOwn(children[1..], depths, c.end, hi, depth);
    }
  }

  /** Taking one more maximal run into the range, as a last child. */
  lemma {:induction false} ExtendRun(children: seq<ContentNode>, depths: seq<int>, lo: int, hi: int, depth: int, c: ContentNode)
    requires 0 <= lo <= hi + 1 < |depths|
    requires ChildrenAreRuns(children, depths, lo, hi, depth)
    requires children != [] ==> children[|children| - 1].end <= hi
    requires IsHierarchy(c, depths) && c.start == hi + 2 && Deeper(depths, hi + 1, c.end - 1, depth)
    ensures ChildrenAreRuns(children + [c], depths, lo, c.end - 1, depth)
  {
    if children == [] {
      assert [c][1..] == [];
      assert ChildrenAreRuns([c], depths, lo, c.end - 1, depth);
    } else {
      var first := children[0];
      assert (children + [c])[1..] == children[1..] + [c];
      if |children| > 1 {
        assert children[1..][|children| - 2] == children[|children| - 1];
        LastEnd(children[1..], depths, first.end, hi, depth);
      }
      ExtendRun(children[1..], depths, first.end, hi, depth, c);
    }
  }

  lemma {:induction false} LastEnd(children: seq<ContentNode>, depths: seq<int>, lo: int, hi: int, depth: int)
    requires 0 <= lo && hi < |depths| && children != []
    requires ChildrenAreRuns(children, depths, lo, hi, depth)
    ensures lo < children[0].start && children[0].end <= children[|children| - 1].end <= hi + 1
  {
    if |children| > 1 {
      LastEnd(children[1..], depths, children[0].end, hi, depth);
    }
  }

  lemma RunsMakeHierarchy(node: ContentNode, depths: seq<int>)
    requires 1 <= node.start <= node.end <= |depths|
    requires IsMinimum(depths, node.start - 1, node.end - 1, node.depth)
    requires RunsUpTo(node.children, depths, node.start - 1, node.end, node.end - 1, node.depth)
    ensures IsHierarchy(node, depths)
  {
  }

  method BuildHierarchy(depths: seq<int>) returns (root: ContentNode)
    ensures depths == [] ==> root == ContentNode(1, 0, 0, [])
    ensures depths != [] ==> root.start == 1 && root.end == |depths| && IsHierarchy(root, depths)
  {
    if depths == [] {
      return ContentNode(1, 0, 0, []);
    }
    var minimum := depths[0];
    for i := 1 to |depths|
      invariant IsMinimum(depths, 0, i - 1, minimum)
    {
      if depths[i] < minimum { minimum := depths[i]; }
    }
    root := BuildNode(depths, 0, |depths| - 1, minimum);
  }

  /** The inner loop of `_build_node`: the maximal run of deeper lines from `start`, and its minimum. */
  method DeeperRun(depths: seq<int>, start: nat, end: nat, nodeDepth: int) returns (next: int, minimum: int)
    requires start <= end < |depths| && depths[start] > nodeDepth
    ensures start < next <= end + 1
    ensures Deeper(depths, start, next - 1, nodeDepth)
    ensures next <= end ==> depths[next] <= nodeDepth
    ensures IsMinimum(depths, start, next - 1, minimum)
  {
    next, minimum := start + 1, depths[start];
    while next <= end && depths[next] > nodeDepth
      invariant start < next <= end + 1
      invariant Deeper(depths, start, next - 1, nodeDepth)
      invariant IsMinimum(depths, start, next - 1, minimum)
    {
      minimum := Min(minimum, depths[next]);
      next := next + 1;
    }
  }

  lemma RunIsShorter(depths: seq<int>, start: int, end: int, depth: int, lo: int, hi: int)
    requires 0 <= start <= lo <= hi <= end < |depths|
    requires IsMinimum(depths, start, end, depth) && Deeper(depths, lo, hi, depth)
    ensures hi - lo < end - start
  {
  }

  /** The children found so far are the runs of lines start..i - 1, and none of them can grow. */
  ghost predicate RunsUpTo(children: seq<ContentNode>, depths: seq<int>, start: int, i: int, end: int, depth: int) {
    && 0 <= start <= i <= end + 1 <= |depths|
    && ChildrenAreRuns(children, depths, start, i - 1, depth)
    && (children != [] ==> children[|children| - 1].end <= i)
    && (children != [] && i <= end && children[|children| - 1].end == i ==> depths[i] <= depth)
  }

  lemma OwnLine(children: seq<ContentNode>, depths: seq<int>, start: int, i: int, end: int, depth: int)
    requires RunsUpTo(children, depths, start, i, end, depth) && i <= end && depths[i] <= depth
    ensures RunsUpTo(children, depths, start, i + 1, end, depth)
  {
    ExtendOwn(children, depths, start, i - 1, depth);
  }

  lemma RunOfLines(children: seq<ContentNode>, depths: seq<int>, start: int, i: int, end: int, depth: int, c: ContentNode)
    requires RunsUpTo(children, depths, start, i, end, depth) && i <= end && depths[i] > depth
    requires IsHierarchy(c, depths) && c.start == i + 1 && c.end <= end + 1 && Deeper(depths, i, c.end - 1, depth)
    requires c.end <= end ==> depths[c.end] <= depth
    ensures RunsUpTo(children + [c], depths, start, c.end, end, depth)
  {
    ExtendRun(children, depths, start, i - 1, depth, c);
  }

  method BuildNode(depths: seq<int>, start: nat, end: nat, nodeDepth: int) returns (node: ContentNode)
    requires start <= end < |depths| && IsMinimum(depths, start, end, nodeDepth)
    ensures node.start == start + 1 && node.end == end + 1 && node.depth == nodeDepth
    ensures IsHierarchy(node, depths)
    decreases end - start
  {
    var children: seq<ContentNode> := [];
    var i := start;
    assert RunsUpTo(children, depths, start, i, end, nodeDepth);
    hide *;
    while i <= end
      invariant start <= i <= end + 1
      invariant RunsUpTo(children, depths, start, i, end, nodeDepth)
    {
      if depths[i] > nodeDepth {
        var childStart := i;
        var childMin;
        i, childMin := DeeperRun(depths, childStart, end, nodeDepth);
        RunIsShorter(depths, start, end, nodeDepth, childStart, i - 1);
        var child := BuildNode(depths, childStart, i - 1, childMin);
        RunOfLines(children, depths, start, childStart, end, nodeDepth, child);
        children := children + [child];
      } else {
        OwnLine(children, depths, start, i, end, nodeDepth);
        i := i + 1;
      }
    }
    node := ContentNode(start + 1, end + 1, nodeDepth, children);
    RunsMakeHierarchy(node, depths);
  }

  // ----- what the tree promises

  lemma {:induction false} HierarchyIsWellFormed(node: ContentNode, depths: seq<int>)
    requires IsHierarchy(node, depths)
    ensures WellFormed(node)
    decreases node, 1
  {
    RunsAreWellFormed(node.children, depths, node.start - 1, node.end - 1, node.depth);
  }

  lemma {:induction false} RunsAreWellFormed(children: seq<ContentNode>, depths: seq<int>, lo: int, hi: int, depth: int)
    requires 0 <= lo && hi < |depths|
    requires ChildrenAreRuns(children, depths, lo, hi, depth)
    ensures WellFormedChildren(children, lo + 1, hi + 1, depth)
    decreases children, 0
  {
    if children != [] {
      HierarchyIsWellFormed(children[0], depths);
      RunsAreWellFormed(children[1..], depths, children[0].end, hi, depth);
    }
  }

  /** The tree gives back the depth of every line. */
  lemma {:induction false} HierarchyKeepsDepths(node: ContentNode, depths: seq<int>, line: int)
    requires IsHierarchy(node, depths) && node.start <= line <= node.end
    ensures LineDepth(node, line) == depths[line - 1]
    decreases node, 1
  {
    RunsKeepDepths(node.children, depths, node.start - 1, node.end - 1, node.depth, line);
  }

  lemma {:induction false} RunsKeepDepths(
      children: seq<ContentNode>, depths: seq<int>, lo: int, hi: int, depth: int, line: int)
    requires 0 <= lo && hi < |depths| && lo < line <= hi + 1
    requires ChildrenAreRuns(children, depths, lo, hi, depth)
    requires forall k :: lo <= k <= hi ==> depth <= depths[k]
    ensures DepthBelow(children, depth, line) == depths[line - 1]
    decreases children, 0
  {
    if children != [] {
      var c := children[0];
      if c.start <= line <= c.end {
        HierarchyKeepsDepths(c, depths, line);
      } else if line < c.start {
        NoChildHolds(children[1..], depths, c.end, hi, depth, line);
      } else {
        RunsKeepDepths(children[1..], depths, c.end, hi, depth, line);
      }
    }
  }

  lemma {:induction false} NoChildHolds(
      children: seq<ContentNode>, depths: seq<int>, lo: int, hi: int, depth: int, line: int)
    requires 0 <= lo && hi < |depths| && line <= lo
    requires ChildrenAreRuns(children, depths, lo, hi, depth)
    ensures DepthBelow(children, depth, line) == depth
  {
    if children != [] {
      NoChildHolds(children[1..], depths, children[0].end, hi, depth, line);
    }
  }

  /** The depths leave only one tree. */
  lemma {:induction false} HierarchyUnique(a: ContentNode, b: ContentNode, depths: seq<int>)
    requires IsHierarchy(a, depths) && IsHierarchy(b, depths) && a.start == b.start && a.end == b.end
    ensures a == b
    decreases a, 1
  {
    RunsUnique(a.children, b.children, depths, a.start - 1, a.end - 1, a.depth);
  }

  lemma {:induction false} RunsUnique(
      a: seq<ContentNode>, b: seq<ContentNode>, depths: seq<int>, lo: int, hi: int, depth: int)
    requires 0 <= lo && hi < |depths|
    requires ChildrenAreRuns(a, depths, lo, hi, depth) && ChildrenAreRuns(b, depths, lo, hi, depth)
    ensures a == b
    decreases a, 0
  {
    if a != [] && b != [] {
      var c, d := a[0], b[0];
      assert depths[c.start - 1] > depth && depths[d.start - 1] > depth;
      assert c.start == d.start;
      assert c.end == d.end;
      HierarchyUnique(c, d, depths);
      RunsUnique(a[1..], b[1..], depths, c.end, hi, depth);
    }
  }
}
