// The collapse policy: which regions of a content hierarchy to show within a line budget.
module Collapse {
  import opened Content
  import opened Integers
  import opened Optional
  import opened Sorting
  import opened Spans
  import Sharing

  // ----- reference definitions: what a depth cutoff costs and shows

  /** Output lines of the node when every subtree deeper than `cutoff` is one summary line. */
  function CostAt(node: ContentNode, cutoff: int): int
    decreases node, 1
  {
    if node.depth > cutoff then 1 else CostBelow(node.children, cutoff, node.start, node.end)
  }

  function CostBelow(children: seq<ContentNode>, cutoff: int, lo: int, hi: int): int
    decreases children, 0
  {
    if children == [] then hi - lo + 1
    else
      children[0].start - lo + CostAt(children[0], cutoff) + CostBelow(children[1..], cutoff, children[0].end + 1, hi)
  }

  /** The line is shown at the cutoff: no subtree around it is deeper, or that subtree is the line itself. */
  predicate VisibleAt(node: ContentNode, cutoff: int, line: int)
    decreases node, 1
  {
    if node.depth > cutoff then node.Lines() <= 1 else VisibleBelow(node.children, cutoff, line)
  }

  predicate VisibleBelow(children: seq<ContentNode>, cutoff: int, line: int)
    decreases children, 0
  {
    if children == [] then true
    else if children[0].start <= line <= children[0].end then VisibleAt(children[0], cutoff, line)
    else VisibleBelow(children[1..], cutoff, line)
  }

  /** An outermost subtree deeper than the cutoff spans a..b, more than one line. */
  predicate HidesRegion(node: ContentNode, cutoff: int, a: int, b: int)
    decreases node, 1
  {
    if node.depth > cutoff then node.start == a && node.end == b && a < b else HidesBelow(node.children, cutoff, a, b)
  }

  predicate HidesBelow(children: seq<ContentNode>, cutoff: int, a: int, b: int)
    decreases children, 0
  {
    children != [] && (HidesRegion(children[0], cutoff, a, b) || HidesBelow(children[1..], cutoff, a, b))
  }

  lemma {:induction false} RegionOf(node: ContentNode, cutoff: int, line: int) returns (a: int, b: int)
    requires WellFormed(node) && node.start <= line <= node.end && !VisibleAt(node, cutoff, line)
    ensures HidesRegion(node, cutoff, a, b) && a <= line <= b
    decreases node, 1
  {
    if node.depth > cutoff {
      a, b := node.start, node.end;
    } else {
      a, b := RegionBelow(node.children, cutoff, node.start, node.end, node.depth, line);
    }
  }

  lemma {:induction false} RegionBelow(children: seq<ContentNode>, cutoff: int, lo: int, hi: int, depth: int, line: int)
    returns (a: int, b: int)
    requires WellFormedChildren(children, lo, hi, depth) && !VisibleBelow(children, cutoff, line)
    ensures HidesBelow(children, cutoff, a, b) && a <= line <= b
    decreases children, 0
  {
    if children[0].start <= line <= children[0].end {
      a, b := RegionOf(children[0], cutoff, line);
    } else {
      a, b := RegionBelow(children[1..], cutoff, children[0].end + 1, hi, depth, line);
    }
  }

  lemma {:induction false} RegionIsHidden(node: ContentNode, cutoff: int, a: int, b: int, line: int)
    requires WellFormed(node) && HidesRegion(node, cutoff, a, b) && a <= line <= b
    ensures !VisibleAt(node, cutoff, line)
    decreases node, 1
  {
    if node.depth <= cutoff {
      RegionBelowIsHidden(node.children, cutoff, node.start, node.end, node.depth, a, b, line);
    }
  }

  lemma {:induction false} RegionBelowIsHidden(children: seq<ContentNode>, cutoff: int, lo: int, hi: int, depth: int,
                                               a: int, b: int, line: int)
    requires WellFormedChildren(children, lo, hi, depth) && HidesBelow(children, cutoff, a, b) && a <= line <= b
    ensures !VisibleBelow(children, cutoff, line)
    decreases children, 0
  {
    if HidesRegion(children[0], cutoff, a, b) {
      RegionInside(children[0], cutoff, a, b);
      RegionIsHidden(children[0], cutoff, a, b, line);
    } else {
      RegionInsideBelow(children[1..], cutoff, children[0].end + 1, hi, depth, a, b);
      RegionBelowIsHidden(children[1..], cutoff, children[0].end + 1, hi, depth, a, b, line);
    }
  }

  /** A line is hidden at a cutoff exactly when it lies in such a region. */
  lemma HiddenIff(node: ContentNode, cutoff: int, line: int)
    requires WellFormed(node) && node.start <= line <= node.end
    ensures !VisibleAt(node, cutoff, line) <==> InHiddenRegion(node, cutoff, line)
  {
    hide VisibleAt;
    if !VisibleAt(node, cutoff, line) {
      var a, b := RegionOf(node, cutoff, line);
      RegionHolds(node, cutoff, a, b, line);
    }
    if InHiddenRegion(node, cutoff, line) {
      var a, b :| HidesRegion(node, cutoff, a, b) && a <= line <= b;
      RegionIsHidden(node, cutoff, a, b, line);
    }
  }

  ghost predicate InHiddenRegion(node: ContentNode, cutoff: int, line: int) {
    exists a, b :: HidesRegion(node, cutoff, a, b) && a <= line <= b
  }

  lemma RegionHolds(node: ContentNode, cutoff: int, a: int, b: int, line: int)
    requires HidesRegion(node, cutoff, a, b) && a <= line <= b
    ensures InHiddenRegion(node, cutoff, line)
  {
    hide HidesRegion;
    assert exists x, y :: HidesRegion(node, cutoff, x, y) && x <= line <= y by {
      assert HidesRegion(node, cutoff, a, b) && a <= line <= b;
    }
  }

  lemma {:induction false} RegionInside(node: ContentNode, cutoff: int, a: int, b: int)
    requires WellFormed(node) && HidesRegion(node, cutoff, a, b)
    ensures node.start <= a < b <= node.end
    decreases node, 1
  {
    if node.depth <= cutoff {
      RegionInsideBelow(node.children, cutoff, node.start, node.end, node.depth, a, b);
    }
  }

  lemma {:induction false} RegionInsideBelow(children: seq<ContentNode>, cutoff: int, lo: int, hi: int, depth: int, a: int, b: int)
    requires WellFormedChildren(children, lo, hi, depth) && HidesBelow(children, cutoff, a, b)
    ensures lo <= a < b <= hi
    decreases children, 0
  {
    if HidesRegion(children[0], cutoff, a, b) {
      RegionInside(children[0], cutoff, a, b);
    } else {
      RegionInsideBelow(children[1..], cutoff, children[0].end + 1, hi, depth, a, b);
    }
  }

  /** The cutoff's outline takes at most `budget` lines. */
  predicate Fits(root: ContentNode, cutoff: int, budget: int) {
    CostAt(root, cutoff) <= budget
  }

  /** A deeper cutoff never costs less. */
  lemma {:induction false} CostMonotone(node: ContentNode, d: int, e: int)
    requires WellFormed(node) && d <= e
    ensures 1 <= CostAt(node, d) <= CostAt(node, e) <= node.Lines()
    decreases node, 1
  {
    CostBelowMonotone(node.children, d, e, node.start, node.end, node.depth);
  }

  lemma {:induction false} CostBelowMonotone(children: seq<ContentNode>, d: int, e: int, lo: int, hi: int, depth: int)
    requires WellFormedChildren(children, lo, hi, depth) && d <= e && lo <= hi + 1
    ensures 0 <= CostBelow(children, d, lo, hi) <= CostBelow(children, e, lo, hi) <= hi - lo + 1
    ensures lo <= hi ==> 1 <= CostBelow(children, d, lo, hi)
    decreases children, 0
  {
    if children != [] {
      CostMonotone(children[0], d, e);
      CostBelowMonotone(children[1..], d, e, children[0].end + 1, hi, depth);
    }
  }

  /** Every line at or above the cutoff depth is shown. */
  lemma {:induction false} ShallowLinesVisible(node: ContentNode, cutoff: int, line: int)
    requires WellFormed(node) && LineDepth(node, line) <= cutoff
    ensures VisibleAt(node, cutoff, line)
    decreases node, 1
  {
    ShallowVisibleBelow(node.children, cutoff, node.start, node.end, node.depth, line);
  }

  lemma {:induction false} ShallowVisibleBelow(
      children: seq<ContentNode>, cutoff: int, lo: int, hi: int, depth: int, line: int)
    requires WellFormedChildren(children, lo, hi, depth) && DepthBelow(children, depth, line) <= cutoff
    ensures depth <= cutoff && VisibleBelow(children, cutoff, line)
    decreases children, 0
  {
    if children != [] {
      if children[0].start <= line <= children[0].end {
        ShallowLinesVisible(children[0], cutoff, line);
        DepthAtLeast(children[0], line);
      } else {
        ShallowVisibleBelow(children[1..], cutoff, children[0].end + 1, hi, depth, line);
      }
    }
  }

  lemma {:induction false} DepthAtLeast(node: ContentNode, line: int)
    requires WellFormed(node)
    ensures node.depth <= LineDepth(node, line)
    ensures LineDepth(node, line) in Depths(node)
    decreases node, 1
  {
    DepthBelowAtLeast(node.children, node.start, node.end, node.depth, line);
  }

  lemma {:induction false} DepthBelowAtLeast(children: seq<ContentNode>, lo: int, hi: int, depth: int, line: int)
    requires WellFormedChildren(children, lo, hi, depth)
    ensures depth <= DepthBelow(children, depth, line)
    ensures DepthBelow(children, depth, line) in {depth} + DepthsBelow(children)
    decreases children, 0
  {
    if children != [] {
      if children[0].start <= line <= children[0].end {
        DepthAtLeast(children[0], line);
      } else {
        DepthBelowAtLeast(children[1..], children[0].end + 1, hi, depth, line);
      }
    }
  }

  /** A single line is shown at every cutoff. */
  lemma {:induction false} SingleLineVisible(node: ContentNode, cutoff: int, line: int)
    requires WellFormed(node) && node.Lines() <= 1
    ensures VisibleAt(node, cutoff, line)
    decreases node, 1
  {
    SingleLineBelow(node.children, cutoff, node.start, node.end, node.depth, line);
  }

  lemma {:induction false} SingleLineBelow(children: seq<ContentNode>, cutoff: int, lo: int, hi: int, depth: int, line: int)
    requires WellFormedChildren(children, lo, hi, depth) && hi <= lo
    ensures VisibleBelow(children, cutoff, line)
    decreases children, 0
  {
    if children != [] {
      SingleLineVisible(children[0], cutoff, line);
      SingleLineBelow(children[1..], cutoff, children[0].end + 1, hi, depth, line);
    }
  }

  /** A deeper cutoff never hides a line. */
  lemma {:induction false} VisibleMonotone(node: ContentNode, c: int, d: int, line: int)
    requires WellFormed(node) && c <= d && VisibleAt(node, c, line)
    ensures VisibleAt(node, d, line)
    decreases node, 1
  {
    if node.depth > c {
      SingleLineVisible(node, d, line);
    } else {
      VisibleBelowMonotone(node.children, c, d, node.start, node.end, node.depth, line);
    }
  }

  lemma {:induction false} VisibleBelowMonotone(children: seq<ContentNode>, c: int, d: int, lo: int, hi: int, depth: int, line: int)
    requires WellFormedChildren(children, lo, hi, depth) && c <= d && VisibleBelow(children, c, line)
    ensures VisibleBelow(children, d, line)
    decreases children, 0
  {
    if children != [] {
      if children[0].start <= line <= children[0].end {
        VisibleMonotone(children[0], c, d, line);
      } else {
        VisibleBelowMonotone(children[1..], c, d, children[0].end + 1, hi, depth, line);
      }
    }
  }

  /** Cutoffs between which the tree has no depth show the same lines. */
  lemma {:induction false} SameCutoff(node: ContentNode, c: int, d: int, line: int)
    requires forall x :: x in Depths(node) ==> (x <= c <==> x <= d)
    ensures VisibleAt(node, c, line) <==> VisibleAt(node, d, line)
    decreases node, 1
  {
    assert node.depth in Depths(node);
    SameCutoffBelow(node.children, c, d, line);
  }

  lemma {:induction false} SameCutoffBelow(children: seq<ContentNode>, c: int, d: int, line: int)
    requires forall x :: x in DepthsBelow(children) ==> (x <= c <==> x <= d)
    ensures VisibleBelow(children, c, line) <==> VisibleBelow(children, d, line)
    decreases children, 0
  {
    if children != [] {
      assert DepthsBelow(children) == Depths(children[0]) + DepthsBelow(children[1..]);
      SameCutoff(children[0], c, d, line);
      SameCutoffBelow(children[1..], c, d, line);
    }
  }

  // ----- the depths of a tree

  function Depths(node: ContentNode): set<int>
    decreases node, 1
  {
    {node.depth} + DepthsBelow(node.children)
  }

  function DepthsBelow(children: seq<ContentNode>): set<int>
    decreases children, 0
  {
    if children == [] then {} else Depths(children[0]) + DepthsBelow(children[1..])
  }

  lemma {:induction false} RootIsShallowest(node: ContentNode)
    requires WellFormed(node)
    ensures forall d :: d in Depths(node) ==> node.depth <= d
    decreases node, 1
  {
    BelowIsDeeper(node.children, node.start, node.end, node.depth);
  }

  lemma {:induction false} BelowIsDeeper(children: seq<ContentNode>, lo: int, hi: int, depth: int)
    requires WellFormedChildren(children, lo, hi, depth)
    ensures forall d :: d in DepthsBelow(children) ==> depth < d
    decreases children, 0
  {
    if children != [] {
      RootIsShallowest(children[0]);
      BelowIsDeeper(children[1..], children[0].end + 1, hi, depth);
    }
  }

  method CollectDepths(node: ContentNode, out: set<int>) returns (r: set<int>)
    ensures r == out + Depths(node)
    decreases node
  {
    r := out + {node.depth};
    for i := 0 to |node.children|
      invariant r + DepthsBelow(node.children[i..]) == out + Depths(node)
    {
      assert node.children[i..][1..] == node.children[i + 1..];
      r := CollectDepths(node.children[i], r);
    }
  }

  // ----- spans at a cutoff

  /** `spans` is the outline of the node at the cutoff. */
  ghost predicate OutlineAt(spans: seq<Span>, node: ContentNode, cutoff: int) {
    && Tiles(spans, node.start, node.end)
    && NoTrivialCollapse(spans)
    && TotalCost(spans) == CostAt(node, cutoff)
    && (forall line :: node.start <= line <= node.end ==> (Shows(spans, line) <==> VisibleAt(node, cutoff, line)))
    && (forall a, b :: Span(a, b, false) in spans <==> HidesRegion(node, cutoff, a, b))
  }

  /** The walk has dealt with the children before `rest`, and lines before `current`. */
  ghost predicate WalkedTo(spans: seq<Span>, node: ContentNode, cutoff: int, rest: seq<ContentNode>, current: int) {
    && node.depth <= cutoff
    && node.start <= current <= node.end + 1
    && WellFormedChildren(rest, current, node.end, node.depth)
    && Tiles(spans, node.start, current - 1)
    && NoTrivialCollapse(spans)
    && TotalCost(spans) + CostBelow(rest, cutoff, current, node.end) == CostAt(node, cutoff)
    && (forall line :: node.start <= line < current ==> (Shows(spans, line) <==> VisibleAt(node, cutoff, line)))
    && (forall line :: current <= line <= node.end ==>
          (VisibleAt(node, cutoff, line) <==> VisibleBelow(rest, cutoff, line)))
    && (forall a, b :: Span(a, b, false) in spans || HidesBelow(rest, cutoff, a, b) <==> HidesRegion(node, cutoff, a, b))
  }

  /** Own lines before the next child are shown. */
  lemma WalkOwnLines(spans: seq<Span>, node: ContentNode, cutoff: int, rest: seq<ContentNode>, current: int, next: int)
    requires WellFormed(node) && WalkedTo(spans, node, cutoff, rest, current) && current < next
    requires next == if rest == [] then node.end + 1 else rest[0].start
    ensures WalkedTo(spans + [Span(current, next - 1, true)], node, cutoff, rest, next)
  {
    assert WellFormedChildren(rest, next, node.end, node.depth);
    assert CostBelow(rest, cutoff, current, node.end) == next - current + CostBelow(rest, cutoff, next, node.end);
    assert next <= node.end + 1 by {
      if rest != [] { assert WellFormed(rest[0]); }
    }
    hide VisibleAt, VisibleBelow, CostAt, CostBelow, HidesRegion, HidesBelow, WellFormed, WellFormedChildren;
    Snoc(spans, Span(current, next - 1, true), node.start);
    TilesBounds(spans, node.start, current - 1);
    var longer := spans + [Span(current, next - 1, true)];
    forall line | node.start <= line < next ensures Shows(longer, line) <==> VisibleAt(node, cutoff, line) {
      if line >= current {
        BeforeChildren(rest, cutoff, next, node.end, node.depth, line);
      }
    }
    assert NoTrivialCollapse(longer);
  }

  lemma {:induction false} BeforeChildren(rest: seq<ContentNode>, cutoff: int, lo: int, hi: int, depth: int, line: int)
    requires WellFormedChildren(rest, lo, hi, depth) && line < lo
    ensures VisibleBelow(rest, cutoff, line)
  {
    if rest != [] {
      BeforeChildren(rest[1..], cutoff, rest[0].end + 1, hi, depth, line);
    }
  }

  /** The next child adds its own outline. */
  lemma WalkChild(spans: seq<Span>, node: ContentNode, cutoff: int, rest: seq<ContentNode>, added: seq<Span>)
    requires WellFormed(node) && rest != [] && WalkedTo(spans, node, cutoff, rest, rest[0].start)
    requires OutlineAt(added, rest[0], cutoff)
    ensures WalkedTo(spans + added, node, cutoff, rest[1..], rest[0].end + 1)
  {
    var c := rest[0];
    TilesAppend(spans, added, node.start, c.start - 1, c.end);
    CostAppend(spans, added);
    ShowsAppend(spans, added);
    TilesBounds(spans, node.start, c.start - 1);
    TilesBounds(added, c.start, c.end);
    forall line | node.start <= line < c.end + 1
      ensures Shows(spans + added, line) <==> VisibleAt(node, cutoff, line)
    {
      if line >= c.start {
        assert VisibleAt(node, cutoff, line) <==> VisibleBelow(rest, cutoff, line);
      }
    }
  }

  lemma WalkStart(node: ContentNode, cutoff: int)
    requires WellFormed(node) && node.depth <= cutoff
    ensures WalkedTo([], node, cutoff, node.children, node.start)
  {
  }

  lemma WalkEnd(spans: seq<Span>, node: ContentNode, cutoff: int)
    requires WellFormed(node) && WalkedTo(spans, node, cutoff, [], node.end + 1)
    ensures OutlineAt(spans, node, cutoff)
  {
  }

  lemma WalkCollapsed(node: ContentNode, cutoff: int)
    requires WellFormed(node) && node.depth > cutoff
    ensures OutlineAt([Span(node.start, node.end, node.Lines() <= 1)], node, cutoff)
  {
    One(Span(node.start, node.end, node.Lines() <= 1));
  }

  lemma WalkedFacts(spans: seq<Span>, node: ContentNode, cutoff: int, rest: seq<ContentNode>, current: int)
    requires WalkedTo(spans, node, cutoff, rest, current)
    ensures current <= node.end + 1
    ensures rest != [] ==> current <= rest[0].start && WellFormed(rest[0])
  {
  }

  /** `_walk_for_spans`: appends the node's outline to `out`. */
  method WalkForSpans(node: ContentNode, cutoff: int, out: seq<Span>) returns (r: seq<Span>)
    requires WellFormed(node)
    ensures out <= r && OutlineAt(r[|out|..], node, cutoff)
    decreases node
  {
    hide *;
    if node.depth > cutoff {
      r := out + [Span(node.start, node.end, node.Lines() <= 1)];
      WalkCollapsed(node, cutoff);
      assert r[|out|..] == [Span(node.start, node.end, node.Lines() <= 1)];
      return;
    }
    r := out;
    var current := node.start;
    ghost var added: seq<Span> := [];
    WalkStart(node, cutoff);
    assert node.children[0..] == node.children;
    for i := 0 to |node.children|
      invariant r == out + added
      invariant WalkedTo(added, node, cutoff, node.children[i..], current)
    {
      var child := node.children[i];
      ghost var rest := node.children[i..];
      WalkedFacts(added, node, cutoff, rest, current);
      if current < child.start {
        WalkOwnLines(added, node, cutoff, rest, current, child.start);
        r := r + [Span(current, child.start - 1, true)];
        added := added + [Span(current, child.start - 1, true)];
      }
      ghost var before := r;
      r := WalkForSpans(child, cutoff, r);
      WalkChild(added, node, cutoff, rest, r[|before|..]);
      added := added + r[|before|..];
      current := child.end + 1;
      assert rest[1..] == node.children[i + 1..];
    }
    assert node.children[|node.children|..] == [];
    WalkedFacts(added, node, cutoff, [], current);
    if current <= node.end {
      WalkOwnLines(added, node, cutoff, [], current, node.end + 1);
      r := r + [Span(current, node.end, true)];
      added := added + [Span(current, node.end, true)];
    }
    WalkEnd(added, node, cutoff);
    assert r[|out|..] == added;
  }

  /** `_build_spans` */
  method BuildSpans(root: ContentNode, cutoff: int) returns (spans: seq<Span>)
    requires WellFormed(root)
    ensures OutlineAt(spans, root, cutoff) && NoAdjacentVisible(spans)
  {
    var raw := WalkForSpans(root, cutoff, []);
    assert raw[0..] == raw;
    spans := Finalize(raw);
    FinalizedTiles(raw, root.start, root.end);
    assert forall line :: Span(line, line, false) !in raw;
  }

  // ----- partial expansion

  /** The collapsed spans among the first `n`, with the lines each could still show. */
  function CollapsedItems(spans: seq<Span>, n: nat): (items: seq<(int, int)>)
    requires n <= |spans|
  {
    if n == 0 then []
    else if spans[n - 1].visible then CollapsedItems(spans, n - 1)
    else CollapsedItems(spans, n - 1) + [(n - 1, spans[n - 1].Lines() - 1)]
  }

  lemma {:induction false} ItemsAreProper(spans: seq<Span>, n: nat, lo: int, hi: int)
    requires n <= |spans| && Tiles(spans, lo, hi)
    ensures var items := CollapsedItems(spans, n);
      && Sharing.ProperItems(items)
      && (forall k :: 0 <= k < |items| ==> 0 <= items[k].0 < n)
      && (forall i :: 0 <= i < n && !spans[i].visible ==> (i, spans[i].Lines() - 1) in items)
  {
    if n > 0 {
      ItemsAreProper(spans, n - 1, lo, hi);
      TilesBounds(spans, lo, hi);
    }
  }

  /** What the collapsed spans could still show is the file less what it costs now. */
  lemma {:induction false} RoomLeft(spans: seq<Span>, n: nat, lo: int, hi: int)
    requires n <= |spans| && Tiles(spans[..n], lo, hi)
    ensures Sum(CollapsedItems(spans, n), Sharing.CapacityOf()) == hi - lo + 1 - TotalCost(spans[..n])
  {
    if n > 0 {
      var init, last := spans[..n - 1], spans[n - 1];
      assert spans[..n] == init + [last];
      var mid := TilesSplit(init, [last], lo, hi);
      RoomLeft(spans, n - 1, lo, mid);
      CostAppend(init, [last]);
      assert [last][1..] == [];
      SumItems(spans, n, Sharing.CapacityOf());
    }
  }

  lemma SumItems(spans: seq<Span>, n: nat, f: ((int, int)) -> int)
    requires 0 < n <= |spans|
    ensures Sum(CollapsedItems(spans, n), f) ==
      Sum(CollapsedItems(spans, n - 1), f) + if spans[n - 1].visible then 0 else f((n - 1, spans[n - 1].Lines() - 1))
  {
    if !spans[n - 1].visible {
      var item := (n - 1, spans[n - 1].Lines() - 1);
      SumAppend(CollapsedItems(spans, n - 1), [item], f);
      assert [item][1..] == [];
    }
  }

  /** What one span becomes when it is given `extra` more lines. */
  function Expanded(span: Span, extra: int): seq<Span> {
    if extra <= 0 || span.visible then [span]
    else if extra >= span.Lines() - 1 then [Span(span.start, span.end, true)]
    else
      [Span(span.start, span.start + extra - 1, true), Span(span.start + extra, span.end, false)]
  }

  /** The first spans have been expanded by their shares. */
  ghost predicate ExpandedTo(result: seq<Span>, spans: seq<Span>, lo: int, mid: int, extra: int) {
    && Tiles(result, lo, mid)
    && NoTrivialCollapse(result)
    && TotalCost(result) == TotalCost(spans) + extra
    && (forall line :: Shows(spans, line) ==> Shows(result, line))
  }

  lemma ExpandOne(result: seq<Span>, spans: seq<Span>, lo: int, extra: int, span: Span, more: int)
    requires ExpandedTo(result, spans, lo, span.start - 1, extra)
    requires lo <= span.start <= span.end && (!span.visible ==> span.Lines() >= 2 && 0 <= more <= span.Lines() - 1)
    ensures ExpandedTo(result + Expanded(span, more), spans + [span], lo, span.end,
                       extra + if span.visible then 0 else more)
  {
    ShowsAppend(spans, [span]);
    CostAppend(spans, [span]);
    One(span);
    var e := Expanded(span, more);
    if |e| == 1 {
      Snoc(result, e[0], lo);
    } else {
      Snoc(result, e[0], lo);
      Snoc(result + [e[0]], e[1], lo);
      assert result + e == result + [e[0]] + [e[1]];
    }
  }

  /** Of a region given a share, the lines at its head are shown; the whole region, once one line is left. */
  predicate ShownOf(region: Span, share: int, line: int) {
    line < region.start + share || share == region.Lines() - 1
  }

  /** Of `base`, visible spans stay visible, and of each collapsed one as many leading lines are shown as its
      share says. A region that hides something got at least every other region's share less one. */
  ghost predicate SpendsFairly(spans: seq<Span>, base: seq<Span>, shares: seq<int>) {
    && |shares| == |base|
    && (forall i :: 0 <= i < |base| ==> ShowsShare(spans, base[i], shares[i]))
    && (forall i, j ::
          (0 <= i < |base| && 0 <= j < |base| && !base[i].visible && !base[j].visible && shares[i] < base[i].Lines() - 1) ==>
            shares[j] <= shares[i] + 1)
  }

  ghost predicate ShowsShare(spans: seq<Span>, region: Span, share: int) {
    && (!region.visible ==> 0 <= share <= region.Lines() - 1)
    && forall line :: region.Holds(line) ==> (Shows(spans, line) <==> region.visible || ShownOf(region, share, line))
  }

  /** The lines of the first n spans are shown as their shares say. */
  ghost predicate ShownTo(result: seq<Span>, spans: seq<Span>, allocations: map<int, int>, n: nat)
    requires n <= |spans|
  {
    forall k :: 0 <= k < n ==> ShowsShare(result, spans[k], Sharing.Share(allocations, k))
  }

  lemma ExpandedShows(result: seq<Span>, span: Span, share: int, lo: int)
    requires Tiles(result, lo, span.start - 1) && span.start <= span.end
    requires !span.visible ==> span.Lines() >= 2 && 0 <= share <= span.Lines() - 1
    ensures ShowsShare(result + Expanded(span, share), span, share)
    ensures forall line :: line < span.start ==> (Shows(result + Expanded(span, share), line) <==> Shows(result, line))
  {
    TilesBounds(result, lo, span.start - 1);
    var e := Expanded(span, share);
    ShowsAppend(result, e);
    One(e[0]);
    if |e| == 2 {
      One(e[1]);
      ShowsAppend([e[0]], [e[1]]);
      assert e == [e[0]] + [e[1]];
    } else {
      assert e == [e[0]];
    }
  }

  lemma ShownNext(result: seq<Span>, spans: seq<Span>, lo: int, hi: int, allocations: map<int, int>, i: nat)
    requires i < |spans| && Tiles(spans, lo, hi) && Tiles(result, lo, spans[i].start - 1)
    requires !spans[i].visible ==> spans[i].Lines() >= 2 && 0 <= Sharing.Share(allocations, i) <= spans[i].Lines() - 1
    requires ShownTo(result, spans, allocations, i)
    ensures ShownTo(result + Expanded(spans[i], Sharing.Share(allocations, i)), spans, allocations, i + 1)
  {
    var longer := result + Expanded(spans[i], Sharing.Share(allocations, i));
    TilesBounds(spans, lo, hi);
    ExpandedShows(result, spans[i], Sharing.Share(allocations, i), lo);
    hide Shows, Expanded, ShownOf, Sharing.Share;
    forall k | 0 <= k < i ensures ShowsShare(longer, spans[k], Sharing.Share(allocations, k)) {
      EndsBefore(spans, lo, hi, k, i);
      assert ShowsShare(result, spans[k], Sharing.Share(allocations, k));
    }
  }

  lemma {:induction false} EndsBefore(spans: seq<Span>, lo: int, hi: int, k: nat, i: nat)
    requires Tiles(spans, lo, hi) && k < i < |spans|
    ensures spans[k].end < spans[i].start
  {
    TilesBounds(spans[1..], spans[0].end + 1, hi);
    if k > 0 {
      EndsBefore(spans[1..], spans[0].end + 1, hi, k - 1, i - 1);
    } else {
      assert spans[i] == spans[1..][i - 1];
    }
  }

  lemma FairlySpent(result: seq<Span>, spans: seq<Span>, allocations: map<int, int>, surplus: nat, lo: int, hi: int)
    requires Tiles(spans, lo, hi) && ShownTo(result, spans, allocations, |spans|)
    requires Sharing.Fair(CollapsedItems(spans, |spans|), surplus, allocations)
    ensures SpendsFairly(result, spans, seq(|spans|, i => Sharing.Share(allocations, i)))
  {
    var items, shares := CollapsedItems(spans, |spans|), seq(|spans|, i => Sharing.Share(allocations, i));
    ItemsAreProper(spans, |spans|, lo, hi);
    hide CollapsedItems, ShowsShare, Sharing.Share, Tiles;
    forall i, j | 0 <= i < |spans| && 0 <= j < |spans| && !spans[i].visible && !spans[j].visible
      && shares[i] < spans[i].Lines() - 1
      ensures shares[j] <= shares[i] + 1
    {
      assert (i, spans[i].Lines() - 1) in items && (j, spans[j].Lines() - 1) in items;
    }
  }

  /** Without a surplus every share is nothing. */
  lemma NothingSpent(spans: seq<Span>, lo: int, hi: int)
    requires Tiles(spans, lo, hi) && NoTrivialCollapse(spans)
    ensures SpendsFairly(spans, spans, seq(|spans|, _ => 0))
  {
    forall i | 0 <= i < |spans| ensures ShowsShare(spans, spans[i], 0) {
      OwnShow(spans, lo, hi, i);
    }
  }

  lemma {:induction false} OwnShow(spans: seq<Span>, lo: int, hi: int, i: nat)
    requires Tiles(spans, lo, hi) && i < |spans|
    ensures forall line :: spans[i].Holds(line) ==> (Shows(spans, line) <==> spans[i].visible)
  {
    TilesBounds(spans[1..], spans[0].end + 1, hi);
    if i > 0 {
      OwnShow(spans[1..], spans[0].end + 1, hi, i - 1);
      assert spans[i] == spans[1..][i - 1];
    }
  }

  /** `_partially_expand`: spends the surplus to the last line, as far as there are hidden lines, in fair shares
      that show the head of each region. */
  method PartiallyExpand(spans: seq<Span>, surplus: nat, ghost lo: int, ghost hi: int)
    returns (result: seq<Span>, ghost shares: seq<int>)
    requires Tiles(spans, lo, hi) && NoTrivialCollapse(spans)
    ensures Tiles(result, lo, hi) && NoTrivialCollapse(result)
    ensures TotalCost(result) == Min(TotalCost(spans) + surplus, hi - lo + 1)
    ensures forall line :: Shows(spans, line) ==> Shows(result, line)
    ensures SpendsFairly(result, spans, shares)
  {
    var capacities := CollapsedCapacities(spans);
    ItemsAreProper(spans, |spans|, lo, hi);
    assert spans[..|spans|] == spans;
    RoomLeft(spans, |spans|, lo, hi);
    if capacities == [] {
      NothingSpent(spans, lo, hi);
      return spans, seq(|spans|, _ => 0);
    }
    var allocations := Sharing.DistributeEvenly(capacities, surplus);
    hide *;
    SomeLines(spans, lo, hi);
    result := ExpandBy(spans, allocations, surplus, lo, hi);
    shares := seq(|spans|, i => Sharing.Share(allocations, i));
    FairlySpent(result, spans, allocations, surplus, lo, hi);
    ExpansionCosts(result, spans, lo, hi, surplus, allocations);
  }

  lemma SomeLines(spans: seq<Span>, lo: int, hi: int)
    requires Tiles(spans, lo, hi) && CollapsedItems(spans, |spans|) != []
    ensures lo <= hi
  {
    TilesBounds(spans, lo, hi);
  }

  lemma ExpansionCosts(result: seq<Span>, spans: seq<Span>, lo: int, hi: int, surplus: nat, allocations: map<int, int>)
    requires ExpandedTo(result, spans, lo, hi, Sum(CollapsedItems(spans, |spans|), Sharing.ShareOf(allocations)))
    requires Sharing.Fair(CollapsedItems(spans, |spans|), surplus, allocations)
    requires Sum(CollapsedItems(spans, |spans|), Sharing.CapacityOf()) == hi - lo + 1 - TotalCost(spans)
    ensures Tiles(result, lo, hi) && NoTrivialCollapse(result)
    ensures TotalCost(result) == Min(TotalCost(spans) + surplus, hi - lo + 1)
    ensures forall line :: Shows(spans, line) ==> Shows(result, line)
  {
  }

  method CollapsedCapacities(spans: seq<Span>) returns (capacities: seq<(int, int)>)
    ensures capacities == CollapsedItems(spans, |spans|)
  {
    capacities := [];
    for i := 0 to |spans|
      invariant capacities == CollapsedItems(spans, i)
    {
      if !spans[i].visible {
        capacities := capacities + [(i, spans[i].Lines() - 1)];
      }
    }
  }

  lemma SpanInTiling(spans: seq<Span>, lo: int, hi: int, i: nat)
    requires Tiles(spans, lo, hi) && NoTrivialCollapse(spans) && i < |spans|
    ensures spans[i].start == if i == 0 then lo else spans[i - 1].end + 1
    ensures lo <= spans[i].start <= spans[i].end
    ensures !spans[i].visible ==> spans[i].Lines() >= 2
    ensures i == |spans| - 1 ==> spans[i].end == hi
  {
    TilesBounds(spans, lo, hi);
    if i > 0 { StepInTiling(spans, lo, hi, i); }
    assert spans + [] == spans;
    var _ := TilesSplit(spans, [], lo, hi);
  }

  lemma ShareInBounds(spans: seq<Span>, allocations: map<int, int>, surplus: nat, lo: int, hi: int, i: nat)
    requires i < |spans| && Tiles(spans, lo, hi) && !spans[i].visible
    requires Sharing.Fair(CollapsedItems(spans, |spans|), surplus, allocations)
    ensures 0 <= Sharing.Share(allocations, i) <= spans[i].Lines() - 1
    ensures Sharing.ShareOf(allocations)((i, spans[i].Lines() - 1)) == Sharing.Share(allocations, i)
  {
    ItemsAreProper(spans, |spans|, lo, hi);
    var item := (i, spans[i].Lines() - 1);
    assert item in CollapsedItems(spans, |spans|);
  }

  lemma ExpandStart(spans: seq<Span>, lo: int, hi: int, share: ((int, int)) -> int)
    requires Tiles(spans, lo, hi) && lo <= hi
    ensures spans != [] && ExpandedTo([], spans[..0], lo, lo - 1, Sum(CollapsedItems(spans, 0), share))
    ensures forall allocations :: ShownTo([], spans, allocations, 0)
  {
  }

  lemma ExpandedTiles(result: seq<Span>, spans: seq<Span>, lo: int, mid: int, extra: int)
    requires ExpandedTo(result, spans, lo, mid, extra)
    ensures Tiles(result, lo, mid)
  {
  }

  method ExpandBy(spans: seq<Span>, allocations: map<int, int>, surplus: nat, ghost lo: int, ghost hi: int)
    returns (result: seq<Span>)
    requires Tiles(spans, lo, hi) && NoTrivialCollapse(spans) && lo <= hi
    requires Sharing.Fair(CollapsedItems(spans, |spans|), surplus, allocations)
    ensures ExpandedTo(result, spans, lo, hi, Sum(CollapsedItems(spans, |spans|), Sharing.ShareOf(allocations)))
    ensures ShownTo(result, spans, allocations, |spans|)
  {
    ghost var share := Sharing.ShareOf(allocations);
    result := [];
    ghost var mid := lo - 1;
    hide *;
    ExpandStart(spans, lo, hi, share);
    for i := 0 to |spans|
      invariant mid == if i == 0 then lo - 1 else spans[i - 1].end
      invariant ExpandedTo(result, spans[..i], lo, mid, Sum(CollapsedItems(spans, i), share))
      invariant ShownTo(result, spans, allocations, i)
    {
      var span := spans[i];
      var extra := Sharing.Share(allocations, i);
      SpanInTiling(spans, lo, hi, i);
      if !span.visible {
        ShareInBounds(spans, allocations, surplus, lo, hi, i);
      }
      ExpandedTiles(result, spans[..i], lo, mid, Sum(CollapsedItems(spans, i), share));
      ShownNext(result, spans, lo, hi, allocations, i);
      ExpandOne(result, spans[..i], lo, Sum(CollapsedItems(spans, i), share), span, extra);
      SumItems(spans, i + 1, share);
      assert spans[..i + 1] == spans[..i] + [span];
      result := result + Expanded(span, extra);
      mid := span.end;
    }
    SpanInTiling(spans, lo, hi, |spans| - 1);
    assert spans[..|spans|] == spans;
  }

  // ----- the search for a cutoff

  /** The search stopped at the first depth that does not fit, so no deeper cutoff fits either:
      whatever any fitting cutoff shows, the chosen one shows. */
  lemma ChosenShowsMost(root: ContentNode, budget: int, depths: seq<int>, i: nat, d: int, line: int)
    requires WellFormed(root) && StrictlyIncreasing(depths) && (forall x :: x in depths <==> x in Depths(root))
    requires 0 < i <= |depths|
    requires i < |depths| ==> !Fits(root, depths[i], budget)
    requires Fits(root, d, budget) && VisibleAt(root, d, line)
    ensures VisibleAt(root, depths[i - 1], line)
  {
    var chosen := depths[i - 1];
    if d <= chosen {
      VisibleMonotone(root, d, chosen, line);
    } else {
      if i < |depths| && depths[i] <= d {
        CostMonotone(root, depths[i], d);
        assert false;
      }
      hide CostAt, VisibleAt, Depths;
      forall x | x in Depths(root) ensures x <= chosen <==> x <= d {
        var k :| 0 <= k < |depths| && depths[k] == x;
        if k >= i { assert depths[i] <= x; } else { assert x <= chosen; }
      }
      SameCutoff(root, chosen, d, line);
    }
  }

  lemma FirstDepthIsRoots(root: ContentNode, depths: seq<int>)
    requires WellFormed(root) && StrictlyIncreasing(depths) && (forall x :: x in depths <==> x in Depths(root))
    ensures |depths| > 0 && depths[0] == root.depth
  {
    RootIsShallowest(root);
    assert root.depth in depths;
    assert depths[0] in depths;
  }

  /** The spans show every line that some fitting cutoff shows. */
  ghost predicate ShowsFitting(spans: seq<Span>, root: ContentNode, budget: int) {
    forall d, line :: Fits(root, d, budget) && 1 <= line <= root.end && VisibleAt(root, d, line) ==> Shows(spans, line)
  }

  /** `_truncation_spans`, for a file longer than the budget. */
  function TruncationSpans(total: int, budget: int): seq<Span> {
    [Span(1, budget, true), Span(budget + 1, total, false)]
  }

  lemma TruncationTiles(total: int, budget: int)
    requires budget < total && 0 < total
    ensures Tiles(TruncationSpans(total, budget), 1, total) <==> budget >= 1
    ensures TotalCost(TruncationSpans(total, budget)) == budget + 1
  {
    var spans := TruncationSpans(total, budget);
    assert spans[1..] == [spans[1]];
    One(spans[1]);
  }

  /** The loop of `compute_collapse` over the depths of the tree, shallowest first. */
  method DeepestFit(root: ContentNode, budget: int) returns (best: Option<seq<Span>>, ghost cutoff: int)
    requires WellFormed(root) && root.start == 1
    ensures best.None? <==> !Fits(root, root.depth, budget)
    ensures best.Some? ==>
      && OutlineAt(best.value, root, cutoff) && Fits(root, cutoff, budget)
      && 0 < TotalCost(best.value) <= budget
      && ShowsFitting(best.value, root, budget)
  {
    cutoff := root.depth;
    var depthSet := CollectDepths(root, {});
    var sortedDepths := SortedElements(depthSet);
    FirstDepthIsRoots(root, sortedDepths);
    best := None;
    var i := 0;
    while i < |sortedDepths|
      invariant 0 <= i <= |sortedDepths|
      invariant best.None? <==> i == 0
      invariant best.Some? ==> OutlineAt(best.value, root, sortedDepths[i - 1]) && Fits(root, sortedDepths[i - 1], budget)
      invariant i > 0 ==> Fits(root, root.depth, budget)
    {
      var spans := BuildSpans(root, sortedDepths[i]);
      if TotalCost(spans) <= budget {
        best := Some(spans);
      } else {
        break;
      }
      i := i + 1;
    }
    if best.Some? {
      cutoff := sortedDepths[i - 1];
      TilesBounds(best.value, 1, root.end);
      forall d, line | Fits(root, d, budget) && 1 <= line <= root.end && VisibleAt(root, d, line)
        ensures Shows(best.value, line)
      {
        ChosenShowsMost(root, budget, sortedDepths, i, d, line);
      }
    }
  }

  /** `spans` are the outline of a fitting cutoff that shows whatever a fitting cutoff shows, with what is
      left of the budget spent fairly on the regions that cutoff hides. */
  ghost predicate BestOutline(spans: seq<Span>, root: ContentNode, budget: int, cutoff: int, base: seq<Span>, shares: seq<int>) {
    && Fits(root, cutoff, budget) && OutlineAt(base, root, cutoff) && ShowsFitting(base, root, budget)
    && Tiles(spans, 1, root.end) && TotalCost(spans) == budget
    && NoTrivialCollapse(spans) && NoAdjacentVisible(spans)
    && SpendsFairly(spans, base, shares)
  }

  /** A file within budget is shown whole. A file over it gets the best outline, of exactly the budgeted
      lines; when no cutoff fits, its first lines and one summary line over the budget, which tile the file
      if and only if the budget is at least 1. */
  ghost predicate IsCollapse(spans: seq<Span>, root: ContentNode, budget: int) {
    && (root.Lines() == 0 ==> spans == [])
    && (0 < root.Lines() <= budget ==> spans == [Span(1, root.end, true)])
    && (root.Lines() > 0 && budget < root.Lines() && Fits(root, root.depth, budget) ==>
          exists cutoff, base, shares :: BestOutline(spans, root, budget, cutoff, base, shares))
    && (root.Lines() > 0 && budget < root.Lines() && !Fits(root, root.depth, budget) ==>
          spans == TruncationSpans(root.end, budget))
  }

  /** What is visible of the base stays visible. */
  lemma BaseStaysVisible(spans: seq<Span>, base: seq<Span>, shares: seq<int>, lo: int, hi: int, line: int)
    requires SpendsFairly(spans, base, shares) && Tiles(base, lo, hi) && Shows(base, line)
    ensures Shows(spans, line)
  {
    var i := ShowingSpan(base, line);
    assert ShowsShare(spans, base[i], shares[i]);
  }

  lemma {:induction false} ShowingSpan(spans: seq<Span>, line: int) returns (i: nat)
    requires Shows(spans, line)
    ensures i < |spans| && spans[i].visible && spans[i].Holds(line)
  {
    if spans[0].visible && spans[0].Holds(line) {
      i := 0;
    } else {
      var k := ShowingSpan(spans[1..], line);
      i := k + 1;
    }
  }

  /** A collapse shows whatever a fitting cutoff shows. */
  lemma CollapseShowsFitting(spans: seq<Span>, root: ContentNode, budget: int, d: int, line: int)
    requires WellFormed(root) && root.start == 1 && IsCollapse(spans, root, budget) && budget < root.Lines()
    requires Fits(root, d, budget) && 1 <= line <= root.end && VisibleAt(root, d, line)
    ensures TotalCost(spans) == budget && Shows(spans, line)
  {
    CostMonotone(root, d, d);
    RootFits(root, d, budget);
    var cutoff, base, shares :| BestOutline(spans, root, budget, cutoff, base, shares);
    hide CostAt, VisibleAt, SpendsFairly;
    BaseStaysVisible(spans, base, shares, 1, root.end, line);
  }

  lemma RootFits(root: ContentNode, d: int, budget: int)
    requires WellFormed(root) && Fits(root, d, budget)
    ensures budget >= 1 && (Fits(root, root.depth, budget) || d < root.depth)
  {
    CostMonotone(root, d, d);
    if d >= root.depth { CostMonotone(root, root.depth, d); }
  }

  lemma CollapseTiles(spans: seq<Span>, root: ContentNode, budget: int)
    requires WellFormed(root) && root.start == 1 && IsCollapse(spans, root, budget)
    ensures Tiles(spans, 1, root.end) <==> budget >= 1
  {
    if budget < root.Lines() {
      TruncationTiles(root.end, budget);
      CostMonotone(root, root.depth, root.depth);
    } else {
      assert [Span(1, root.end, true)][1..] == [];
    }
  }

  /** Of two regions that the cutoff hides the heads are shown, and the numbers of lines differ by more than
      one only where the smaller share is the whole region. */
  lemma RegionsShareFairly(spans: seq<Span>, root: ContentNode, budget: int, cutoff: int, base: seq<Span>, shares: seq<int>,
                           a: int, b: int, c: int, d: int)
    requires BestOutline(spans, root, budget, cutoff, base, shares)
    requires HidesRegion(root, cutoff, a, b) && HidesRegion(root, cutoff, c, d)
    ensures exists m: nat, n: nat ::
      && ShowsHead(spans, a, b, m) && ShowsHead(spans, c, d, n)
      && (m < b - a ==> n <= m + 1) && (n < d - c ==> m <= n + 1)
  {
    assert Span(a, b, false) in base && Span(c, d, false) in base;
    var i :| 0 <= i < |base| && base[i] == Span(a, b, false);
    var j :| 0 <= j < |base| && base[j] == Span(c, d, false);
    hide HidesRegion, OutlineAt, Shows;
    assert ShowsShare(spans, base[i], shares[i]) && ShowsShare(spans, base[j], shares[j]);
    assert ShowsHead(spans, a, b, shares[i]) && ShowsHead(spans, c, d, shares[j]);
  }

  /** Of the lines a..b exactly the first m are shown, or all of them once one would be left. */
  ghost predicate ShowsHead(spans: seq<Span>, a: int, b: int, m: nat) {
    m <= b - a && forall line :: a <= line <= b ==> (Shows(spans, line) <==> line < a + m || m == b - a)
  }

  /** `compute_collapse` */
  method ComputeCollapse(root: ContentNode, lineBudget: int) returns (spans: seq<Span>)
    requires root.start == 1 && (root.Lines() == 0 || WellFormed(root))
    ensures IsCollapse(spans, root, lineBudget)
  {
    var totalLines := root.Lines();
    if totalLines == 0 {
      return [];
    }
    if totalLines <= lineBudget {
      spans := [Span(root.start, root.end, true)];
      return;
    }
    hide *;
    var best, cutoff := DeepestFit(root, lineBudget);
    if best.None? {
      IsTruncation(root, lineBudget);
      return TruncationSpans(totalLines, lineBudget);
    }
    var bestSpans := best.value;
    OutlineTiles(bestSpans, root, cutoff);
    var surplus := lineBudget - TotalCost(bestSpans);
    ghost var shares := seq(|bestSpans|, _ => 0);
    NothingSpent(bestSpans, 1, root.end);
    if surplus > 0 {
      bestSpans, shares := PartiallyExpand(bestSpans, surplus, 1, root.end);
    }
    spans := Finalize(bestSpans);
    FinalizedTiles(bestSpans, 1, root.end);
    SameShares(spans, bestSpans, best.value, shares);
    IsBest(spans, root, lineBudget, cutoff, best.value, shares);
  }

  lemma OutlineTiles(spans: seq<Span>, root: ContentNode, cutoff: int)
    requires OutlineAt(spans, root, cutoff) && root.start == 1
    ensures Tiles(spans, 1, root.end) && NoTrivialCollapse(spans)
  {
  }

  lemma IsTruncation(root: ContentNode, budget: int)
    requires root.start == 1 && budget < root.Lines() && root.Lines() > 0 && !Fits(root, root.depth, budget)
    ensures IsCollapse(TruncationSpans(root.Lines(), budget), root, budget)
  {
  }

  /** Finalizing changes nothing that is shown. */
  lemma SameShares(spans: seq<Span>, expanded: seq<Span>, base: seq<Span>, shares: seq<int>)
    requires SpendsFairly(expanded, base, shares) && NoTrivialCollapse(expanded)
    requires forall line :: Shows(spans, line) <==> Shows(expanded, line) || Span(line, line, false) in expanded
    ensures SpendsFairly(spans, base, shares)
  {
    forall line ensures Span(line, line, false) !in expanded {
      forall i | 0 <= i < |expanded| ensures expanded[i] != Span(line, line, false) {
      }
    }
    hide Shows, ShownOf;
    forall i | 0 <= i < |base| ensures ShowsShare(spans, base[i], shares[i]) {
      assert ShowsShare(expanded, base[i], shares[i]);
    }
  }

  lemma IsBest(spans: seq<Span>, root: ContentNode, budget: int, cutoff: int, base: seq<Span>, shares: seq<int>)
    requires root.Lines() > 0 && budget < root.Lines() && Fits(root, root.depth, budget)
    requires Fits(root, cutoff, budget) && OutlineAt(base, root, cutoff) && ShowsFitting(base, root, budget)
    requires Tiles(spans, 1, root.end) && NoTrivialCollapse(spans) && NoAdjacentVisible(spans)
    requires TotalCost(spans) == budget && SpendsFairly(spans, base, shares)
    ensures IsCollapse(spans, root, budget)
  {
    assert BestOutline(spans, root, budget, cutoff, base, shares);
  }
}
