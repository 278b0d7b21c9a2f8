// The outline of a file, from its lines to the text an agent reads and parses back.
module Outline {
  import opened Collapse
  import opened Content
  import opened Indentation
  import opened LineNumbers
  import opened Optional
  import opened Rendering
  import opened Requirements
  import opened Spans
  import Markdown

  const TAB_WIDTH: nat := 4

  /** How a file's hierarchy is found; a Markdown file comes with its parsed blocks. */
  datatype Format = ByIndentation | ByHeadings(blocks: seq<Markdown.Block>)

  predicate Parsed(format: Format, total: nat) {
    format.ByHeadings? ==> Markdown.Proper(format.blocks, 1, total)
  }

  function Indents(lines: seq<string>): seq<Option<int>> {
    seq(|lines|, k requires 0 <= k < |lines| => Indent(lines[k], TAB_WIDTH))
  }

  /** Each line has the depth its indentation, or that of its nearest nonblank neighbours, gives it. */
  ghost predicate DepthsOf(lines: seq<string>, depths: seq<int>) {
    |depths| == |lines| && forall i :: 0 <= i < |lines| ==> IsDepthOf(Indents(lines), i, depths[i])
  }

  /** The spans show every line at or above a depth whose cutoff fits the budget. */
  ghost predicate ShowsShallow(spans: seq<Span>, root: ContentNode, depths: seq<int>, budget: int) {
    forall d, line :: Fits(root, d, budget) && 1 <= line <= |depths| && depths[line - 1] <= d ==> Shows(spans, line)
  }

  /** The tree of the file: by the depths of its lines, or by its blocks. */
  ghost predicate TreeOf(root: ContentNode, lines: seq<string>, format: Format, depths: seq<int>) {
    && root.start == 1 && root.end == |lines|
    && (lines != [] ==>
          && WellFormed(root)
          && match format
             case ByIndentation => DepthsOf(lines, depths) && IsHierarchy(root, depths)
             case ByHeadings(blocks) => root.depth == 0 && Markdown.DocumentBody(root.children, blocks, 1))
  }

  /** The choice between the two hierarchies. */
  method FileTree(lines: seq<string>, format: Format) returns (root: ContentNode, ghost depths: seq<int>)
    requires Parsed(format, |lines|)
    ensures TreeOf(root, lines, format, depths)
  {
    depths := [];
    match format {
      case ByHeadings(blocks) =>
        root := Markdown.BuildMarkdownHierarchy(blocks, |lines|);
      case ByIndentation =>
        hide DepthsOf, IsHierarchy, WellFormed;
        var found := ComputeDepths(lines, TAB_WIDTH);
        root := BuildHierarchy(found);
        depths := found;
        DepthsAre(lines, found);
        if lines != [] {
          HierarchyIsWellFormed(root, found);
        }
    }
  }

  lemma DepthsAre(lines: seq<string>, depths: seq<int>)
    requires |depths| == |lines| && forall i :: 0 <= i < |lines| ==> IsDepthOf(Indents(lines), i, depths[i])
    ensures DepthsOf(lines, depths)
  {
  }

  /** `compute_outline_spans` */
  method ComputeOutlineSpans(lines: seq<string>, format: Format, lineBudget: int)
    returns (spans: seq<Span>, ghost root: ContentNode, ghost depths: seq<int>)
    requires Parsed(format, |lines|)
    ensures TreeOf(root, lines, format, depths) && IsCollapse(spans, root, lineBudget) && InFile(spans, |lines|)
  {
    hide *;
    var tree, lineDepths := FileTree(lines, format);
    root, depths := tree, lineDepths;
    TreeCollapses(root, lines, format, depths);
    spans := ComputeCollapse(tree, lineBudget);
    SpansAreInFile(spans, root, lineBudget);
  }

  lemma TreeCollapses(root: ContentNode, lines: seq<string>, format: Format, depths: seq<int>)
    requires TreeOf(root, lines, format, depths)
    ensures root.start == 1 && root.end == |lines| && (root.Lines() == 0 || WellFormed(root))
  {
  }

  /** An outline over budget shows every line whose depth in the tree is at or above a cutoff that fits. */
  lemma OutlineShowsFitting(lines: seq<string>, format: Format, depths: seq<int>, root: ContentNode, spans: seq<Span>,
                            budget: int, d: int, line: int)
    requires lines != [] && TreeOf(root, lines, format, depths) && IsCollapse(spans, root, budget)
    requires budget < |lines| && Fits(root, d, budget) && 1 <= line <= |lines| && LineDepth(root, line) <= d
    ensures TotalCost(spans) == budget && Shows(spans, line)
  {
    ShallowLinesVisible(root, d, line);
    DepthAtLeast(root, line);
    CostMonotone(root, root.depth, d);
    CollapseShowsFitting(spans, root, budget, d, line);
  }

  /** By indentation that is every line whose own depth is at or above such a cutoff. */
  lemma OutlineShowsShallow(lines: seq<string>, depths: seq<int>, root: ContentNode, spans: seq<Span>, budget: int)
    requires lines != [] && TreeOf(root, lines, ByIndentation, depths) && IsCollapse(spans, root, budget) && budget < |lines|
    ensures ShowsShallow(spans, root, depths, budget)
  {
    forall d, line | Fits(root, d, budget) && 1 <= line <= |depths| && depths[line - 1] <= d ensures Shows(spans, line) {
      HierarchyKeepsDepths(root, depths, line);
      OutlineShowsFitting(lines, ByIndentation, depths, root, spans, budget, d, line);
    }
  }

  lemma {:induction false} TilesAreInFile(spans: seq<Span>, lo: int, total: nat)
    requires Tiles(spans, lo, total) && 1 <= lo
    ensures InFile(spans, total)
  {
    if spans != [] {
      TilesAreInFile(spans[1..], spans[0].end + 1, total);
      forall i | 1 <= i < |spans| ensures spans[i] == spans[1..][i - 1] {
      }
      TilesEnd(spans[1..], spans[0].end + 1, total);
    }
  }

  lemma {:induction false} TilesEnd(spans: seq<Span>, lo: int, hi: int)
    requires Tiles(spans, lo, hi)
    ensures lo <= hi + 1
  {
    if spans != [] { TilesEnd(spans[1..], spans[0].end + 1, hi); }
  }

  lemma SpansAreInFile(spans: seq<Span>, root: ContentNode, budget: int)
    requires root.start == 1 && root.end >= 0 && (root.Lines() == 0 || WellFormed(root)) && IsCollapse(spans, root, budget)
    ensures InFile(spans, root.end)
  {
    if root.Lines() > 0 {
      CollapseTiles(spans, root, budget);
      if budget >= 1 {
        TilesAreInFile(spans, 1, root.end);
      } else {
        CostMonotone(root, root.depth, root.depth);
      }
    }
  }

  /** `outline_and_format`: the text shows what the collapse of the file's tree selects, as far as the
      characters go, and an agent's parser gets back exactly the lines it shows. */
  method OutlineAndFormat(lines: seq<string>, format: Format, lineBudget: int, charBudget: int)
    returns (outline: RenderedOutline, ghost spans: seq<Span>, ghost root: ContentNode, ghost depths: seq<int>)
    requires Parsed(format, |lines|)
    ensures TreeOf(root, lines, format, depths) && IsCollapse(spans, root, lineBudget)
    ensures InFile(spans, |lines|) && outline == Rendered(Source(lines, None), spans, charBudget)
    ensures Source(lines, None).Proper() ==> ParseContent(outline.text) == Some(outline.visibleLines)
  {
    hide *;
    var source := Source(lines, None);
    var chosen, tree, lineDepths := ComputeOutlineSpans(lines, format, lineBudget);
    spans, root, depths := chosen, tree, lineDepths;
    outline := RenderOutline(source, chosen, charBudget, []);
    if source.Proper() {
      RenderedParsesBack(source, chosen, charBudget);
    }
  }
}
