// The content hierarchy: a tree of line ranges with nesting depths.
module Content {

  /** A range of 1-based lines at a nesting depth, with the deeper ranges inside it. */
  datatype ContentNode = ContentNode(start: int, end: int, depth: int, children: seq<ContentNode>) {
    function Lines(): int { end - start + 1 }
  }

  /** Nonempty ranges, with ordered, disjoint, strictly deeper children inside their parent. */
  predicate WellFormed(node: ContentNode)
    decreases node, 1
  {
    node.start <= node.end && WellFormedChildren(node.children, node.start, node.end, node.depth)
  }

  predicate WellFormedChildren(children: seq<ContentNode>, lo: int, hi: int, depth: int)
    decreases children, 0
  {
    children == [] ||
    (var c := children[0];
     && lo <= c.start && c.end <= hi && c.depth > depth
     && WellFormed(c)
     && WellFormedChildren(children[1..], c.end + 1, hi, depth))
  }

  /** The depth of the innermost node that holds the line. */
  function LineDepth(node: ContentNode, line: int): int
    decreases node, 1
  {
    DepthBelow(node.children, node.depth, line)
  }

  function DepthBelow(children: seq<ContentNode>, depth: int, line: int): int
    decreases children, 0
  {
    if children == [] then depth
    else if children[0].start <= line <= children[0].end then LineDepth(children[0], line)
    else DepthBelow(children[1..], depth, line)
  }
}
