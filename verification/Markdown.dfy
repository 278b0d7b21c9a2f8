// Heading-based sectioning of Markdown blocks into a content hierarchy.
module Markdown {
  import opened Content
  import opened Optional

  /** Heading levels count from 1. */
  type Level = n: int | 1 <= n witness 1

  /** A block and the source lines it spans: a heading, a container, or anything else. */
  datatype Block =
    | Heading(level: Level, start: int, end: int)
    | Quote(inner: seq<Block>, start: int, end: int)
    | Bullets(items: seq<Item>, start: int, end: int)
    | Other(start: int, end: int)

  /** A list item: its blocks and the source lines it spans. */
  datatype Item = Item(blocks: seq<Block>, start: int, end: int)

  // ----- what the parser delivers

  /** Ordered, disjoint, nonempty ranges between lo and hi; nested blocks lie in their container. */
  predicate Proper(blocks: seq<Block>, lo: int, hi: int)
    decreases blocks
  {
    blocks == [] ||
    (&& lo <= blocks[0].start <= blocks[0].end <= hi
     && ProperInside(blocks[0])
     && Proper(blocks[1..], blocks[0].end + 1, hi))
  }

  predicate ProperInside(b: Block)
    decreases b
  {
    match b
    case Heading(_, _, _) => true
    case Quote(inner, start, end) => Proper(inner, start, end)
    case Bullets(items, start, end) => ProperItems(items, start, end)
    case Other(_, _) => true
  }

  predicate ProperItems(items: seq<Item>, lo: int, hi: int)
    decreases items
  {
    items == [] ||
    (&& lo <= items[0].start <= items[0].end <= hi
     && Proper(items[0].blocks, items[0].start, items[0].end)
     && ProperItems(items[1..], items[0].end + 1, hi))
  }

  // ----- sizes, for termination

  function Size(blocks: seq<Block>): nat
    decreases blocks
  {
    if blocks == [] then 0 else 1 + InnerSize(blocks[0]) + Size(blocks[1..])
  }

  function InnerSize(b: Block): nat
    decreases b
  {
    match b
    case Quote(inner, _, _) => Size(inner)
    case Bullets(items, _, _) => ItemsSize(items)
    case _ => 0
  }

  function ItemsSize(items: seq<Item>): nat
    decreases items
  {
    if items == [] then 0 else 1 + Size(items[0].blocks) + ItemsSize(items[1..])
  }

  lemma {:induction false} SizeAppend(a: seq<Block>, b: seq<Block>)
    ensures Size(a + b) == Size(a) + Size(b)
  {
    if a == [] {
      assert a + b == b;
    } else {
      assert (a + b)[1..] == a[1..] + b;
      SizeAppend(a[1..], b);
    }
  }

  lemma SizeCut(blocks: seq<Block>, i: nat)
    requires i <= |blocks|
    ensures Size(blocks) == Size(blocks[..i]) + Size(blocks[i..])
  {
    assert blocks == blocks[..i] + blocks[i..];
    SizeAppend(blocks[..i], blocks[i..]);
  }

  lemma SizeAt(blocks: seq<Block>, i: nat)
    requires i < |blocks|
    ensures Size(blocks[i..]) == 1 + InnerSize(blocks[i]) + Size(blocks[i + 1..])
    ensures Size(blocks) >= 1 + InnerSize(blocks[i]) + i
  {
    SizeCut(blocks, i);
    SizeAtLeast(blocks[..i]);
    assert blocks[i..][1..] == blocks[i + 1..];
  }

  lemma {:induction false} SizeAtLeast(blocks: seq<Block>)
    ensures Size(blocks) >= |blocks|
  {
    if blocks != [] { SizeAtLeast(blocks[1..]); }
  }

  // ----- which blocks contain headings

  /** `_contains_heading` */
  predicate ContainsHeading(b: Block)
    decreases b
  {
    match b
    case Heading(_, _, _) => true
    case Quote(inner, _, _) => AnyHeading(inner)
    case Bullets(items, _, _) => AnyItemHeading(items)
    case Other(_, _) => false
  }

  predicate AnyHeading(blocks: seq<Block>)
    decreases blocks
  {
    blocks != [] && (ContainsHeading(blocks[0]) || AnyHeading(blocks[1..]))
  }

  predicate AnyItemHeading(items: seq<Item>)
    decreases items
  {
    items != [] && (AnyHeading(items[0].blocks) || AnyItemHeading(items[1..]))
  }

  /** A container with headings inside gets a node of its own. */
  predicate Promotable(b: Block) {
    (b.Quote? || b.Bullets?) && ContainsHeading(b)
  }

  // ----- reference definition: the hierarchy of a block list

  /** The number of blocks in the section that the first block heads: up to the next heading of
      its own level or lower. */
  function SectionLength(blocks: seq<Block>): (n: nat)
    requires blocks != [] && blocks[0].Heading?
    ensures 1 <= n <= |blocks|
  {
    1 + DeeperCount(blocks[1..], blocks[0].level)
  }

  /** The number of leading blocks before a heading of the level or lower. */
  function DeeperCount(blocks: seq<Block>, level: int): (n: nat)
    ensures n <= |blocks|
    ensures forall k :: 0 <= k < n && blocks[k].Heading? ==> blocks[k].level > level
    ensures n < |blocks| ==> blocks[n].Heading? && blocks[n].level <= level
  {
    if blocks == [] || (blocks[0].Heading? && blocks[0].level <= level) then 0
    else 1 + DeeperCount(blocks[1..], level)
  }

  /** The children account for the blocks in order: a node for each promotable container, and a
      node for each section, every one at the given depth. */
  predicate BodyOf(children: seq<ContentNode>, blocks: seq<Block>, depth: int)
    decreases Size(blocks), 1, |blocks|
  {
    if blocks == [] then children == []
    else
      SizeAt(blocks, 0);
      assert blocks[0..] == blocks;
      if blocks[0].Heading? then
        var n := SectionLength(blocks);
        SizeCut(blocks, n);
        SizeAtLeast(blocks[..n]);
        && children != []
        && IsSection(children[0], blocks[..n], depth)
        && BodyOf(children[1..], blocks[n..], depth)
      else if Promotable(blocks[0]) then
        && children != []
        && IsPromoted(children[0], blocks[0], depth)
        && BodyOf(children[1..], blocks[1..], depth)
      else
        BodyOf(children, blocks[1..], depth)
  }

  predicate IsSection(node: ContentNode, blocks: seq<Block>, depth: int)
    decreases Size(blocks), 0, |blocks|
  {
    && blocks != []
    && node.start == blocks[0].start && node.end == blocks[|blocks| - 1].end && node.depth == depth
    && (SizeAt(blocks, 0); assert blocks[0..] == blocks; BodyOf(node.children, blocks[1..], depth + 1))
  }

  predicate IsPromoted(node: ContentNode, b: Block, depth: int)
    decreases 1 + InnerSize(b), 0, 0
  {
    && node.start == b.start && node.end == b.end && node.depth == depth
    && match b
       case Quote(inner, _, _) => DocumentBody(node.children, inner, depth + 1)
       case Bullets(items, _, _) => ItemsOf(node.children, items, depth + 1)
       case _ => false
  }

  /** A document's leading level-1 heading is its title, not a section. */
  predicate HasTitle(blocks: seq<Block>) {
    blocks != [] && blocks[0].Heading? && blocks[0].level == 1
  }

  predicate DocumentBody(children: seq<ContentNode>, blocks: seq<Block>, depth: int)
    decreases Size(blocks), 2, |blocks|
  {
    if HasTitle(blocks) then
      SizeAt(blocks, 0);
      assert blocks[0..] == blocks;
      BodyOf(children, blocks[1..], depth)
    else BodyOf(children, blocks, depth)
  }

  predicate ItemsOf(children: seq<ContentNode>, items: seq<Item>, depth: int)
    decreases ItemsSize(items), 0, |items|
  {
    if items == [] then children == []
    else if AnyHeading(items[0].blocks) then
      && children != []
      && children[0].start == items[0].start && children[0].end == items[0].end && children[0].depth == depth
      && DocumentBody(children[0].children, items[0].blocks, depth + 1)
      && ItemsOf(children[1..], items[1..], depth)
    else ItemsOf(children, items[1..], depth)
  }

  // ----- building

  /** `children` account for what precedes `rest` in `blocks`: any body of the rest completes them. */
  ghost predicate Completes(children: seq<ContentNode>, blocks: seq<Block>, rest: seq<Block>, depth: int) {
    forall tail :: BodyOf(tail, rest, depth) ==> BodyOf(children + tail, blocks, depth)
  }

  lemma CompletesStart(blocks: seq<Block>, depth: int)
    ensures Completes([], blocks, blocks, depth)
  {
    forall tail | BodyOf(tail, blocks, depth) ensures BodyOf([] + tail, blocks, depth) {
      assert [] + tail == tail;
    }
  }

  lemma CompletesNode(children: seq<ContentNode>, blocks: seq<Block>, rest: seq<Block>, depth: int,
                      node: ContentNode, n: nat)
    requires Completes(children, blocks, rest, depth) && rest != []
    requires if rest[0].Heading? then n == SectionLength(rest) && IsSection(node, rest[..n], depth)
             else n == 1 && Promotable(rest[0]) && IsPromoted(node, rest[0], depth)
    ensures Completes(children + [node], blocks, rest[n..], depth)
  {
    forall tail | BodyOf(tail, rest[n..], depth) ensures BodyOf(children + [node] + tail, blocks, depth) {
      assert ([node] + tail)[1..] == tail;
      assert BodyOf([node] + tail, rest, depth);
      assert children + ([node] + tail) == children + [node] + tail;
    }
  }

  lemma CompletesSkip(children: seq<ContentNode>, blocks: seq<Block>, rest: seq<Block>, depth: int)
    requires Completes(children, blocks, rest, depth) && rest != []
    requires !rest[0].Heading? && !Promotable(rest[0])
    ensures Completes(children, blocks, rest[1..], depth)
  {
  }

  lemma CompletesAppend(children: seq<ContentNode>, blocks: seq<Block>, rest: seq<Block>, depth: int, tail: seq<ContentNode>)
    requires Completes(children, blocks, rest, depth) && BodyOf(tail, rest, depth)
    ensures BodyOf(children + tail, blocks, depth)
  {
  }

  lemma CompletesEnd(children: seq<ContentNode>, blocks: seq<Block>, depth: int)
    requires Completes(children, blocks, [], depth)
    ensures BodyOf(children, blocks, depth)
  {
    assert BodyOf([], [], depth);
    assert children + [] == children;
  }

  /** `_maybe_promote_container` */
  method MaybePromoteContainer(b: Block, depth: int) returns (r: Option<ContentNode>)
    ensures r.Some? <==> Promotable(b)
    ensures r.Some? ==> IsPromoted(r.value, b, depth)
    decreases 1 + InnerSize(b), 0, 0
  {
    match b
    case Quote(inner, start, end) =>
      if !ContainsHeading(b) { return None; }
      var node := BuildDocumentSection(inner, start, end, depth);
      r := Some(node);
    case Bullets(items, start, end) =>
      if !ContainsHeading(b) { return None; }
      var children := ItemSections(items, depth + 1);
      ItemsNonempty(children, items, depth + 1);
      if children == [] { return None; }
      r := Some(ContentNode(start, end, depth, children));
    case _ =>
      r := None;
  }

  lemma {:induction false} ItemsNonempty(children: seq<ContentNode>, items: seq<Item>, depth: int)
    requires ItemsOf(children, items, depth) && AnyItemHeading(items)
    ensures children != []
  {
    if !AnyHeading(items[0].blocks) { ItemsNonempty(children, items[1..], depth); }
  }

  /** The loop over list items: a section for each item with headings. */
  method ItemSections(items: seq<Item>, depth: int) returns (children: seq<ContentNode>)
    ensures ItemsOf(children, items, depth)
    decreases ItemsSize(items), 1, 0
  {
    children := [];
    if items != [] {
      var rest := ItemSections(items[1..], depth);
      if AnyHeading(items[0].blocks) {
        var section := BuildDocumentSection(items[0].blocks, items[0].start, items[0].end, depth);
        children := [section] + rest;
        assert children[1..] == rest;
      } else {
        children := rest;
      }
    }
  }

  /** The lede loop shared by documents and sections: promoted containers before the first heading. */
  method Lede(blocks: seq<Block>, first: nat, depth: int) returns (children: seq<ContentNode>, i: nat)
    requires first <= |blocks|
    ensures first <= i <= |blocks| && (i < |blocks| ==> blocks[i].Heading?)
    ensures Completes(children, blocks[first..], blocks[i..], depth)
    decreases Size(blocks[first..]), 2, 0
  {
    children := [];
    i := first;
    hide Completes, BodyOf, IsPromoted, Size, InnerSize, Promotable;
    CompletesStart(blocks[first..], depth);
    while i < |blocks| && !blocks[i].Heading?
      invariant first <= i <= |blocks|
      invariant Completes(children, blocks[first..], blocks[i..], depth)
    {
      LedeSize(blocks, first, i);
      var promoted := MaybePromoteContainer(blocks[i], depth);
      assert blocks[i..][1..] == blocks[i + 1..];
      if promoted.Some? {
        CompletesNode(children, blocks[first..], blocks[i..], depth, promoted.value, 1);
        children := children + [promoted.value];
      } else {
        CompletesSkip(children, blocks[first..], blocks[i..], depth);
      }
      i := i + 1;
    }
  }

  lemma LedeSize(blocks: seq<Block>, first: nat, i: nat)
    requires first <= i < |blocks|
    ensures 1 + InnerSize(blocks[i]) <= Size(blocks[first..])
  {
    var part := blocks[first..];
    assert part[i - first] == blocks[i];
    SizeAt(part, i - first);
  }

  /** `_build_document_section` */
  method BuildDocumentSection(blocks: seq<Block>, start: int, end: int, baseDepth: int) returns (node: ContentNode)
    ensures node.start == start && node.end == end && node.depth == baseDepth
    ensures DocumentBody(node.children, blocks, baseDepth + 1)
    decreases Size(blocks), 3, 0
  {
    var i := 0;
    if HasTitle(blocks) {
      i := 1;
    }
    var first := i;
    SizeCut(blocks, first);
    var children;
    children, i := Lede(blocks, first, baseDepth + 1);
    SizeCut(blocks, i);
    SizeCut(blocks[first..], i - first);
    assert blocks[first..][i - first..] == blocks[i..];
    assert blocks[0..] == blocks;
    LevelsArePositive(blocks[i..]);
    var sections := CollectChildSections(blocks, i, 0, baseDepth);
    CompletesAppend(children, blocks[first..], blocks[i..], baseDepth + 1, sections);
    node := ContentNode(start, end, baseDepth, children + sections);
  }

  lemma {:induction false} LevelsArePositive(blocks: seq<Block>)
    ensures DeeperCount(blocks, 0) == |blocks|
  {
    if blocks != [] { LevelsArePositive(blocks[1..]); }
  }

  /** `_collect_child_sections`. Both callers pass only headings above the section level, so its
      early exit is never taken and every block is accounted for. */
  method CollectChildSections(blocks: seq<Block>, start: nat, sectionLevel: int, baseDepth: int)
    returns (children: seq<ContentNode>)
    requires start <= |blocks| && (start < |blocks| ==> blocks[start].Heading?)
    requires DeeperCount(blocks[start..], sectionLevel) == |blocks| - start
    ensures BodyOf(children, blocks[start..], baseDepth + 1)
    decreases Size(blocks[start..]), 1, 0
  {
    children := [];
    var i := start;
    CompletesStart(blocks[start..], baseDepth + 1);
    while i < |blocks|
      invariant start <= i <= |blocks| && (i < |blocks| ==> blocks[i].Heading?)
      invariant Completes(children, blocks[start..], blocks[i..], baseDepth + 1)
    {
      assert blocks[i] == blocks[start..][i - start];
      if blocks[i].level <= sectionLevel {
        break;
      }
      var sectionStart := i;
      i := SectionEnd(blocks, sectionStart);
      SectionSize(blocks, start, sectionStart, i);
      SectionIsDeeper(blocks, sectionStart);
      var section := BuildOrdinarySection(blocks[sectionStart..i], blocks[sectionStart].level, baseDepth + 1);
      ghost var rest := blocks[sectionStart..];
      assert rest[..i - sectionStart] == blocks[sectionStart..i];
      assert rest[i - sectionStart..] == blocks[i..];
      CompletesNode(children, blocks[start..], rest, baseDepth + 1, section, i - sectionStart);
      children := children + [section];
    }
    assert blocks[|blocks|..] == [];
    CompletesEnd(children, blocks[start..], baseDepth + 1);
  }

  lemma SectionIsDeeper(blocks: seq<Block>, start: nat)
    requires start < |blocks| && blocks[start].Heading?
    ensures var n := SectionLength(blocks[start..]);
      DeeperCount(blocks[start..start + n][1..], blocks[start].level) == n - 1
  {
    var n := SectionLength(blocks[start..]);
    var rest := blocks[start..][1..];
    assert blocks[start..start + n][1..] == rest[..n - 1];
    DeeperWithin(rest, n - 1, blocks[start].level);
  }

  lemma SectionSize(blocks: seq<Block>, start: nat, sectionStart: nat, i: nat)
    requires start <= sectionStart <= i <= |blocks|
    ensures Size(blocks[sectionStart..i]) <= Size(blocks[start..])
  {
    SizeCut(blocks[start..], sectionStart - start);
    assert blocks[start..][sectionStart - start..] == blocks[sectionStart..];
    SizeCut(blocks[sectionStart..], i - sectionStart);
    assert blocks[sectionStart..][..i - sectionStart] == blocks[sectionStart..i];
  }

  /** The inner loop of `_collect_child_sections`. */
  method SectionEnd(blocks: seq<Block>, start: nat) returns (i: nat)
    requires start < |blocks| && blocks[start].Heading?
    ensures i <= |blocks| && i == start + SectionLength(blocks[start..])
    ensures i < |blocks| ==> blocks[i].Heading?
  {
    var level := blocks[start].level;
    i := start + 1;
    assert blocks[start..][1..] == blocks[start + 1..];
    while i < |blocks|
      invariant start < i <= |blocks|
      invariant i + DeeperCount(blocks[i..], level) == start + SectionLength(blocks[start..])
    {
      if blocks[i].Heading? && blocks[i].level <= level {
        break;
      }
      assert blocks[i..][1..] == blocks[i + 1..];
      i := i + 1;
    }
  }

  /** `_build_ordinary_section` */
  method BuildOrdinarySection(blocks: seq<Block>, sectionHeadingLevel: int, depth: int) returns (node: ContentNode)
    requires blocks != [] && DeeperCount(blocks[1..], sectionHeadingLevel) == |blocks| - 1
    ensures IsSection(node, blocks, depth)
    decreases Size(blocks), 0, 0
  {
    SizeAt(blocks, 0);
    assert blocks[0..] == blocks;
    var children, i := Lede(blocks, 1, depth + 1);
    SizeCut(blocks[1..], i - 1);
    assert blocks[1..][i - 1..] == blocks[i..];
    DeeperSuffix(blocks[1..], i - 1, sectionHeadingLevel);
    var sections := CollectChildSections(blocks, i, sectionHeadingLevel, depth);
    CompletesAppend(children, blocks[1..], blocks[i..], depth + 1, sections);
    node := ContentNode(blocks[0].start, blocks[|blocks| - 1].end, depth, children + sections);
  }

  lemma {:induction false} DeeperSuffix(blocks: seq<Block>, i: nat, level: int)
    requires i <= |blocks| && DeeperCount(blocks, level) == |blocks|
    ensures DeeperCount(blocks[i..], level) == |blocks| - i
  {
    if i > 0 {
      DeeperSuffix(blocks[1..], i - 1, level);
      assert blocks[1..][i - 1..] == blocks[i..];
    }
  }

  // ----- what the hierarchy promises

  lemma {:induction false} ProperCut(blocks: seq<Block>, lo: int, hi: int, n: nat)
    requires Proper(blocks, lo, hi) && 0 < n <= |blocks|
    ensures Proper(blocks[..n], lo, blocks[n - 1].end)
    ensures Proper(blocks[n..], blocks[n - 1].end + 1, hi)
    ensures lo <= blocks[0].start <= blocks[n - 1].end <= hi
  {
    if n > 1 {
      ProperCut(blocks[1..], blocks[0].end + 1, hi, n - 1);
      assert blocks[1..][..n - 1] == blocks[..n][1..];
      assert blocks[1..][n - 1..] == blocks[n..];
    } else {
      assert blocks[..1][1..] == [];
    }
  }

  /** The tree of properly ranged blocks meets the collapse policy's precondition. */
  lemma {:induction false} BodyIsWellFormed(children: seq<ContentNode>, blocks: seq<Block>, depth: int, lo: int, hi: int)
    requires BodyOf(children, blocks, depth) && Proper(blocks, lo, hi)
    ensures WellFormedChildren(children, lo, hi, depth - 1)
    decreases Size(blocks), 1, |blocks|
  {
    if blocks != [] {
      SizeAt(blocks, 0);
      assert blocks[0..] == blocks;
      if blocks[0].Heading? {
        var n := SectionLength(blocks);
        SizeCut(blocks, n);
        SizeAtLeast(blocks[..n]);
        ProperCut(blocks, lo, hi, n);
        SectionIsWellFormed(children[0], blocks[..n], depth, lo, blocks[n - 1].end);
        BodyIsWellFormed(children[1..], blocks[n..], depth, blocks[n - 1].end + 1, hi);
      } else if Promotable(blocks[0]) {
        PromotedIsWellFormed(children[0], blocks[0], depth);
        BodyIsWellFormed(children[1..], blocks[1..], depth, blocks[0].end + 1, hi);
      } else {
        BodyIsWellFormed(children, blocks[1..], depth, blocks[0].end + 1, hi);
        LowerStart(children, blocks[0].end + 1, lo, hi, depth - 1);
      }
    }
  }

  lemma LowerStart(children: seq<ContentNode>, from: int, lo: int, hi: int, depth: int)
    requires WellFormedChildren(children, from, hi, depth) && lo <= from
    ensures WellFormedChildren(children, lo, hi, depth)
  {
  }

  lemma {:induction false} SectionIsWellFormed(node: ContentNode, blocks: seq<Block>, depth: int, lo: int, hi: int)
    requires IsSection(node, blocks, depth) && Proper(blocks, lo, hi)
    ensures WellFormed(node) && WellFormedChildren(node.children, blocks[0].end + 1, node.end, depth)
    decreases Size(blocks), 0, |blocks|
  {
    SizeAt(blocks, 0);
    assert blocks[0..] == blocks;
    ProperCut(blocks, lo, hi, |blocks|);
    assert blocks[..|blocks|] == blocks;
    BodyIsWellFormed(node.children, blocks[1..], depth + 1, blocks[0].end + 1, node.end);
    LowerStart(node.children, blocks[0].end + 1, node.start, node.end, depth);
  }

  lemma {:induction false} PromotedIsWellFormed(node: ContentNode, b: Block, depth: int)
    requires IsPromoted(node, b, depth) && b.start <= b.end && ProperInside(b)
    ensures WellFormed(node)
    decreases 1 + InnerSize(b), 0, 0
  {
    match b
    case Quote(inner, start, end) => DocumentIsWellFormed(node.children, inner, depth + 1, start, end);
    case Bullets(items, start, end) => ItemsAreWellFormed(node.children, items, depth + 1, start, end);
    case _ =>
  }

  lemma {:induction false} DocumentIsWellFormed(children: seq<ContentNode>, blocks: seq<Block>, depth: int, lo: int, hi: int)
    requires DocumentBody(children, blocks, depth) && Proper(blocks, lo, hi)
    ensures WellFormedChildren(children, lo, hi, depth - 1)
    decreases Size(blocks), 2, |blocks|
  {
    if HasTitle(blocks) {
      SizeAt(blocks, 0);
      assert blocks[0..] == blocks;
      BodyIsWellFormed(children, blocks[1..], depth, blocks[0].end + 1, hi);
      LowerStart(children, blocks[0].end + 1, lo, hi, depth - 1);
    } else {
      BodyIsWellFormed(children, blocks, depth, lo, hi);
    }
  }

  lemma {:induction false} ItemsAreWellFormed(children: seq<ContentNode>, items: seq<Item>, depth: int, lo: int, hi: int)
    requires ItemsOf(children, items, depth) && ProperItems(items, lo, hi)
    ensures WellFormedChildren(children, lo, hi, depth - 1)
    decreases ItemsSize(items), 0, |items|
  {
    if items != [] {
      if AnyHeading(items[0].blocks) {
        DocumentIsWellFormed(children[0].children, items[0].blocks, depth + 1, items[0].start, items[0].end);
        ItemsAreWellFormed(children[1..], items[1..], depth, items[0].end + 1, hi);
      } else {
        ItemsAreWellFormed(children, items[1..], depth, items[0].end + 1, hi);
        LowerStart(children, items[0].end + 1, lo, hi, depth - 1);
      }
    }
  }

  // ----- every heading starts exactly one section

  /** The nodes below, at any depth, that start at the line. */
  function StartingAt(children: seq<ContentNode>, line: int): seq<ContentNode>
    decreases children
  {
    if children == [] then []
    else
      var c := children[0];
      (if c.start == line then [c] else []) + StartingAt(c.children, line) + StartingAt(children[1..], line)
  }

  lemma {:induction false} NoneOutside(children: seq<ContentNode>, lo: int, hi: int, depth: int, line: int)
    requires WellFormedChildren(children, lo, hi, depth) && !(lo <= line <= hi)
    ensures StartingAt(children, line) == []
    decreases children
  {
    if children != [] {
      var c := children[0];
      ChildBounds(children, lo, hi, depth);
      NoneOutside(c.children, c.start, c.end, c.depth, line);
      NoneOutside(children[1..], c.end + 1, hi, depth, line);
    }
  }

  lemma ChildBounds(children: seq<ContentNode>, lo: int, hi: int, depth: int)
    requires WellFormedChildren(children, lo, hi, depth) && children != []
    ensures lo <= children[0].start <= children[0].end <= hi
  {
  }

  /** A heading's section inside a longer section is the same as in the whole document. */
  lemma SectionInside(blocks: seq<Block>, n: nat, k: nat)
    requires blocks != [] && blocks[0].Heading? && n == SectionLength(blocks)
    requires 0 < k < n && blocks[k].Heading?
    ensures SectionLength(blocks[..n][k..]) == SectionLength(blocks[k..])
  {
    assert blocks[1..][k - 1] == blocks[k];
    DeeperWithin(blocks[k + 1..], n - k - 1, blocks[k].level);
    assert blocks[k..][1..] == blocks[k + 1..];
    assert blocks[..n][k..][1..] == blocks[k + 1..][..n - k - 1];
    if n < |blocks| {
      assert blocks[k + 1..][n - k - 1] == blocks[n];
      assert blocks[1..][n - 1] == blocks[n];
    }
  }

  lemma {:induction false} DeeperWithin(blocks: seq<Block>, n: nat, level: int)
    requires n <= |blocks|
    requires n < |blocks| ==> blocks[n].Heading? && blocks[n].level <= level
    ensures DeeperCount(blocks[..n], level) == DeeperCount(blocks, level)
  {
    if n > 0 && !(blocks[0].Heading? && blocks[0].level <= level) {
      DeeperWithin(blocks[1..], n - 1, level);
      assert blocks[..n][1..] == blocks[1..][..n - 1];
    }
  }

  /** The heading at index k starts exactly one node, which ends with the last block before the
      next heading of its own level or lower. */
  ghost predicate StartsOneSection(children: seq<ContentNode>, blocks: seq<Block>, k: nat)
    requires k < |blocks| && blocks[k].Heading?
  {
    var found := StartingAt(children, blocks[k].start);
    |found| == 1 && found[0].end == blocks[k + SectionLength(blocks[k..]) - 1].end
  }

  lemma {:induction false} HeadingStartsOneSection(
      children: seq<ContentNode>, blocks: seq<Block>, depth: int, lo: int, hi: int, k: nat)
    requires BodyOf(children, blocks, depth) && Proper(blocks, lo, hi)
    requires k < |blocks| && blocks[k].Heading?
    ensures StartsOneSection(children, blocks, k)
    decreases Size(blocks), 1, |blocks|
  {
    SizeAt(blocks, 0);
    assert blocks[0..] == blocks;
    hide StartsOneSection, StartingAt;
    if blocks[0].Heading? {
      var n := SectionLength(blocks);
      SizeCut(blocks, n);
      SizeAtLeast(blocks[..n]);
      ProperCut(blocks, lo, hi, n);
      if k < n {
        if k > 0 {
          HeadingInSection(children[0], blocks[..n], depth, lo, blocks[n - 1].end, k);
        }
        FoundInFirst(children, blocks, depth, lo, hi, k);
      } else {
        HeadingStartsOneSection(children[1..], blocks[n..], depth, blocks[n - 1].end + 1, hi, k - n);
        FoundAfterFirst(children, blocks, depth, lo, hi, k);
      }
    } else if Promotable(blocks[0]) {
      HeadingStartsOneSection(children[1..], blocks[1..], depth, blocks[0].end + 1, hi, k - 1);
      FoundAfterContainer(children, blocks, depth, lo, hi, k);
    } else {
      HeadingStartsOneSection(children, blocks[1..], depth, blocks[0].end + 1, hi, k - 1);
      FoundLater(children, children, blocks, 1, k);
    }
  }

  /** What holds of a heading counted from block n on holds of it in the whole list. */
  lemma FoundLater(children: seq<ContentNode>, later: seq<ContentNode>, blocks: seq<Block>, n: nat, k: nat)
    requires n <= k < |blocks| && blocks[k].Heading? && StartsOneSection(later, blocks[n..], k - n)
    requires StartingAt(children, blocks[k].start) == StartingAt(later, blocks[k].start)
    ensures StartsOneSection(children, blocks, k)
  {
    hide SectionLength, StartingAt;
    var part := blocks[n..];
    assert part[k - n..] == blocks[k..];
    var last := k + SectionLength(blocks[k..]) - 1;
    assert part[last - n] == blocks[last];
  }

  /** The heading is the first section's own, or inside it. */
  lemma FoundInFirst(children: seq<ContentNode>, blocks: seq<Block>, depth: int, lo: int, hi: int, k: nat)
    requires blocks != [] && blocks[0].Heading? && BodyOf(children, blocks, depth) && Proper(blocks, lo, hi)
    requires k < SectionLength(blocks) && blocks[k].Heading?
    requires k > 0 ==> StartsOneSection(children[0].children, blocks[..SectionLength(blocks)], k)
    ensures StartsOneSection(children, blocks, k)
  {
    var n, line, section := SectionLength(blocks), blocks[k].start, children[0];
    ProperCut(blocks, lo, hi, n);
    SectionIsWellFormed(section, blocks[..n], depth, lo, blocks[n - 1].end);
    BodyIsWellFormed(children[1..], blocks[n..], depth, blocks[n - 1].end + 1, hi);
    ProperAt(blocks[..n], lo, blocks[n - 1].end, k);
    NoneOutside(children[1..], blocks[n - 1].end + 1, hi, depth - 1, line);
    if k == 0 {
      assert blocks[0..] == blocks;
      NoneOutside(section.children, blocks[0].end + 1, section.end, depth, line);
    } else {
      SectionInside(blocks, n, k);
    }
  }

  lemma FoundAfterFirst(children: seq<ContentNode>, blocks: seq<Block>, depth: int, lo: int, hi: int, k: nat)
    requires blocks != [] && blocks[0].Heading? && BodyOf(children, blocks, depth) && Proper(blocks, lo, hi)
    requires SectionLength(blocks) <= k < |blocks| && blocks[k].Heading?
    requires StartsOneSection(children[1..], blocks[SectionLength(blocks)..], k - SectionLength(blocks))
    ensures StartsOneSection(children, blocks, k)
  {
    hide *;
    FirstEndsBefore(children, blocks, depth, lo, hi, k);
    FirstHasNone(children, blocks[k].start);
    FoundLater(children, children[1..], blocks, SectionLength(blocks), k);
  }

  lemma FirstEndsBefore(children: seq<ContentNode>, blocks: seq<Block>, depth: int, lo: int, hi: int, k: nat)
    requires blocks != [] && blocks[0].Heading? && BodyOf(children, blocks, depth) && Proper(blocks, lo, hi)
    requires SectionLength(blocks) <= k < |blocks|
    ensures children != []
    ensures children[0].start != blocks[k].start && StartingAt(children[0].children, blocks[k].start) == []
  {
    var n, line, section := SectionLength(blocks), blocks[k].start, children[0];
    ProperCut(blocks, lo, hi, n);
    SectionIsWellFormed(section, blocks[..n], depth, lo, blocks[n - 1].end);
    ProperAt(blocks[n..], blocks[n - 1].end + 1, hi, k - n);
    ProperAt(blocks[..n], lo, blocks[n - 1].end, 0);
    NoneOutside(section.children, blocks[0].end + 1, section.end, depth, line);
  }

  lemma FoundAfterContainer(children: seq<ContentNode>, blocks: seq<Block>, depth: int, lo: int, hi: int, k: nat)
    requires blocks != [] && Promotable(blocks[0]) && BodyOf(children, blocks, depth) && Proper(blocks, lo, hi)
    requires 0 < k < |blocks| && blocks[k].Heading?
    requires StartsOneSection(children[1..], blocks[1..], k - 1)
    ensures StartsOneSection(children, blocks, k)
  {
    var line := blocks[k].start;
    ProperAt(blocks[1..], blocks[0].end + 1, hi, k - 1);
    PromotedIsWellFormed(children[0], blocks[0], depth);
    hide BodyOf, Proper, StartingAt, StartsOneSection;
    NoneOutside(children[0].children, blocks[0].start, blocks[0].end, depth, line);
    FirstHasNone(children, line);
    FoundLater(children, children[1..], blocks, 1, k);
  }

  lemma FirstHasNone(children: seq<ContentNode>, line: int)
    requires children != [] && children[0].start != line && StartingAt(children[0].children, line) == []
    ensures StartingAt(children, line) == StartingAt(children[1..], line)
  {
  }

  lemma {:induction false} HeadingInSection(
      section: ContentNode, blocks: seq<Block>, depth: int, lo: int, hi: int, k: nat)
    requires IsSection(section, blocks, depth) && Proper(blocks, lo, hi)
    requires 0 < k < |blocks| && blocks[k].Heading?
    ensures StartsOneSection(section.children, blocks, k)
    decreases Size(blocks), 0, |blocks|
  {
    SizeAt(blocks, 0);
    assert blocks[0..] == blocks;
    assert blocks[1..][k - 1..] == blocks[k..];
    HeadingStartsOneSection(section.children, blocks[1..], depth + 1, blocks[0].end + 1, hi, k - 1);
  }

  lemma {:induction false} ProperAt(blocks: seq<Block>, lo: int, hi: int, k: nat)
    requires Proper(blocks, lo, hi) && k < |blocks|
    ensures lo <= blocks[k].start <= blocks[k].end <= hi
    ensures k > 0 ==> blocks[0].end < blocks[k].start
  {
    if k > 0 { ProperAt(blocks[1..], blocks[0].end + 1, hi, k - 1); }
  }

  /** `build_markdown_hierarchy`, given the annotated blocks of the document. */
  method BuildMarkdownHierarchy(blocks: seq<Block>, totalLines: nat) returns (root: ContentNode)
    requires Proper(blocks, 1, totalLines)
    ensures totalLines == 0 ==> root == ContentNode(1, 0, 0, [])
    ensures totalLines > 0 ==> root.start == 1 && root.end == totalLines && WellFormed(root)
    ensures totalLines > 0 ==> root.depth == 0 && DocumentBody(root.children, blocks, 1)
  {
    if totalLines == 0 {
      return ContentNode(1, 0, 0, []);
    }
    root := BuildDocumentSection(blocks, 1, totalLines, 0);
    DocumentIsWellFormed(root.children, blocks, 1, 1, totalLines);
  }

  /** In a whole document every heading but the title starts exactly one section, and the title none. */
  lemma DocumentSections(children: seq<ContentNode>, blocks: seq<Block>, depth: int, lo: int, hi: int, k: nat)
    requires DocumentBody(children, blocks, depth) && Proper(blocks, lo, hi)
    requires k < |blocks| && blocks[k].Heading?
    ensures if k == 0 && blocks[0].level == 1 then StartingAt(children, blocks[0].start) == []
            else StartsOneSection(children, blocks, k)
  {
    if HasTitle(blocks) {
      if k == 0 {
        BodyIsWellFormed(children, blocks[1..], depth, blocks[0].end + 1, hi);
        NoneOutside(children, blocks[0].end + 1, hi, depth - 1, blocks[0].start);
      } else {
        HeadingStartsOneSection(children, blocks[1..], depth, blocks[0].end + 1, hi, k - 1);
        FoundLater(children, children, blocks, 1, k);
      }
    } else {
      HeadingStartsOneSection(children, blocks, depth, lo, hi, k);
    }
  }

  // ----- headings inside containers

  /** Some node below, at any depth, is the container's. */
  predicate HasPromoted(children: seq<ContentNode>, b: Block)
    decreases children
  {
    children != [] &&
    (|| IsPromoted(children[0], b, children[0].depth)
     || HasPromoted(children[0].children, b)
     || HasPromoted(children[1..], b))
  }

  lemma SectionBody(node: ContentNode, blocks: seq<Block>, depth: int)
    requires IsSection(node, blocks, depth)
    ensures BodyOf(node.children, blocks[1..], depth + 1) && Size(blocks[1..]) < Size(blocks)
  {
    SizeAt(blocks, 0);
    assert blocks[0..] == blocks;
  }

  /** Every container that holds headings has its node, wherever it stands. */
  lemma {:induction false} ContainerHasNode(children: seq<ContentNode>, blocks: seq<Block>, depth: int, k: nat)
    requires BodyOf(children, blocks, depth) && k < |blocks| && Promotable(blocks[k])
    ensures HasPromoted(children, blocks[k])
    decreases Size(blocks), |blocks|
  {
    SizeAt(blocks, 0);
    assert blocks[0..] == blocks;
    hide IsPromoted, ContainsHeading, IsSection, Size;
    if blocks[0].Heading? {
      var n := SectionLength(blocks);
      SizeCut(blocks, n);
      SizeAtLeast(blocks[..n]);
      if k < n {
        SectionBody(children[0], blocks[..n], depth);
        SizeAtLeast(blocks[n..]);
        assert blocks[..n][1..][k - 1] == blocks[k];
        ContainerHasNode(children[0].children, blocks[..n][1..], depth + 1, k - 1);
      } else {
        assert blocks[n..][k - n] == blocks[k];
        ContainerHasNode(children[1..], blocks[n..], depth, k - n);
      }
    } else if Promotable(blocks[0]) {
      if k > 0 {
        ContainerHasNode(children[1..], blocks[1..], depth, k - 1);
      } else {
        OwnDepth(children[0], blocks[0], depth);
      }
    } else {
      ContainerHasNode(children, blocks[1..], depth, k - 1);
    }
  }

  lemma OwnDepth(node: ContentNode, b: Block, depth: int)
    requires IsPromoted(node, b, depth)
    ensures IsPromoted(node, b, node.depth)
  {
  }

  /** Of a document's headings all but the title start exactly one section each, and every container with
      headings has its node. */
  ghost predicate Sectioned(children: seq<ContentNode>, blocks: seq<Block>) {
    && (forall k: nat :: k < |blocks| && Promotable(blocks[k]) ==> HasPromoted(children, blocks[k]))
    && forall k: nat :: k < |blocks| && blocks[k].Heading? ==>
      if k == 0 && blocks[0].level == 1 then StartingAt(children, blocks[0].start) == [] else StartsOneSection(children, blocks, k)
  }

  ghost predicate ItemSectioned(children: seq<ContentNode>, item: Item) {
    exists i :: 0 <= i < |children| && children[i].start == item.start && children[i].end == item.end
      && Sectioned(children[i].children, item.blocks)
  }

  lemma DocumentContainer(children: seq<ContentNode>, blocks: seq<Block>, depth: int, k: nat)
    requires DocumentBody(children, blocks, depth) && k < |blocks| && Promotable(blocks[k])
    ensures HasPromoted(children, blocks[k])
  {
    if HasTitle(blocks) {
      ContainerHasNode(children, blocks[1..], depth, k - 1);
    } else {
      ContainerHasNode(children, blocks, depth, k);
    }
  }

  lemma DocumentIsSectioned(children: seq<ContentNode>, blocks: seq<Block>, depth: int, lo: int, hi: int)
    requires DocumentBody(children, blocks, depth) && Proper(blocks, lo, hi)
    ensures Sectioned(children, blocks)
  {
    forall k: nat | k < |blocks| && Promotable(blocks[k]) ensures HasPromoted(children, blocks[k]) {
      DocumentContainer(children, blocks, depth, k);
    }
    hide DocumentBody, Proper, StartsOneSection, StartingAt, HasTitle, Promotable, HasPromoted;
    forall k: nat | k < |blocks| && blocks[k].Heading?
      ensures if k == 0 && blocks[0].level == 1 then StartingAt(children, blocks[0].start) == [] else StartsOneSection(children, blocks, k)
    {
      DocumentSections(children, blocks, depth, lo, hi, k);
    }
  }

  lemma {:induction false} ItemsAreSectioned(children: seq<ContentNode>, items: seq<Item>, depth: int, lo: int, hi: int)
    requires ItemsOf(children, items, depth) && ProperItems(items, lo, hi)
    ensures forall item :: item in items && AnyHeading(item.blocks) ==> ItemSectioned(children, item)
    decreases |items|
  {
    if items != [] {
      if AnyHeading(items[0].blocks) {
        DocumentIsSectioned(children[0].children, items[0].blocks, depth + 1, items[0].start, items[0].end);
        ItemsAreSectioned(children[1..], items[1..], depth, items[0].end + 1, hi);
        hide Sectioned, DocumentBody, Proper, ItemsOf;
        forall item | ItemSectioned(children[1..], item) ensures ItemSectioned(children, item) {
          var i :| 0 <= i < |children[1..]| && children[1..][i].start == item.start && children[1..][i].end == item.end
            && Sectioned(children[1..][i].children, item.blocks);
          assert children[1..][i] == children[i + 1];
        }
        assert ItemSectioned(children, items[0]);
      } else {
        ItemsAreSectioned(children, items[1..], depth, items[0].end + 1, hi);
      }
    }
  }

  /** Inside a container's node its own headings are sectioned like a document's: those of a quote, and
      those of each list item, below the item's node. */
  lemma ContainerSections(node: ContentNode, b: Block, depth: int)
    requires IsPromoted(node, b, depth) && ProperInside(b)
    ensures b.Quote? ==> Sectioned(node.children, b.inner)
    ensures b.Bullets? ==> forall item :: item in b.items && AnyHeading(item.blocks) ==> ItemSectioned(node.children, item)
  {
    hide Sectioned, ItemSectioned, AnyHeading;
    match b
    case Quote(inner, start, end) => DocumentIsSectioned(node.children, inner, depth + 1, start, end);
    case Bullets(items, start, end) => ItemsAreSectioned(node.children, items, depth + 1, start, end);
    case _ =>
  }
}
