// The changed lines and deletion anchors of an edit, from the opcodes of a diff.
module EditChanges {
  import opened EditProvenance
  import opened Optional
  import opened Sorting
  import Text

  /** original[originalStart..originalEnd] became edited[editedStart..editedEnd]. */
  datatype Opcode = Opcode(equal: bool, originalStart: nat, originalEnd: nat, editedStart: nat, editedEnd: nat)

  /** What a sequence matcher returns: the operations cover both texts in order, and the equal ones
      pair equal lines. */
  ghost predicate Describes(ops: seq<Opcode>, original: seq<string>, edited: seq<string>) {
    && (forall i :: 0 <= i < |ops| ==> InBounds(ops[i], original, edited))
    && (forall i, j :: 0 <= i < |ops| && j == i + 1 && j < |ops| ==>
          ops[j].originalStart == ops[i].originalEnd && ops[j].editedStart == ops[i].editedEnd)
    && (if ops == [] then original == [] && edited == []
        else
          && ops[0].originalStart == 0 && ops[0].editedStart == 0
          && ops[|ops| - 1].originalEnd == |original| && ops[|ops| - 1].editedEnd == |edited|)
  }

  ghost predicate InBounds(op: Opcode, original: seq<string>, edited: seq<string>) {
    && op.originalStart <= op.originalEnd <= |original| && op.editedStart <= op.editedEnd <= |edited|
    && (op.equal ==> original[op.originalStart..op.originalEnd] == edited[op.editedStart..op.editedEnd])
  }

  /** Operation i starts where the ones before it ended. */
  function StartOf(ops: seq<Opcode>, i: nat): nat
    requires i <= |ops|
  {
    if i == 0 then 0 else ops[i - 1].editedEnd
  }

  /** The line lies in a part that is not equal, among the first i operations. */
  ghost predicate Changed(ops: seq<Opcode>, i: int, line: int) {
    exists k :: 0 <= k < i && k < |ops| && !ops[k].equal && ops[k].editedStart < line <= ops[k].editedEnd
  }

  /** The surviving line next to a deletion, among the first i operations. */
  ghost predicate Anchor(ops: seq<Opcode>, i: int, total: nat, line: int) {
    exists k :: 0 <= k < i && k < |ops| && IsDeletion(ops[k]) && total > 0 && line == AnchorOf(ops[k], total)
  }

  predicate IsDeletion(op: Opcode) {
    !op.equal && op.editedStart == op.editedEnd
  }

  /** The line that stands where the deleted ones stood, or the last one. */
  function AnchorOf(op: Opcode, total: nat): (line: int)
    ensures op.editedStart < total ==> line - 1 == op.editedStart
    ensures op.editedStart >= total ==> line == total
  {
    if op.editedStart + 1 < total then op.editedStart + 1 else total
  }

  predicate InRanges(ranges: seq<LineRange>, line: int) {
    exists k :: 0 <= k < |ranges| && ranges[k].start <= line <= ranges[k].end
  }

  /** Non-empty ranges in order, with an unchanged line between neighbours. */
  ghost predicate Merged(ranges: seq<LineRange>, last: int) {
    && (forall k :: 0 <= k < |ranges| ==> ranges[k].Valid() && ranges[k].end <= last)
    && (forall j, k :: 0 <= j < k < |ranges| ==> ranges[j].end + 1 < ranges[k].start)
  }

  /** The loop's state before operation i. */
  ghost predicate Gathered(ops: seq<Opcode>, i: nat, total: nat, ranges: seq<LineRange>, anchors: set<int>)
    requires i <= |ops|
  {
    && Merged(ranges, StartOf(ops, i))
    && (forall line :: InRanges(ranges, line) <==> Changed(ops, i, line))
    && (forall line :: line in anchors <==> Anchor(ops, i, total, line))
  }

  /** The ranges with one more changed part, joined to the last range where they touch. */
  function Joined(ranges: seq<LineRange>, added: LineRange): seq<LineRange> {
    if ranges != [] && added.start <= ranges[|ranges| - 1].end + 1 then
      ranges[|ranges| - 1 := LineRange(ranges[|ranges| - 1].start, added.end)]
    else ranges + [added]
  }

  lemma JoinedCovers(ranges: seq<LineRange>, added: LineRange, last: int)
    requires Merged(ranges, last) && added.Valid() && added.start == last + 1
    ensures Merged(Joined(ranges, added), added.end)
    ensures forall line :: InRanges(Joined(ranges, added), line) <==>
      InRanges(ranges, line) || added.start <= line <= added.end
  {
    var r := Joined(ranges, added);
    var n := |ranges|;
    forall line ensures InRanges(r, line) <==> InRanges(ranges, line) || added.start <= line <= added.end {
      if ranges != [] && added.start <= ranges[n - 1].end + 1 {
        assert forall k :: 0 <= k < n - 1 ==> r[k] == ranges[k];
        assert r[n - 1].start == ranges[n - 1].start;
      } else {
        assert r[n] == added && forall k :: 0 <= k < n ==> r[k] == ranges[k];
      }
    }
  }

  lemma OneMoreOp(ops: seq<Opcode>, i: nat, total: nat)
    requires i < |ops|
    ensures forall line :: Changed(ops, i + 1, line) <==>
      Changed(ops, i, line) || (!ops[i].equal && ops[i].editedStart < line <= ops[i].editedEnd)
    ensures forall line :: Anchor(ops, i + 1, total, line) <==>
      Anchor(ops, i, total, line) || (IsDeletion(ops[i]) && total > 0 && line == AnchorOf(ops[i], total))
  {
    forall line
      ensures Changed(ops, i + 1, line) <==>
        Changed(ops, i, line) || (!ops[i].equal && ops[i].editedStart < line <= ops[i].editedEnd)
      ensures Anchor(ops, i + 1, total, line) <==>
        Anchor(ops, i, total, line) || (IsDeletion(ops[i]) && total > 0 && line == AnchorOf(ops[i], total))
    {
      if Changed(ops, i + 1, line) {
        var k :| 0 <= k < i + 1 && k < |ops| && !ops[k].equal && ops[k].editedStart < line <= ops[k].editedEnd;
        assert k == i || Changed(ops, i, line);
      }
      if Anchor(ops, i + 1, total, line) {
        var k :| 0 <= k < i + 1 && k < |ops| && IsDeletion(ops[k]) && total > 0 && line == AnchorOf(ops[k], total);
        assert k == i || Anchor(ops, i, total, line);
      }
    }
  }

  lemma GatherNext(ops: seq<Opcode>, i: nat, original: seq<string>, edited: seq<string>,
                   ranges: seq<LineRange>, anchors: set<int>)
    requires Describes(ops, original, edited) && i < |ops| && Gathered(ops, i, |edited|, ranges, anchors)
    ensures ops[i].equal ==> Gathered(ops, i + 1, |edited|, ranges, anchors)
    ensures IsDeletion(ops[i]) && edited == [] ==> Gathered(ops, i + 1, |edited|, ranges, anchors)
    ensures IsDeletion(ops[i]) && edited != [] ==>
      Gathered(ops, i + 1, |edited|, ranges, anchors + {AnchorOf(ops[i], |edited|)})
    ensures !ops[i].equal && ops[i].editedStart < ops[i].editedEnd ==>
      Gathered(ops, i + 1, |edited|, Joined(ranges, LineRange(ops[i].editedStart + 1, ops[i].editedEnd)), anchors)
  {
    OneMoreOp(ops, i, |edited|);
    assert InBounds(ops[i], original, edited) && ops[i].editedStart == StartOf(ops, i);
    if !ops[i].equal && ops[i].editedStart < ops[i].editedEnd {
      JoinedCovers(ranges, LineRange(ops[i].editedStart + 1, ops[i].editedEnd), StartOf(ops, i));
    }
    hide Changed, Anchor, InRanges, Joined;
  }

  function RangeLines(ranges: seq<LineRange>): (r: set<int>)
    ensures forall line :: line in r <==> InRanges(ranges, line)
  {
    if ranges == [] then {}
    else
      var n := |ranges| - 1;
      assert forall line :: InRanges(ranges, line) <==>
        InRanges(ranges[..n], line) || ranges[n].start <= line <= ranges[n].end by { LastRange(ranges); }
      RangeLines(ranges[..n]) + LinesFrom(ranges[n].start, ranges[n].end)
  }

  function LinesFrom(lo: int, hi: int): (r: set<int>)
    ensures forall line :: line in r <==> lo <= line <= hi
    decreases hi - lo
  {
    if hi < lo then {} else LinesFrom(lo, hi - 1) + {hi}
  }

  lemma LastRange(ranges: seq<LineRange>)
    requires ranges != []
    ensures var n := |ranges| - 1;
      forall line :: InRanges(ranges, line) <==> InRanges(ranges[..n], line) || ranges[n].start <= line <= ranges[n].end
  {
    var n := |ranges| - 1;
    assert forall k :: 0 <= k < n ==> ranges[..n][k] == ranges[k];
  }

  /** What the result records of an edit: exactly the changed lines, as maximal ranges, and the
      surviving neighbours of deletions that are not changed themselves. */
  ghost predicate Records(p: Provenance, ops: seq<Opcode>, total: nat) {
    && p.Valid() && Merged(p.ranges, total)
    && (forall line :: InRanges(p.ranges, line) <==> Changed(ops, |ops|, line))
    && (forall line :: line in p.anchors <==> Anchor(ops, |ops|, total, line) && !Changed(ops, |ops|, line))
    && (forall line :: line in p.anchors ==> 1 <= line <= total)
  }

  /** `file_edit_result_provenance_between`, for the opcodes of the matcher. */
  method ProvenanceBetween(ops: seq<Opcode>, ghost original: seq<string>, edited: seq<string>) returns (p: Provenance)
    requires Describes(ops, original, edited)
    ensures Records(p, ops, |edited|)
  {
    hide *;
    var ranges: seq<LineRange>, anchors: set<int> := [], {};
    NothingGathered(ops, |edited|);
    for i := 0 to |ops|
      invariant Gathered(ops, i, |edited|, ranges, anchors)
    {
      GatherNext(ops, i, original, edited, ranges, anchors);
      DeletionMeans(ops[i], original, edited, ops, i);
      if !ops[i].equal {
        if ops[i].editedStart == ops[i].editedEnd {
          if edited != [] {
            anchors := anchors + {AnchorOf(ops[i], |edited|)};
          }
        } else {
          ranges := Joined(ranges, LineRange(ops[i].editedStart + 1, ops[i].editedEnd));
        }
      }
    }
    var remaining := anchors - RangeLines(ranges);
    var sorted := SortedElements(remaining);
    p := Provenance(ranges, sorted);
    GatheredRecords(ops, original, edited, ranges, anchors, sorted);
  }

  lemma DeletionMeans(op: Opcode, original: seq<string>, edited: seq<string>, ops: seq<Opcode>, i: nat)
    requires Describes(ops, original, edited) && i < |ops| && op == ops[i]
    ensures IsDeletion(op) <==> !op.equal && op.editedStart == op.editedEnd
    ensures op.editedStart <= op.editedEnd
  {
  }

  lemma NothingGathered(ops: seq<Opcode>, total: nat)
    ensures Gathered(ops, 0, total, [], {})
  {
  }

  lemma GatheredRecords(ops: seq<Opcode>, original: seq<string>, edited: seq<string>, ranges: seq<LineRange>,
                        anchors: set<int>, sorted: seq<int>)
    requires Describes(ops, original, edited) && Gathered(ops, |ops|, |edited|, ranges, anchors)
    requires StrictlyIncreasing(sorted) && forall line :: line in sorted <==> line in anchors - RangeLines(ranges)
    ensures Records(Provenance(ranges, sorted), ops, |edited|)
  {
    assert StartOf(ops, |ops|) == |edited|;
    forall line | Anchor(ops, |ops|, |edited|, line) ensures 1 <= line <= |edited| {
    }
    forall k | 0 <= k < |sorted| ensures 1 <= sorted[k] {
      assert sorted[k] in sorted;
    }
    hide Changed, Anchor, InRanges, Describes;
  }

  // ----- what the record means

  /** The lines of `edited` from lo on that are not changed. */
  ghost function Unchanged(edited: seq<string>, lo: nat, ops: seq<Opcode>): seq<string>
    requires lo <= |edited|
    decreases |edited| - lo
  {
    if lo == |edited| then []
    else (if Changed(ops, |ops|, lo + 1) then [] else [edited[lo]]) + Unchanged(edited, lo + 1, ops)
  }

  /** The original lines the operations from i on keep. */
  function Kept(ops: seq<Opcode>, i: nat, original: seq<string>): seq<string>
    requires i <= |ops|
    requires forall k :: i <= k < |ops| ==> ops[k].originalStart <= ops[k].originalEnd <= |original|
    decreases |ops| - i
  {
    if i == |ops| then []
    else (if ops[i].equal then original[ops[i].originalStart..ops[i].originalEnd] else []) + Kept(ops, i + 1, original)
  }

  lemma {:induction false} LaterStarts(ops: seq<Opcode>, i: nat, j: nat, original: seq<string>, edited: seq<string>)
    requires Describes(ops, original, edited) && i < j < |ops|
    ensures ops[i].editedEnd <= ops[j].editedStart
    decreases j - i
  {
    assert InBounds(ops[j - 1], original, edited);
    if i < j - 1 {
      LaterStarts(ops, i, j - 1, original, edited);
    }
  }

  lemma ChangedJustBy(ops: seq<Opcode>, i: nat, line: int, original: seq<string>, edited: seq<string>)
    requires Describes(ops, original, edited) && i < |ops| && ops[i].editedStart < line <= ops[i].editedEnd
    ensures Changed(ops, |ops|, line) <==> !ops[i].equal
  {
    forall k | 0 <= k < |ops| && k != i ensures !(ops[k].editedStart < line <= ops[k].editedEnd) {
      if k < i {
        LaterStarts(ops, k, i, original, edited);
      } else {
        LaterStarts(ops, i, k, original, edited);
      }
    }
  }

  lemma NextLine(edited: seq<string>, lo: nat, ops: seq<Opcode>)
    requires lo < |edited|
    ensures Unchanged(edited, lo, ops) ==
      (if Changed(ops, |ops|, lo + 1) then [] else [edited[lo]]) + Unchanged(edited, lo + 1, ops)
  {
    hide Changed;
  }

  lemma FirstOf(s: seq<string>, lo: nat, end: nat, rest: seq<string>)
    requires lo < end <= |s|
    ensures s[lo..end] + rest == [s[lo]] + (s[lo + 1..end] + rest)
  {
  }

  /** One operation's lines: all unchanged or all changed. */
  lemma {:induction false} OneOpKeeps(ops: seq<Opcode>, i: nat, lo: nat, original: seq<string>, edited: seq<string>)
    requires Describes(ops, original, edited) && i < |ops| && ops[i].editedStart <= lo <= ops[i].editedEnd <= |edited|
    ensures Unchanged(edited, lo, ops) ==
      (if ops[i].equal then edited[lo..ops[i].editedEnd] else []) + Unchanged(edited, ops[i].editedEnd, ops)
    decreases ops[i].editedEnd - lo
  {
    hide *;
    var end := ops[i].editedEnd;
    if lo < end {
      ChangedJustBy(ops, i, lo + 1, original, edited);
      OneOpKeeps(ops, i, lo + 1, original, edited);
      NextLine(edited, lo, ops);
      FirstOf(edited, lo, end, Unchanged(edited, end, ops));
    } else {
      assert edited[lo..lo] == [];
    }
  }

  /** Outside the recorded lines the edit kept the original's text, in order. */
  lemma {:induction false} UnchangedIsKept(ops: seq<Opcode>, i: nat, original: seq<string>, edited: seq<string>)
    requires Describes(ops, original, edited) && i <= |ops|
    ensures StartOf(ops, i) <= |edited|
    ensures forall k :: i <= k < |ops| ==> ops[k].originalStart <= ops[k].originalEnd <= |original|
    ensures Unchanged(edited, StartOf(ops, i), ops) == Kept(ops, i, original)
    decreases |ops| - i
  {
    assert i > 0 ==> InBounds(ops[i - 1], original, edited);
    assert forall k :: i <= k < |ops| ==> InBounds(ops[k], original, edited);
    if i < |ops| {
      UnchangedIsKept(ops, i + 1, original, edited);
      OneOpKeeps(ops, i, StartOf(ops, i), original, edited);
    }
  }

  /** Records are unique: the ranges are determined by the set of changed lines. */
  lemma {:induction false} RangesUnique(a: seq<LineRange>, b: seq<LineRange>, last: int)
    requires Merged(a, last) && Merged(b, last) && forall line :: InRanges(a, line) <==> InRanges(b, line)
    ensures a == b
    decreases |a|
  {
    if a == [] {
      FirstCovered(b, last);
    } else {
      var n := |a| - 1;
      assert InRanges(a, a[n].end);
      SameLast(a, b, last);
      var m := |b| - 1;
      LastRange(a);
      LastRange(b);
      FrontApart(a, last);
      FrontApart(b, last);
      RangesUnique(a[..n], b[..m], last);
      assert a == a[..n] + [a[n]] && b == b[..m] + [b[m]];
    }
  }

  lemma FirstCovered(b: seq<LineRange>, last: int)
    requires Merged(b, last)
    ensures b != [] ==> exists line :: InRanges(b, line)
  {
    if b != [] {
      assert InRanges(b, b[0].start);
    }
  }

  lemma FrontApart(a: seq<LineRange>, last: int)
    requires a != [] && Merged(a, last)
    ensures var n := |a| - 1;
      Merged(a[..n], last) && forall line :: InRanges(a[..n], line) ==> line < a[n].start
  {
  }

  lemma SameLast(a: seq<LineRange>, b: seq<LineRange>, last: int)
    requires a != [] && Merged(a, last) && Merged(b, last) && forall line :: InRanges(a, line) <==> InRanges(b, line)
    ensures b != [] && a[|a| - 1] == b[|b| - 1]
  {
    var x := a[|a| - 1];
    assert InRanges(a, x.end);
    assert InRanges(b, x.end);
    var y := b[|b| - 1];
    assert InRanges(b, y.end);
    assert x.end == y.end;
    assert InRanges(a, y.start);
    assert InRanges(b, x.start);
    assert !InRanges(a, x.start - 1);
    assert !InRanges(b, y.start - 1);
    assert x.start < y.start ==> InRanges(a, y.start - 1);
    assert y.start < x.start ==> InRanges(b, x.start - 1);
  }

  /** An edit has one record. */
  lemma RecordUnique(p: Provenance, q: Provenance, ops: seq<Opcode>, total: nat)
    requires Records(p, ops, total) && Records(q, ops, total)
    ensures p == q
  {
    RangesUnique(p.ranges, q.ranges, total);
    AnchorsUnique(p.anchors, q.anchors);
  }

  lemma EmptyAlike(a: seq<int>, b: seq<int>)
    requires forall x :: x in a <==> x in b
    ensures a != [] ==> b != []
  {
    if a != [] {
      var x := a[0];
      assert x in a;
      assert x in b;
    }
  }

  lemma {:induction false} AnchorsUnique(a: seq<int>, b: seq<int>)
    requires StrictlyIncreasing(a) && StrictlyIncreasing(b) && forall x :: x in a <==> x in b
    ensures a == b
  {
    EmptyAlike(a, b);
    EmptyAlike(b, a);
    if a != [] {
      assert a[0] in a && b[0] in b;
      assert a[0] in b && b[0] in a;
      forall x ensures x in a[1..] <==> x in b[1..] {
        assert x in a <==> x == a[0] || x in a[1..];
        assert x in b <==> x == b[0] || x in b[1..];
      }
      AnchorsUnique(a[1..], b[1..]);
      assert a == [a[0]] + a[1..] && b == [b[0]] + b[1..];
    }
  }

  /** The whole way: the result of an edit tells the one record of its diff, whatever text surrounds it. */
  lemma ResultTellsChanges(p: Provenance, ops: seq<Opcode>, total: nat, before: seq<string>, after: seq<string>)
    requires Records(p, ops, total)
    requires forall k :: 0 <= k < |before| ==> OneLineWithoutPrefix(before[k])
    requires forall k :: 0 <= k < |after| ==> OneLineWithoutPrefix(after[k])
    requires after != [] ==> after[|after| - 1] != ""
    ensures var told := Recorded(Text.Join(before + [RenderLine(p)] + after, "\n"));
      && told.Some? && Records(told.value, ops, total)
      && (forall q :: Records(q, ops, total) <==> told == Some(q))
  {
    RecordedBetween(before, p, after);
    forall q | Records(q, ops, total) ensures q == p {
      RecordUnique(p, q, ops, total);
    }
  }

  predicate OneLineWithoutPrefix(s: string) {
    Text.OneLine(s) && !StartsWith(s, PREFIX)
  }
}
