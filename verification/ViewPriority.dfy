// Which lines come first in a folded view, in the file's own terms: lines near scored lines, by their scores.
module ViewPriority {
  import opened Collapse
  import opened Content
  import opened FileContext
  import opened FoldedView
  import opened Optional
  import opened Sorting
  import opened Spans

  predicate Near(line: int, center: int) {
    center - 2 <= line <= center + 2
  }

  /** `a` comes before `b`, or is `b`: a higher score, or the same score and no later line. */
  predicate Ranks(a: (int, real), b: (int, real)) {
    a.1 > b.1 || (a.1 == b.1 && a.0 <= b.0)
  }

  predicate OneScoreEach(scores: seq<(int, real)>) {
    forall i, j :: 0 <= i < j < |scores| ==> scores[i].0 != scores[j].0
  }

  /** Some scored line that ranks at least as high as `x` is near. */
  ghost predicate NearRanked(scores: seq<(int, real)>, x: (int, real), line: int) {
    exists y :: y in scores && Ranks(y, x) && Near(line, y.0)
  }

  // ----- the sorted scores and their windows

  lemma SortedByRank(scores: seq<(int, real)>, i: nat, j: nat)
    requires i <= j < |scores|
    ensures Ranks(StableSort(scores, MoreSalient)[i], StableSort(scores, MoreSalient)[j])
  {
    var sorted := StableSort(scores, MoreSalient);
    assert i == j ==> Ranks(sorted[i], sorted[j]);
    MoreSalientOrders(scores);
    hide StableSort;
    SortSorts(scores, MoreSalient);
    assert i < j ==> MoreSalient(sorted[i], sorted[j]);
  }

  lemma MoreSalientOrders(scores: seq<(int, real)>)
    ensures TotalPreorder(scores, MoreSalient)
  {
    assert forall x, y :: MoreSalient(x, y) <==> Ranks(x, y);
  }

  lemma SortedOnce(scores: seq<(int, real)>, i: nat, j: nat)
    requires OneScoreEach(scores) && i < j < |scores|
    ensures StableSort(scores, MoreSalient)[i].0 != StableSort(scores, MoreSalient)[j].0
  {
    var line := (s: (int, real)) => s.0;
    assert DistinctBy(scores, line);
    SortDistinct(scores, MoreSalient, line);
    assert line(StableSort(scores, MoreSalient)[i]) != line(StableSort(scores, MoreSalient)[j]);
  }

  lemma WindowIs(scores: seq<(int, real)>, total: nat, k: nat, line: int)
    requires k < |scores| && 1 <= line <= total
    ensures WindowsAround(scores, total)[k].0 <= line <= WindowsAround(scores, total)[k].1 <==> Near(line, scores[k].0)
  {
  }

  /** The first windows are those of the scores that rank highest. */
  lemma LeadingWindows(scores: seq<(int, real)>, total: nat, k: nat, line: int)
    requires OneScoreEach(scores) && k < |scores| && 1 <= line <= total
    ensures Covers(SalientRegions(scores, total)[..k + 1], line) <==>
      NearRanked(scores, StableSort(scores, MoreSalient)[k], line)
  {
    var sorted := StableSort(scores, MoreSalient);
    var windows := WindowsAround(sorted, total);
    SameElements(scores, MoreSalient);
    hide StableSort, Near, Ranks, WindowsAround, MoreSalient;
    if Covers(windows[..k + 1], line) {
      var j :| 0 <= j < |windows[..k + 1]| && windows[..k + 1][j].0 <= line <= windows[..k + 1][j].1;
      WindowIs(sorted, total, j, line);
      SortedByRank(scores, j, k);
      SortedFrom(scores, MoreSalient, j);
    }
    if NearRanked(scores, sorted[k], line) {
      var y :| y in scores && Ranks(y, sorted[k]) && Near(line, y.0);
      assert y in sorted;
      var j :| 0 <= j < |sorted| && sorted[j] == y;
      WindowIs(sorted, total, j, line);
      if j > k {
        SortedByRank(scores, k, j);
        SortedOnce(scores, k, j);
        RanksBoth(sorted[k], sorted[j]);
      }
      assert windows[..k + 1][j] == windows[j];
    }
  }

  lemma RanksBoth(a: (int, real), b: (int, real))
    requires Ranks(a, b) && Ranks(b, a)
    ensures a == b
  {
  }

  /** All windows: the lines near a scored one. */
  lemma AllWindows(scores: seq<(int, real)>, total: nat, line: int)
    requires 1 <= line <= total
    ensures Covers(SalientRegions(scores, total), line) <==> exists y :: y in scores && Near(line, y.0)
  {
    var sorted := StableSort(scores, MoreSalient);
    var windows := WindowsAround(sorted, total);
    SameElements(scores, MoreSalient);
    hide StableSort, Near, WindowsAround, MoreSalient;
    if Covers(windows, line) {
      var j :| 0 <= j < |windows| && windows[j].0 <= line <= windows[j].1;
      WindowIs(sorted, total, j, line);
      assert sorted[j] in sorted;
    }
    if y :| y in scores && Near(line, y.0) {
      assert y in sorted;
      var j :| 0 <= j < |sorted| && sorted[j] == y;
      WindowIs(sorted, total, j, line);
    }
  }

  // ----- edited and other lines

  lemma {:induction false} ScoresPart(scores: seq<(int, real)>, lines: set<int>)
    ensures forall y :: y in OnlyLines(scores, lines) <==> y in scores && y.0 in lines
    ensures forall y :: y in OtherLines(scores, lines) <==> y in scores && y.0 !in lines
  {
    if scores != [] {
      ScoresPart(scores[1..], lines);
      assert forall y :: y in scores <==> y == scores[0] || y in scores[1..];
    }
  }

  lemma {:induction false} PartsOnce(scores: seq<(int, real)>, lines: set<int>)
    requires OneScoreEach(scores)
    ensures OneScoreEach(OnlyLines(scores, lines)) && OneScoreEach(OtherLines(scores, lines))
  {
    if scores != [] {
      var rest := scores[1..];
      PartsOnce(rest, lines);
      ScoresPart(rest, lines);
      var only, other := OnlyLines(rest, lines), OtherLines(rest, lines);
      forall k | 0 <= k < |only| ensures only[k].0 != scores[0].0 {
        assert only[k] in only;
      }
      forall k | 0 <= k < |other| ensures other[k].0 != scores[0].0 {
        assert other[k] in other;
      }
    }
  }

  /** Near an edited line that ranks at least as high as `x`. */
  ghost predicate NearEdit(scores: seq<(int, real)>, edited: set<int>, x: (int, real), line: int) {
    exists y :: y in scores && y.0 in edited && Ranks(y, x) && Near(line, y.0)
  }

  /** Near another line that ranks at least as high. */
  ghost predicate NearOther(scores: seq<(int, real)>, edited: set<int>, x: (int, real), line: int) {
    exists y :: y in scores && y.0 !in edited && Ranks(y, x) && Near(line, y.0)
  }

  ghost predicate NearAnyEdit(scores: seq<(int, real)>, edited: set<int>, line: int) {
    exists y :: y in scores && y.0 in edited && Near(line, y.0)
  }

  predicate InRead(read: Option<(int, int)>, line: int) {
    read.Some? && read.value.0 <= line <= read.value.1
  }

  /** The lines that come no later than the edited line `x` and what is near it. */
  ghost function BeforeEdit(scores: seq<(int, real)>, edited: set<int>, total: nat, x: (int, real)): set<int> {
    set line | 1 <= line <= total && NearEdit(scores, edited, x, line)
  }

  /** The lines that come no later than the scored line `x`, not an edited one, and what is near it. */
  ghost function BeforeOther(scores: seq<(int, real)>, edited: set<int>, read: Option<(int, int)>, total: nat,
                             x: (int, real)): set<int> {
    set line | 1 <= line <= total &&
      (NearAnyEdit(scores, edited, line) || InRead(read, line) || NearOther(scores, edited, x, line))
  }

  /** `lines` come first in the view: all shown as long as they are at most 80, nothing else if they are more. */
  ghost predicate ComeFirst(spans: seq<Span>, total: nat, lines: set<int>) {
    && (|lines| <= 80 ==> forall line :: line in lines ==> Shows(spans, line))
    && (|lines| >= 80 ==> forall line :: 1 <= line <= total && Shows(spans, line) ==> line in lines)
  }

  lemma ClampCovers(read: Option<(int, int)>, total: nat, line: int)
    requires 1 <= line <= total
    ensures Covers(Clamp(read, total), line) <==> InRead(read, line)
  {
    var clamped := Clamp(read, total);
    if InRead(read, line) {
      assert clamped[0].0 <= line <= clamped[0].1;
    }
  }

  lemma EditLead(scores: seq<(int, real)>, edited: set<int>, total: nat, x: (int, real)) returns (k: nat)
    requires OneScoreEach(scores) && x in scores && x.0 in edited
    ensures k < |EditWindows(scores, edited, total)|
    ensures CoveredLines(EditWindows(scores, edited, total)[..k + 1], total) == BeforeEdit(scores, edited, total, x)
  {
    var only := OnlyLines(scores, edited);
    var sorted := StableSort(only, MoreSalient);
    ScoresPart(scores, edited);
    PartsOnce(scores, edited);
    SameElements(only, MoreSalient);
    assert x in sorted;
    k :| 0 <= k < |sorted| && sorted[k] == x;
    hide StableSort, Near, Ranks, MoreSalient, OnlyLines, WindowsAround, Covers;
    var lead := EditWindows(scores, edited, total)[..k + 1];
    forall line | 1 <= line <= total ensures Covers(lead, line) <==> NearEdit(scores, edited, x, line) {
      LeadingWindows(only, total, k, line);
      assert NearRanked(only, x, line) <==> NearEdit(scores, edited, x, line);
    }
  }

  lemma OtherLead(scores: seq<(int, real)>, edited: set<int>, read: Option<(int, int)>, total: nat, x: (int, real))
    returns (k: nat)
    requires OneScoreEach(scores) && x in scores && x.0 !in edited
    ensures k < |SalientRegions(OtherLines(scores, edited), total)|
    ensures
      var lead := EditWindows(scores, edited, total) + Clamp(read, total)
        + SalientRegions(OtherLines(scores, edited), total)[..k + 1];
      CoveredLines(lead, total) == BeforeOther(scores, edited, read, total, x)
  {
    var only, other := OnlyLines(scores, edited), OtherLines(scores, edited);
    var sorted := StableSort(other, MoreSalient);
    ScoresPart(scores, edited);
    PartsOnce(scores, edited);
    SameElements(other, MoreSalient);
    assert x in sorted;
    k :| 0 <= k < |sorted| && sorted[k] == x;
    hide StableSort, Near, Ranks, MoreSalient, OnlyLines, OtherLines, WindowsAround, Covers, Clamp, InRead;
    var edits, clamped := EditWindows(scores, edited, total), Clamp(read, total);
    var others := SalientRegions(other, total)[..k + 1];
    forall line | 1 <= line <= total
      ensures Covers(edits + clamped + others, line) <==>
        NearAnyEdit(scores, edited, line) || InRead(read, line) || NearOther(scores, edited, x, line)
    {
      CoversEither(edits + clamped, others, line);
      CoversEither(edits, clamped, line);
      LeadingWindows(other, total, k, line);
      AllWindows(only, total, line);
      ClampCovers(read, total, line);
      assert NearRanked(other, x, line) <==> NearOther(scores, edited, x, line);
    }
  }

  lemma LeadComesFirst(spans: seq<Span>, total: nat, lead: seq<(int, int)>, regions: seq<(int, int)>)
    requires FoldedViewOf(spans, total, regions) && lead <= regions
    ensures ComeFirst(spans, total, CoveredLines(lead, total))
  {
    LeadingShown(spans, total, lead, regions);
    hide FoldedViewOf, Covers, Shows, LINE_BUDGET;
    assert LINE_BUDGET == 80 by { BudgetIs(); }
    var lines := CoveredLines(lead, total);
    forall line | 1 <= line <= total ensures line in ShownLines(spans, total) <==> Shows(spans, line) {
    }
  }

  lemma BudgetIs()
    ensures LINE_BUDGET == 80
  {
  }

  /** In the view of a file over the budget an edited line and what is within two lines of it come right
      after those of the edited lines that rank higher; any other scored line comes after all edited lines,
      the latest read and the others that rank higher. */
  lemma MostSalientFirst(spans: seq<Span>, total: nat, scores: seq<(int, real)>, edited: set<int>,
                         read: Option<(int, int)>, outline: seq<Span>, x: (int, real))
    requires FoldedViewOf(spans, total, Wanted(scores, edited, read, outline, total))
    requires OneScoreEach(scores) && x in scores
    ensures x.0 in edited ==> ComeFirst(spans, total, BeforeEdit(scores, edited, total, x))
    ensures x.0 !in edited ==> ComeFirst(spans, total, BeforeOther(scores, edited, read, total, x))
  {
    var regions := Wanted(scores, edited, read, outline, total);
    var edits, clamped := EditWindows(scores, edited, total), Clamp(read, total);
    var others := SalientRegions(OtherLines(scores, edited), total);
    hide EditWindows, Clamp, SalientRegions, OtherLines, FoldedViewOf, CoveredLines, VisibleRegions,
         BeforeEdit, BeforeOther, ComeFirst;
    if x.0 in edited {
      var k := EditLead(scores, edited, total, x);
      assert edits[..k + 1] <= regions;
      LeadComesFirst(spans, total, edits[..k + 1], regions);
    } else {
      var k := OtherLead(scores, edited, read, total, x);
      var lead := edits + clamped + others[..k + 1];
      assert lead <= regions by {
        assert others == others[..k + 1] + others[k + 1..];
      }
      LeadComesFirst(spans, total, lead, regions);
    }
  }

  /** The lines wanted at all. */
  ghost predicate WantedLine(scores: seq<(int, real)>, read: Option<(int, int)>, outline: seq<Span>, line: int) {
    (exists y :: y in scores && Near(line, y.0)) || InRead(read, line) || Shows(outline, line)
  }

  /** If at most 80 lines are near a scored one, in the latest read or in the small outline, the view is exactly those. */
  lemma WantedShown(spans: seq<Span>, total: nat, scores: seq<(int, real)>, edited: set<int>, read: Option<(int, int)>,
                    outline: seq<Span>)
    requires FoldedViewOf(spans, total, Wanted(scores, edited, read, outline, total))
    requires outline == [] || Tiles(outline, 1, total)
    ensures ComeFirst(spans, total, set line | 1 <= line <= total && WantedLine(scores, read, outline, line))
    ensures forall line :: 1 <= line <= total && Shows(spans, line) ==> WantedLine(scores, read, outline, line)
  {
    var regions := Wanted(scores, edited, read, outline, total);
    hide FoldedViewOf, Wanted, ComeFirst, WantedLine, Shows, Covers;
    forall line | 1 <= line <= total ensures Covers(regions, line) <==> WantedLine(scores, read, outline, line) {
      WantedCovers(scores, edited, read, outline, total, line);
    }
    assert CoveredLines(regions, total) == set line | 1 <= line <= total && WantedLine(scores, read, outline, line);
    LeadComesFirst(spans, total, regions, regions);
    ViewShowsWanted(spans, total, regions);
    forall line | 1 <= line <= total && Shows(spans, line) ensures WantedLine(scores, read, outline, line) {
      assert line in ShownLines(spans, total);
    }
  }

  lemma WantedCovers(scores: seq<(int, real)>, edited: set<int>, read: Option<(int, int)>, outline: seq<Span>,
                     total: nat, line: int)
    requires 1 <= line <= total && (outline == [] || Tiles(outline, 1, total))
    ensures Covers(Wanted(scores, edited, read, outline, total), line) <==> WantedLine(scores, read, outline, line)
  {
    var only, other := OnlyLines(scores, edited), OtherLines(scores, edited);
    var edits, clamped := EditWindows(scores, edited, total), Clamp(read, total);
    var others, outlined := SalientRegions(other, total), VisibleRegions(outline);
    ScoresPart(scores, edited);
    assert Covers(outlined, line) <==> Shows(outline, line) by {
      if outline != [] { VisibleRegionsCover(outline, 1, total); }
    }
    hide Near, OnlyLines, OtherLines, Covers, Clamp, InRead, VisibleRegions, Shows, SalientRegions, Tiles;
    CoversEither(edits + clamped + others, outlined, line);
    CoversEither(edits + clamped, others, line);
    CoversEither(edits, clamped, line);
    AllWindows(only, total, line);
    AllWindows(other, total, line);
    ClampCovers(read, total, line);
  }

  // ----- a file's view

  lemma ScoredOnce(touches: seq<Touch>, total: nat)
    ensures OneScoreEach(WithTouches(Unscored, touches, total).scores)
  {
    ScoresAre(touches, total);
  }

  /** The same of a file's view, its edited lines being those some call edited or left beside a deletion. */
  lemma FileShowsMostSalient(spans: seq<Span>, root: ContentNode, touches: seq<Touch>, read: Option<(int, int)>,
                             whole: bool, x: (int, real))
    requires root.start == 1 && root.end > 80
    requires var s := WithTouches(Unscored, touches, root.end);
      IsView(spans, root, s, read, whole) && x in s.scores
    ensures
      var scores, edited := WithTouches(Unscored, touches, root.end).scores,
        (set line | 1 <= line <= root.end
          && (TouchedBy(touches, line, EditMarker) || TouchedBy(touches, line, EditContextMarker)));
      if x.0 in edited then ComeFirst(spans, root.end, BeforeEdit(scores, edited, root.end, x))
      else ComeFirst(spans, root.end, BeforeOther(scores, edited, read, root.end, x))
  {
    BudgetIs();
    var s, total := WithTouches(Unscored, touches, root.end), root.end;
    var edited := Lines(RequiredLines(s));
    ScoredOnce(touches, total);
    forall line ensures line in RequiredLines(s) <==>
      1 <= line <= total && (TouchedBy(touches, line, EditMarker) || TouchedBy(touches, line, EditContextMarker))
    {
      RequiredAreEdited(touches, total, line);
    }
    assert edited == set line | 1 <= line <= total
      && (TouchedBy(touches, line, EditMarker) || TouchedBy(touches, line, EditContextMarker));
    hide WithTouches, RequiredLines, TouchedBy, BeforeEdit, BeforeOther, ComeFirst, Wanted, FoldedViewOf, OutlineFor,
         OneScoreEach;
    var outline := ViewOutline(spans, root, s, edited, read, whole, x);
    MostSalientFirst(spans, total, s.scores, edited, read, outline, x);
  }

  lemma ViewOutline(spans: seq<Span>, root: ContentNode, s: Scored, edited: set<int>, read: Option<(int, int)>, whole: bool,
                    x: (int, real))
    returns (outline: seq<Span>)
    requires root.start == 1 && root.end > LINE_BUDGET && IsView(spans, root, s, read, whole) && x in s.scores
    requires edited == Lines(RequiredLines(s))
    ensures FoldedViewOf(spans, root.end, Wanted(s.scores, edited, read, outline, root.end))
  {
    var total := root.end;
    hide FoldedViewOf, OutlineFor, RequiredLines, IsCollapse, Wanted, Lines;
    outline :| OutlineFor(outline, root, whole)
      && var regions := Wanted(s.scores, edited, read, outline, total);
         if regions != [] then FoldedViewOf(spans, total, regions) else IsCollapse(spans, root, LINE_BUDGET);
    SomethingWanted(s.scores, edited, read, outline, total, x);
  }

  lemma SomethingWanted(scores: seq<(int, real)>, edited: set<int>, read: Option<(int, int)>, outline: seq<Span>,
                        total: nat, x: (int, real))
    requires x in scores
    ensures Wanted(scores, edited, read, outline, total) != []
  {
    ScoresPart(scores, edited);
    var only, other := OnlyLines(scores, edited), OtherLines(scores, edited);
    assert x in only || x in other;
    assert |SalientRegions(only, total)| == |only| && |SalientRegions(other, total)| == |other|;
  }

  predicate HasRead(o: Observed) {
    o.isRead && o.range.Some?
  }

  predicate NewestRead(all: seq<Observed>, i: int) {
    0 <= i < |all| && HasRead(all[i]) && forall j :: i < j < |all| ==> !HasRead(all[j])
  }

  /** The range of the newest read that has one. */
  lemma {:induction false} LatestReadIs(all: seq<Observed>)
    ensures LatestRead(all) == None <==> forall i :: 0 <= i < |all| ==> !HasRead(all[i])
    ensures forall i :: NewestRead(all, i) ==> LatestRead(all) == all[i].range
  {
    if all != [] {
      var front, n := all[..|all| - 1], |all| - 1;
      LatestReadIs(front);
      assert all == front + [all[n]];
      forall i ensures 0 <= i < |all| ==> (HasRead(all[i]) <==> if i < n then HasRead(front[i]) else HasRead(all[n])) {
      }
      forall i | NewestRead(all, i) ensures LatestRead(all) == all[i].range {
        if i < n { assert NewestRead(front, i); }
      }
    }
  }

  // ----- required lines and marks

  ghost predicate Ordered(lines: seq<int>, scores: seq<(int, real)>) {
    forall i, j, a, b :: 0 <= i < j < |lines| && a in scores && b in scores && a.0 == lines[i] && b.0 == lines[j] ==>
      Ranks(a, b)
  }

  /** Required lines come in the order of their scores. */
  lemma RequiredInOrder(s: Scored)
    requires OneScoreEach(s.scores)
    ensures Ordered(RequiredLines(s), s.scores)
  {
    var sorted := StableSort(s.scores, MoreSalient);
    forall i, j | 0 <= i < j < |sorted| ensures Ranks(sorted[i], sorted[j]) && sorted[i].0 != sorted[j].0 {
      SortedByRank(s.scores, i, j);
      SortedOnce(s.scores, i, j);
    }
    SameElements(s.scores, MoreSalient);
    hide StableSort, Ranks, MoreSalient, IsEdited;
    EditedInOrder(s, sorted);
    forall x ensures x in sorted <==> x in s.scores {
    }
  }

  lemma {:induction false} EditedInOrder(s: Scored, sorted: seq<(int, real)>)
    requires forall i, j :: 0 <= i < j < |sorted| ==> Ranks(sorted[i], sorted[j]) && sorted[i].0 != sorted[j].0
    ensures Ordered(EditedOf(s, sorted), sorted)
  {
    if sorted != [] {
      hide IsEdited, Ranks;
      var front, last := sorted[..|sorted| - 1], sorted[|sorted| - 1];
      EditedInOrder(s, front);
      EditedAre(s, front);
      var before, all := EditedOf(s, front), EditedOf(s, sorted);
      forall i, j, a, b | 0 <= i < j < |all| && a in sorted && b in sorted && a.0 == all[i] && b.0 == all[j]
        ensures Ranks(a, b)
      {
        assert all[i] == before[i] && all[i] in before;
        FromFront(sorted, a, all[i]);
        if j < |before| {
          assert all[j] == before[j] && all[j] in before;
          FromFront(sorted, b, all[j]);
        } else {
          assert b == last by { FromEnd(sorted, b); }
          var k :| 0 <= k < |front| && front[k] == a;
          assert sorted[k] == a;
        }
      }
    }
  }

  lemma FromFront(sorted: seq<(int, real)>, a: (int, real), line: int)
    requires forall i, j :: 0 <= i < j < |sorted| ==> sorted[i].0 != sorted[j].0
    requires a in sorted && a.0 == line && HasScore(sorted[..|sorted| - 1], line)
    ensures a in sorted[..|sorted| - 1]
  {
    var k :| 0 <= k < |sorted| && sorted[k] == a;
    var i :| 0 <= i < |sorted[..|sorted| - 1]| && sorted[..|sorted| - 1][i].0 == line;
    assert sorted[i].0 == line;
    assert sorted[..|sorted| - 1][i] == a;
  }

  lemma FromEnd(sorted: seq<(int, real)>, b: (int, real))
    requires forall i, j :: 0 <= i < j < |sorted| ==> sorted[i].0 != sorted[j].0
    requires b in sorted && b.0 == sorted[|sorted| - 1].0
    ensures b == sorted[|sorted| - 1]
  {
    var k :| 0 <= k < |sorted| && sorted[k] == b;
  }

  /** How a touched line of the file is marked: by the strongest of the things calls did to it. */
  lemma MarkedAs(touches: seq<Touch>, total: nat, line: int)
    requires 1 <= line <= total && Touched(touches, line)
    ensures var marks := MarkerTexts(WithTouches(Unscored, touches, total));
      && marks.Some? && line in marks.value
      && marks.value[line] ==
         if TouchedBy(touches, line, EditMarker) then "~"
         else if TouchedBy(touches, line, EditContextMarker) then "-"
         else if TouchedBy(touches, line, SearchMarker) then "!"
         else "*"
  {
    var s := WithTouches(Unscored, touches, total);
    ScoresAre(touches, total);
    assert HasScore(s.scores, line);
    hide WithTouches, Touched, TouchedBy, HasScore;
  }
}
