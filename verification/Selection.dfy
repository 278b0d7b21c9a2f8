// Which lines the selection keeps, line by line: everything that fits beside what comes before it.
module Selection {
  import opened Rendering
  import opened Requirements
  import opened Sorting
  import opened Spans

  /** The line `y` is required before `x` is. */
  ghost predicate RequiredBefore(required: seq<int>, y: int, x: int) {
    exists j :: 0 <= j < |required| && required[j] == y && x !in required[..j + 1]
  }

  /** The visible lines before `x` that are not required. */
  ghost function OptionalBefore(spans: seq<Span>, total: nat, required: seq<int>, x: int): set<int> {
    set y | 1 <= y <= total && Shows(spans, y) && y !in required && y < x
  }

  /** Of the lines kept, those that are considered before `x`. */
  ghost function KeptBefore(selected: set<int>, required: seq<int>, x: int): set<int> {
    if x in required then set y | y in selected && RequiredBefore(required, y, x)
    else set y | y in selected && (y in required || y < x)
  }

  /** The selection keeps a visible line if and only if showing it beside the kept lines before it fits the
      budget: a required line before it is one required earlier; before another line come all required ones and
      those above it, of which at most 511 may be visible. */
  ghost predicate Keeps(source: Source, spans: seq<Span>, charBudget: int, required: seq<int>, selected: set<int>, x: int) {
    && Considered(spans, |source.lines|, required, x)
    && ChargeOf(source, KeptBefore(selected, required, x) + {x}) <= charBudget
  }

  ghost predicate Considered(spans: seq<Span>, total: nat, required: seq<int>, x: int) {
    Visible(spans, total, x) && (x in required || |OptionalBefore(spans, total, required, x)| < 512)
  }

  ghost predicate Visible(spans: seq<Span>, total: nat, x: int) {
    1 <= x <= total && Shows(spans, x)
  }

  // ----- the greedy choice, position by position

  lemma {:induction false} KeptIff(source: Source, order: seq<int>, charBudget: int, i: nat)
    requires i < |order| && Distinct(order)
    ensures order[i] in Kept(source, order, charBudget) <==>
      ChargeOf(source, Kept(source, order[..i], charBudget) + {order[i]}) <= charBudget
  {
    if order[i] !in Kept(source, order, charBudget) {
      DroppedOverflows(source, order, charBudget, i);
    } else {
      KeptEarlier(source, order, charBudget, i + 1);
      KeptFits(source, order[..i], charBudget);
      assert order[..i + 1][..i] == order[..i];
      assert order[i] in order[..i + 1] && order[i] !in order[..i];
    }
  }

  /** The kept lines before position i, among all kept lines. */
  lemma KeptAt(source: Source, spans: seq<Span>, charBudget: int, required: seq<int>, i: nat)
    requires i < |CandidateOrder(source, spans, required)|
    ensures var order := CandidateOrder(source, spans, required);
      var selected := Selected(source, spans, charBudget, required);
      order[i] in selected <==> ChargeOf(source, (set y | y in selected && y in order[..i]) + {order[i]}) <= charBudget
  {
    var order := CandidateOrder(source, spans, required);
    OrderDistinct(source, spans, required);
    KeptIff(source, order, charBudget, i);
    KeptEarlier(source, order, charBudget, i);
  }

  // ----- what comes before a candidate

  lemma {:induction false} EarlierMentions(required: seq<int>, visible: set<int>, i: nat, y: int)
    requires i < |Prioritized(required, visible)|
    ensures var first := Prioritized(required, visible);
      y in first[..i] <==> y in visible && RequiredBefore(required, y, first[i])
  {
    var first := Prioritized(required, visible);
    var front, last := required[..|required| - 1], required[|required| - 1];
    var before := Prioritized(front, visible);
    PrioritizedAreVisible(front, visible);
    assert before <= first;
    var x := first[i];
    assert required == front + [last];
    if i < |before| {
      EarlierMentions(front, visible, i, y);
      assert first[..i] == before[..i];
      assert x in before && x in front;
      MentionAppended(front, last, y, x);
    } else {
      assert first[..i] == before;
      NotMentioned(front, last, y);
    }
  }

  lemma MentionAppended(front: seq<int>, last: int, y: int, x: int)
    requires x in front
    ensures RequiredBefore(front + [last], y, x) <==> RequiredBefore(front, y, x)
  {
    var required := front + [last];
    assert forall j :: 0 <= j < |front| ==> required[..j + 1] == front[..j + 1] && required[j] == front[j];
    assert required[..|required|] == required;
  }

  lemma NotMentioned(front: seq<int>, x: int, y: int)
    requires x !in front
    ensures RequiredBefore(front + [x], y, x) <==> y in front
  {
    var required := front + [x];
    assert forall j :: 0 <= j < |front| ==> required[..j + 1] == front[..j + 1] && required[j] == front[j];
    assert required[..|required|] == required;
    if y in front {
      var j :| 0 <= j < |front| && front[j] == y;
      assert required[j] == y && x !in required[..j + 1];
    }
  }

  /** The smaller members come first, one place each. */
  lemma {:induction false} SmallerFirst(lo: int, hi: int, s: set<int>, k: nat)
    requires k < |LinesIn(lo, hi, s)|
    ensures var lines := LinesIn(lo, hi, s);
      && (forall y :: y in lines[..k] <==> lo <= y < lines[k] && y in s)
      && |set y | lo <= y < lines[k] && y in s| == k
      && lo <= lines[k] <= hi && lines[k] in s
    decreases hi - lo
  {
    var lines := LinesIn(lo, hi, s);
    LinesInElements(lo, hi, s);
    LinesInAscend(lo, hi, s);
    assert lines[k] in lines;
    forall y ensures y in lines[..k] <==> lo <= y < lines[k] && y in s {
      if y in lines[..k] {
        var j :| 0 <= j < k && lines[j] == y;
        assert y in lines;
      }
      if lo <= y < lines[k] && y in s {
        assert y in lines;
        var j :| 0 <= j < |lines| && lines[j] == y;
        assert j < k;
      }
    }
    assert (set y | lo <= y < lines[k] && y in s) == set y | y in lines[..k];
    CountNoRepeats(lines[..k]);
  }

  /** The line comes before `x` among the candidates. */
  ghost predicate Before(spans: seq<Span>, total: nat, required: seq<int>, y: int, x: int) {
    Visible(spans, total, y) && if x in required then RequiredBefore(required, y, x) else y in required || y < x
  }

  /** The position of `x`, with just the lines considered before it in front. */
  ghost predicate ComesAt(order: seq<int>, i: nat, spans: seq<Span>, total: nat, required: seq<int>, x: int) {
    i < |order| && order[i] == x && forall y :: y in order[..i] <==> Before(spans, total, required, y, x)
  }

  lemma RequiredCandidate(source: Source, spans: seq<Span>, required: seq<int>, x: int) returns (i: nat)
    requires x in required && Visible(spans, |source.lines|, x)
    ensures ComesAt(CandidateOrder(source, spans, required), i, spans, |source.lines|, required, x)
  {
    var total := |source.lines|;
    var visible := ShownLines(spans, total);
    var first := Prioritized(required, visible);
    PrioritizedAreVisible(required, visible);
    var order := CandidateOrder(source, spans, required);
    assert first <= order;
    hide CandidateOrder, Prioritized, RequiredBefore, Shows;
    i :| 0 <= i < |first| && first[i] == x;
    assert order[..i] == first[..i];
    forall y ensures y in order[..i] <==> Before(spans, total, required, y, x) {
      EarlierMentions(required, visible, i, y);
    }
  }

  /** The other visible lines. */
  ghost function Others(source: Source, spans: seq<Span>, required: seq<int>): set<int> {
    var visible := ShownLines(spans, |source.lines|);
    visible - set line | line in Prioritized(required, visible)
  }

  lemma OthersAre(source: Source, spans: seq<Span>, required: seq<int>)
    ensures forall y :: y in Others(source, spans, required) <==> Visible(spans, |source.lines|, y) && y !in required
    ensures var first := Prioritized(required, ShownLines(spans, |source.lines|));
      && CandidateOrder(source, spans, required) ==
         first + Take(LinesIn(1, |source.lines|, Others(source, spans, required)), OPTIONAL_CANDIDATE_LIMIT)
      && forall y :: y in first <==> Visible(spans, |source.lines|, y) && y in required
  {
    PrioritizedAreVisible(required, ShownLines(spans, |source.lines|));
  }

  lemma OtherCandidate(source: Source, spans: seq<Span>, required: seq<int>, x: int) returns (i: nat)
    requires x !in required && Visible(spans, |source.lines|, x)
    ensures var order, total := CandidateOrder(source, spans, required), |source.lines|;
      && (x in order <==> |OptionalBefore(spans, total, required, x)| < 512)
      && (x in order ==> ComesAt(order, i, spans, total, required, x))
  {
    var total := |source.lines|;
    var rest := Others(source, spans, required);
    OthersAre(source, spans, required);
    var first, lines := Prioritized(required, ShownLines(spans, total)), LinesIn(1, total, rest);
    LinesInElements(1, total, rest);
    assert x in lines;
    var k :| 0 <= k < |lines| && lines[k] == x;
    hide *;
    SmallerFirst(1, total, rest, k);
    OptionalAre(spans, total, required, rest, x);
    i := |first| + k;
    TakenIff(lines, k, total, rest);
    InSecond(first, Take(lines, OPTIONAL_CANDIDATE_LIMIT), x);
    if k < 512 {
      SecondComesAt(first, Take(lines, OPTIONAL_CANDIDATE_LIMIT), k, spans, total, required, x);
    }
  }

  lemma InSecond(first: seq<int>, second: seq<int>, x: int)
    requires x !in first
    ensures x in first + second <==> x in second
  {
  }

  lemma SecondComesAt(first: seq<int>, second: seq<int>, k: nat, spans: seq<Span>, total: nat, required: seq<int>, x: int)
    requires k < |second| && second[k] == x && x !in required
    requires forall y :: y in first <==> Visible(spans, total, y) && y in required
    requires forall y :: y in second[..k] <==> Visible(spans, total, y) && y !in required && y < x
    ensures ComesAt(first + second, |first| + k, spans, total, required, x)
  {
    hide Visible;
    var order := first + second;
    assert order[..|first| + k] == first + second[..k];
  }

  lemma OptionalAre(spans: seq<Span>, total: nat, required: seq<int>, rest: set<int>, x: int)
    requires forall y :: y in rest <==> Visible(spans, total, y) && y !in required
    ensures OptionalBefore(spans, total, required, x) == set y | 1 <= y < x && y in rest
  {
    hide Shows;
  }

  lemma TakenIff(lines: seq<int>, k: nat, total: nat, rest: set<int>)
    requires lines == LinesIn(1, total, rest) && k < |lines|
    ensures var taken := Take(lines, OPTIONAL_CANDIDATE_LIMIT);
      && (lines[k] in taken <==> k < 512)
      && (k < 512 ==> k < |taken| && taken[k] == lines[k] && taken[..k] == lines[..k])
  {
    LinesInAscend(1, total, rest);
    var taken := Take(lines, OPTIONAL_CANDIDATE_LIMIT);
    assert forall j :: 0 <= j < |taken| ==> taken[j] == lines[j];
    if k < 512 { assert taken[k] == lines[k]; }
  }

  /** The candidates: the required visible lines, then the others while fewer than 512 came before. */
  lemma CandidateIff(source: Source, spans: seq<Span>, required: seq<int>, x: int) returns (i: nat)
    ensures var order, total := CandidateOrder(source, spans, required), |source.lines|;
      && (x in order <==> Considered(spans, total, required, x))
      && (x in order ==> ComesAt(order, i, spans, total, required, x))
  {
    hide CandidateOrder, Shows, RequiredBefore;
    i := 0;
    CandidatesInFile(source, spans, required);
    if Visible(spans, |source.lines|, x) {
      if x in required {
        i := RequiredCandidate(source, spans, required, x);
      } else {
        i := OtherCandidate(source, spans, required, x);
      }
    }
  }

  /** What is selected, exactly. */
  lemma SelectedIff(source: Source, spans: seq<Span>, charBudget: int, required: seq<int>, x: int)
    ensures var selected := Selected(source, spans, charBudget, required);
      x in selected <==> Keeps(source, spans, charBudget, required, selected, x)
  {
    var order, total := CandidateOrder(source, spans, required), |source.lines|;
    var selected := Selected(source, spans, charBudget, required);
    assert selected == Kept(source, order, charBudget);
    KeptFits(source, order, charBudget);
    CandidatesInFile(source, spans, required);
    hide CandidateOrder, Selected, Kept, Shows, RequiredBefore, ChargeOf, Considered;
    var i := CandidateIff(source, spans, required, x);
    if x in order {
      KeptAt(source, spans, charBudget, required, i);
      SameBefore(order, i, spans, total, required, x, selected);
    }
  }

  lemma SameBefore(order: seq<int>, i: nat, spans: seq<Span>, total: nat, required: seq<int>, x: int, selected: set<int>)
    requires ComesAt(order, i, spans, total, required, x)
    requires forall y :: y in selected ==> Visible(spans, total, y)
    ensures (set y | y in selected && y in order[..i]) == KeptBefore(selected, required, x)
  {
    hide Shows, RequiredBefore;
    forall y ensures (y in selected && y in order[..i]) <==> y in KeptBefore(selected, required, x) {
      if y in selected {
        assert y in order[..i] <==> Before(spans, total, required, y, x);
      }
    }
  }
}
