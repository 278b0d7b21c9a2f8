// How much the calls count for the lines they observed.
module Salience {
  import opened FileContext
  import opened FoldedView
  import opened Optional
  import opened Spans

  /** How often the line is among the given ones. */
  function Times(lines: seq<int>, line: int): (n: nat)
    ensures n > 0 <==> line in lines
  {
    if lines == [] then 0 else Times(lines[..|lines| - 1], line) + if lines[|lines| - 1] == line then 1 else 0
  }

  predicate InRange(range: Option<(int, int)>, total: nat, line: int) {
    range.Some? && 1 <= line <= total && range.value.0 <= line <= range.value.1
  }

  /** What the newest call counts for a line: 4 for reading it, 5 for each hit, 6 for each edit on or beside it. */
  function Fresh(o: Observed, total: nat, line: int): nat {
    (if InRange(o.range, total, line) then 4 else 0)
    + 5 * Times(o.searched, line) + 6 * Times(o.edited, line) + 6 * Times(o.editContext, line)
  }

  /** What a call counts for a line when the latest call has the given index. */
  function Weight(o: Observed, latest: nat, total: nat, line: int): real
    requires o.sequenceIndex <= latest
  {
    Fresh(o, total, line) as real * Power(SALIENCE_DECAY, latest - o.sequenceIndex)
  }

  /** What the calls count together. */
  function Weights(all: seq<Observed>, latest: nat, total: nat, line: int): real
    requires NoneAfter(all, latest)
  {
    if all == [] then 0.0
    else
      assert forall i :: 0 <= i < |all| - 1 ==> all[..|all| - 1][i] == all[i];
      Weights(all[..|all| - 1], latest, total, line) + Weight(all[|all| - 1], latest, total, line)
  }

  lemma {:induction false} TotalAppend(a: seq<Touch>, b: seq<Touch>, line: int)
    ensures TotalSalience(a + b, line) == TotalSalience(a, line) + TotalSalience(b, line)
  {
    if b == [] {
      assert a + b == a;
    } else {
      assert (a + b)[..|a + b| - 1] == a + b[..|b| - 1];
      TotalAppend(a, b[..|b| - 1], line);
    }
  }

  function Scaled(n: nat, x: real): (r: real)
    ensures n == 0 ==> r == 0.0
  {
    n as real * x
  }

  lemma OneMore(n: nat, x: real)
    ensures Scaled(n + 1, x) == Scaled(n, x) + x
  {
  }

  lemma {:induction false} TouchesCount(lines: seq<int>, salience: real, marker: Marker, line: int)
    ensures TotalSalience(Touches(lines, salience, marker), line) == Scaled(Times(lines, line), salience)
  {
    hide Scaled;
    if lines != [] {
      var front, touches := lines[..|lines| - 1], Touches(lines, salience, marker);
      TouchesCount(front, salience, marker, line);
      assert touches[..|touches| - 1] == Touches(front, salience, marker);
      OneMore(Times(front, line), salience);
    }
  }

  lemma {:induction false} RangeCount(first: int, last: int, line: int)
    ensures Times(RangeLines(first, last), line) == if first <= line <= last then 1 else 0
    decreases last - first
  {
    if first <= last {
      RangeCount(first + 1, last, line);
      CountCons(first, RangeLines(first + 1, last), line);
    }
  }

  lemma {:induction false} CountCons(x: int, lines: seq<int>, line: int)
    ensures Times([x] + lines, line) == Times(lines, line) + if x == line then 1 else 0
  {
    if lines == [] {
      assert [x] + lines == [x];
    } else {
      var front := lines[..|lines| - 1];
      CountCons(x, front, line);
      assert ([x] + lines)[..|lines|] == [x] + front;
    }
  }

  lemma ClampedCount(range: Option<(int, int)>, total: nat, line: int)
    ensures Times(ClampedLines(range, total), line) == if InRange(range, total, line) then 1 else 0
  {
    var clamped := Clamp(range, total);
    if clamped != [] {
      RangeCount(clamped[0].0, clamped[0].1, line);
    }
  }

  lemma Spread(a: real, b: real, c: real, d: real, x: real)
    ensures a * (4.0 * x) + b * (5.0 * x) + c * (6.0 * x) + d * (6.0 * x) == (4.0 * a + 5.0 * b + 6.0 * c + 6.0 * d) * x
  {
  }

  lemma CallWeighs(o: Observed, latest: nat, total: nat, line: int)
    requires o.sequenceIndex <= latest
    ensures TotalSalience(ObservedTouches(o, latest, total), line) == Weight(o, latest, total, line)
  {
    hide ObservedTouches, TotalSalience, Touches, ClampedLines, Times, InRange, Power;
    var decay := Power(SALIENCE_DECAY, latest - o.sequenceIndex);
    var read := Touches(ClampedLines(o.range, total), 4.0 * decay, ReadMarker);
    var hits := Touches(o.searched, 5.0 * decay, SearchMarker);
    var edits := Touches(o.edited, 6.0 * decay, EditMarker);
    var beside := Touches(o.editContext, 6.0 * decay, EditContextMarker);
    TouchesAre(o, latest, total);
    TotalAppend(read + hits + edits, beside, line);
    TotalAppend(read + hits, edits, line);
    TotalAppend(read, hits, line);
    TouchesCount(ClampedLines(o.range, total), 4.0 * decay, ReadMarker, line);
    TouchesCount(o.searched, 5.0 * decay, SearchMarker, line);
    TouchesCount(o.edited, 6.0 * decay, EditMarker, line);
    TouchesCount(o.editContext, 6.0 * decay, EditContextMarker, line);
    ClampedCount(o.range, total, line);
    Spread(Times(ClampedLines(o.range, total), line) as real, Times(o.searched, line) as real,
           Times(o.edited, line) as real, Times(o.editContext, line) as real, decay);
  }

  lemma {:induction false} CallsWeigh(all: seq<Observed>, latest: nat, total: nat, line: int)
    requires NoneAfter(all, latest)
    ensures TotalSalience(AllTouches(all, latest, total), line) == Weights(all, latest, total, line)
  {
    if all != [] {
      var front, last := all[..|all| - 1], all[|all| - 1];
      assert NoneAfter(front, latest);
      CallsWeigh(front, latest, total, line);
      CallWeighs(last, latest, total, line);
      hide ObservedTouches, TotalSalience, Weight;
      TotalAppend(AllTouches(front, latest, total), ObservedTouches(last, latest, total), line);
    }
  }

  /** The score of a line is what the calls count for it. */
  lemma ScoresWeigh(all: seq<Observed>, latest: nat, total: nat)
    requires NoneAfter(all, latest)
    ensures var scores := WithTouches(Unscored, AllTouches(all, latest, total), total).scores;
      forall i :: 0 <= i < |scores| ==> scores[i].1 == Weights(all, latest, total, scores[i].0)
  {
    hide AllTouches, WithTouches, Weights;
    var touches := AllTouches(all, latest, total);
    var scores := WithTouches(Unscored, touches, total).scores;
    ScoresAre(touches, total);
    forall i | 0 <= i < |scores| ensures scores[i].1 == Weights(all, latest, total, scores[i].0) {
      CallsWeigh(all, latest, total, scores[i].0);
    }
  }

  // ----- what age does

  /** The newest call counts in full. */
  lemma NewestWeighs(o: Observed, total: nat, line: int)
    ensures Weight(o, o.sequenceIndex, total, line) == Fresh(o, total, line) as real
  {
  }

  lemma Rescale(a: real, x: real, y: real)
    ensures a * (x * y) == x * (a * y)
  {
  }

  /** With each later call, an earlier one counts 0.88 of what it did. */
  lemma OlderWeighs(o: Observed, latest: nat, total: nat, line: int)
    requires o.sequenceIndex <= latest
    ensures Weight(o, latest + 1, total, line) == 0.88 * Weight(o, latest, total, line)
  {
    var age := latest - o.sequenceIndex;
    assert Power(SALIENCE_DECAY, age + 1) == SALIENCE_DECAY * Power(SALIENCE_DECAY, age);
    hide Power, Fresh;
    Rescale(Fresh(o, total, line) as real, SALIENCE_DECAY, Power(SALIENCE_DECAY, age));
  }

  /** So does everything counted before. */
  lemma {:induction false} ScoresDecay(all: seq<Observed>, latest: nat, total: nat, line: int)
    requires NoneAfter(all, latest)
    ensures NoneAfter(all, latest + 1)
    ensures Weights(all, latest + 1, total, line) == 0.88 * Weights(all, latest, total, line)
  {
    hide Weight;
    if all != [] {
      assert NoneAfter(all[..|all| - 1], latest);
      ScoresDecay(all[..|all| - 1], latest, total, line);
      OlderWeighs(all[|all| - 1], latest, total, line);
    }
  }

  lemma {:induction false} PowerPositive(x: real, n: nat)
    requires x > 0.0
    ensures Power(x, n) > 0.0
  {
    if n > 0 {
      PowerPositive(x, n - 1);
    }
  }

  lemma Heavier(a: nat, b: nat, x: real)
    requires a > b && x > 0.0
    ensures a as real * x > b as real * x
  {
  }

  predicate Edited(o: Observed, line: int) {
    line in o.edited || line in o.editContext
  }

  /** Of two calls of the same age, one that edited a line counts more than one that hit it once, and that one more
      than one that only read it. */
  lemma EditsOutweigh(e: Observed, h: Observed, r: Observed, latest: nat, total: nat, line: int)
    requires e.sequenceIndex == h.sequenceIndex == r.sequenceIndex <= latest
    requires Edited(e, line)
    requires !Edited(h, line) && Times(h.searched, line) == 1 && !InRange(h.range, total, line)
    requires !Edited(r, line) && line !in r.searched && InRange(r.range, total, line)
    ensures Weight(e, latest, total, line) > Weight(h, latest, total, line)
    ensures Weight(h, latest, total, line) > Weight(r, latest, total, line) > 0.0
  {
    hide Times, Power, InRange;
    var decay := Power(SALIENCE_DECAY, latest - e.sequenceIndex);
    PowerPositive(SALIENCE_DECAY, latest - e.sequenceIndex);
    Heavier(Fresh(e, total, line), Fresh(h, total, line), decay);
    Heavier(Fresh(h, total, line), Fresh(r, total, line), decay);
    Heavier(Fresh(r, total, line), 0, decay);
  }
}
