// The gate goes on: where its disposition allows a step, some run takes it.
module GateProgress {
  import opened GateAudit
  import opened GateProtocol
  import opened GateSnapshot
  import opened Optional

  /** Each state leads to the next. */
  ghost predicate Leads(g: Gate, run: seq<State>)
    requires g.Valid()
  {
    |run| > 0 && forall i :: 0 <= i < |run| ==> StepAt(g, run, i)
  }

  /** Standing still, the files let one process read its way along these places. */
  ghost predicate Walk(g: Gate, f: Files, places: seq<Process>)
    requires g.Valid() && Sized(g.definition, f)
  {
    |places| > 0 && forall i, j :: 0 <= i < |places| && j == i + 1 && j < |places| ==> Observes(g, f, places[i], places[j])
  }

  function Moved(s: State, pid: nat, place: Process): State {
    s.(processes := s.processes[pid := place])
  }

  lemma WalkMore(g: Gate, f: Files, places: seq<Process>, next: Process)
    requires g.Valid() && Sized(g.definition, f) && Walk(g, f, places) && Observes(g, f, places[|places| - 1], next)
    ensures Walk(g, f, places + [next])
  {
    hide Observes;
  }

  lemma WalkJoin(g: Gate, f: Files, a: seq<Process>, b: seq<Process>)
    requires g.Valid() && Sized(g.definition, f) && Walk(g, f, a) && Walk(g, f, b) && a[|a| - 1] == b[0]
    ensures Walk(g, f, a + b[1..]) && (a + b[1..])[|a + b[1..]| - 1] == b[|b| - 1]
  {
    hide Observes;
    var all := a + b[1..];
    forall i, j | 0 <= i < |all| && j == i + 1 && j < |all| ensures Observes(g, f, all[i], all[j]) {
      if j < |a| {
        assert Observes(g, f, a[i], a[j]);
      } else {
        assert all[i] == b[i - |a| + 1] && all[j] == b[j - |a| + 1];
      }
    }
  }

  /** A process that gives up what it does and then reads its way along the places. */
  lemma WalkRuns(g: Gate, s: State, pid: nat, places: seq<Process>) returns (run: seq<State>)
    requires g.Valid() && Sized(g.definition, s.files) && pid in s.processes && Walk(g, s.files, places) && places[0] == Idle
    ensures Leads(g, run) && run[0] == s && run[|run| - 1] == Moved(s, pid, places[|places| - 1])
  {
    run := [s] + seq(|places|, i requires 0 <= i < |places| => Moved(s, pid, places[i]));
    hide Observes;
    forall i | 0 <= i < |run| ensures StepAt(g, run, i) {
      if i + 1 < |run| {
        assert run[i + 1].processes == run[i].processes[pid := places[i]];
        if i > 0 {
          assert Observes(g, s.files, places[i - 1], places[i]);
        }
        assert Acts(g, run[i], run[i + 1], pid);
      }
    }
  }

  lemma LeadsMore(g: Gate, run: seq<State>, t: State)
    requires g.Valid() && Leads(g, run) && Sized(g.definition, run[|run| - 1].files) && Next(g, run[|run| - 1], t)
    ensures Leads(g, run + [t])
  {
    hide Next;
    forall i | 0 <= i < |run + [t]| ensures StepAt(g, run + [t], i) {
      assert i < |run| ==> StepAt(g, run, i);
    }
  }

  // ----- reading the finished slots

  lemma SlotRead(g: Gate, f: Files, goal: Goal, completed: seq<CompletedSlot>, i: nat) returns (places: seq<Process>)
    requires g.Valid() && Sized(g.definition, f) && ReadAs(g.definition, g.hash, f, completed) && i < |completed|
    ensures Walk(g, f, places) && places[0] == AtReceipt(goal, completed[..i])
    ensures places[|places| - 1] == AtReceipt(goal, completed[..i + 1])
  {
    assert CompletedAt(g.definition, g.hash, f, i) == Some(completed[i]);
    var before, receipt := completed[..i], ReadReceipt(g.definition, i, f.receipts[i]).value;
    assert completed[..i + 1] == before + [completed[i]];
    places := [AtReceipt(goal, before), ReadingReceipt(goal, before), AtAudit(goal, before, receipt),
               ReadingAudit(goal, before, receipt), AtReceipt(goal, completed[..i + 1])];
    hide AcceptedAudit;
    assert Observes(g, f, places[0], places[1]) && Observes(g, f, places[1], places[2]);
    assert Observes(g, f, places[2], places[3]) && Observes(g, f, places[3], places[4]);
    hide Observes;
  }

  lemma {:induction false} SlotsRead(g: Gate, f: Files, goal: Goal, completed: seq<CompletedSlot>, n: nat)
    returns (places: seq<Process>)
    requires g.Valid() && Sized(g.definition, f) && ReadAs(g.definition, g.hash, f, completed) && n <= |completed|
    requires OwnFileAbsent(f, goal)
    ensures Walk(g, f, places) && |places| > 0 && places[0] == Idle && places[|places| - 1] == AtReceipt(goal, completed[..n])
  {
    if n == 0 {
      places := [Idle, Begun(goal), AtReceipt(goal, [])];
      assert completed[..0] == [];
      assert Observes(g, f, places[0], places[1]) && Observes(g, f, places[1], places[2]);
    } else {
      hide *;
      var before := SlotsRead(g, f, goal, completed, n - 1);
      var slot := SlotRead(g, f, goal, completed, n - 1);
      WalkLasts(g, f, before);
      WalkLasts(g, f, slot);
      WalkJoin(g, f, before, slot);
      places := before + slot[1..];
    }
  }

  lemma WalkLasts(g: Gate, f: Files, places: seq<Process>)
    requires g.Valid() && Sized(g.definition, f) && Walk(g, f, places)
    ensures |places| > 0
  {
  }

  predicate NoneExist(f: Files, paths: seq<Path>)
    requires |f.receipts| == |f.audits| == SLOTS
  {
    forall i :: 0 <= i < |paths| ==> !Exists(f, paths[i])
  }

  lemma {:induction false} LookedAhead(g: Gate, f: Files, goal: Goal, verdict: Verdict, rest: seq<Path>)
    returns (places: seq<Process>)
    requires g.Valid() && Sized(g.definition, f) && NoneExist(f, rest)
    ensures Walk(g, f, places) && |places| > 0 && places[0] == LookingAhead(goal, verdict, rest) && places[|places| - 1] == Decided(goal, verdict)
    decreases |rest|
  {
    if rest == [] {
      places := [LookingAhead(goal, verdict, rest), Decided(goal, verdict)];
    } else {
      var more := LookedAhead(g, f, goal, verdict, rest[1..]);
      places := [LookingAhead(goal, verdict, rest)] + more;
      assert Observes(g, f, places[0], places[1]);
      hide Observes, Exists;
      forall i, j | 0 <= i < |places| && j == i + 1 && j < |places| ensures Observes(g, f, places[i], places[j]) {
        if i > 0 { assert places[i] == more[i - 1] && places[j] == more[j - 1]; }
      }
    }
  }

  lemma {:induction false} LaterAbsent(f: Files, start: nat)
    requires |f.receipts| == |f.audits| == SLOTS && NothingFrom(f, start)
    ensures NoneExist(f, Later(start))
    decreases SLOTS - start
  {
    if start < SLOTS { LaterAbsent(f, start + 1); }
  }

  lemma {:induction false} PriorsChecked(g: Gate, f: Files, k: nat, h: Digest, n: nat) returns (places: seq<Process>)
    requires g.Valid() && Sized(g.definition, f) && n <= k < SLOTS
    requires forall j: nat :: j < k ==> PriorAgrees(g.definition, f, j, h)
    ensures Walk(g, f, places) && |places| > 0 && places[0] == CheckingPrior(k, h, 0) && places[|places| - 1] == CheckingPrior(k, h, n)
  {
    if n == 0 {
      places := [CheckingPrior(k, h, 0)];
    } else {
      var before := PriorsChecked(g, f, k, h, n - 1);
      assert Observes(g, f, CheckingPrior(k, h, n - 1), CheckingPrior(k, h, n));
      WalkMore(g, f, before, CheckingPrior(k, h, n));
      places := before + [CheckingPrior(k, h, n)];
    }
  }

  // ----- consuming the next slot

  /** The authorization the gate runs under, or any digest before its start. */
  function Running(f: Files, otherwise: Digest): Digest
    requires |f.receipts| == SLOTS
  {
    if f.receipts[0].Complete? then f.receipts[0].content.authorization else otherwise
  }

  /** The first k receipts agree with the authorization the gate runs under. */
  lemma PriorsAgree(g: Gate, s: State, completed: seq<CompletedSlot>, otherwise: Digest)
    requires g.Valid() && Safe(g, s) && ReadAs(g.definition, g.hash, s.files, completed)
    ensures forall j: nat :: j < |completed| ==> PriorAgrees(g.definition, s.files, j, Running(s.files, otherwise))
  {
    var f := s.files;
    forall j: nat | j < |completed| ensures PriorAgrees(g.definition, f, j, Running(f, otherwise)) {
      assert CompletedAt(g.definition, g.hash, f, j) == Some(completed[j]);
      assert CompletedAt(g.definition, g.hash, f, 0) == Some(completed[0]);
      assert AuthorizationOf(f.receipts[j]) == AuthorizationOf(f.receipts[0]);
    }
  }

  /** From where it stands one process reads its way to creating the receipt. */
  lemma ReadsToCreate(g: Gate, s: State, completed: seq<CompletedSlot>, otherwise: Digest) returns (places: seq<Process>)
    requires g.Valid() && Safe(g, s) && ReadAs(g.definition, g.hash, s.files, completed) && NothingFrom(s.files, |completed|)
    requires AfterCompleted(g.definition, completed) == Ready(|completed|) && |completed| < SLOTS
    ensures Sized(g.definition, s.files) && Walk(g, s.files, places) && |places| > 0 && places[0] == Idle
    ensures places[|places| - 1] == CreatingReceipt(|completed|, Running(s.files, otherwise))
  {
    hide *;
    SafeIsSized(g, s);
    var f, k, h := s.files, |completed|, Running(s.files, otherwise);
    var goal := Consume(k);
    FirstLooks(g, f, goal, completed);
    var read := SlotsRead(g, f, goal, completed, k);
    assert completed[..k] == completed;
    PriorsAgree(g, s, completed, otherwise);
    var rest := [AuditOf(k)] + Later(k + 1);
    NothingAhead(f, k);
    var looked := LookedAhead(g, f, goal, Ready(k), rest);
    var checked := PriorsChecked(g, f, k, h, k);
    DecidesToCreate(g, f, k, h);
    places := Joined(g, f, read, looked);
    places := Joined(g, f, places, checked);
    WalkLasts(g, f, places);
    WalkMore(g, f, places, CreatingReceipt(k, h));
    places := places + [CreatingReceipt(k, h)];
  }

  lemma SafeIsSized(g: Gate, s: State)
    requires g.Valid() && Safe(g, s)
    ensures Sized(g.definition, s.files) && |s.files.receipts| == |s.files.audits| == SLOTS
  {
  }

  /** One walk after the other, where the first ends with a step to the second. */
  lemma Joined(g: Gate, f: Files, a: seq<Process>, b: seq<Process>) returns (places: seq<Process>)
    requires g.Valid() && Sized(g.definition, f) && Walk(g, f, a) && Walk(g, f, b) && |a| > 0 && |b| > 0
    requires Observes(g, f, a[|a| - 1], b[0])
    ensures Walk(g, f, places) && |places| > 0 && places[0] == a[0] && places[|places| - 1] == b[|b| - 1]
  {
    hide *;
    WalkMore(g, f, a, b[0]);
    WalkJoin(g, f, a + [b[0]], b);
    places := a + [b[0]] + b[1..];
  }

  lemma NothingAhead(f: Files, k: nat)
    requires |f.receipts| == |f.audits| == SLOTS && NothingFrom(f, k) && k < SLOTS
    ensures NoneExist(f, [AuditOf(k)] + Later(k + 1))
  {
    LaterAbsent(f, k + 1);
  }

  lemma DecidesToCreate(g: Gate, f: Files, k: nat, h: Digest)
    requires g.Valid() && Sized(g.definition, f) && k < SLOTS
    ensures Observes(g, f, Decided(Consume(k), Ready(k)), CheckingPrior(k, h, 0))
    ensures Observes(g, f, CheckingPrior(k, h, k), CreatingReceipt(k, h))
  {
  }

  lemma FirstLooks(g: Gate, f: Files, goal: Goal, completed: seq<CompletedSlot>)
    requires g.Valid() && Sized(g.definition, f) && |completed| < SLOTS && NothingFrom(f, |completed|)
    ensures var k := |completed|;
      Observes(g, f, AtReceipt(goal, completed),
               LookingAhead(goal, AfterCompleted(g.definition, completed), [AuditOf(k)] + Later(k + 1)))
    ensures !Exists(f, AuditOf(|completed|)) && OwnFileAbsent(f, Consume(|completed|))
  {
  }

  /** Where the files say that the gate is ready for slot k, some run of any one process consumes it: its receipt
      is finished under the gate's authorization, and every other file is as it was. */
  lemma ReadyGoesOn(g: Gate, s: State, completed: seq<CompletedSlot>, pid: nat, otherwise: Digest) returns (run: seq<State>)
    requires g.Valid() && Safe(g, s) && pid in s.processes
    requires ReadAs(g.definition, g.hash, s.files, completed) && NothingFrom(s.files, |completed|)
    requires Says(g.definition, g.hash, s.files, Some(Ready(|completed|)))
    ensures Leads(g, run) && run[0] == s
    ensures var k, last := |completed|, run[|run| - 1];
      && k < SLOTS && last.consumed == s.consumed + [k] && last.recorded == s.recorded
      && last.files ==
           s.files.(receipts := s.files.receipts[k := Complete(
             ReceiptFor(g.definition, g.definition.schedule[k], Running(s.files, otherwise)))])
  {
    var k, h := |completed|, Running(s.files, otherwise);
    SaysDecision(g.definition, g.hash, s.files, completed);
    DispositionIff(g.definition, g.hash, s.files, completed, k);
    var places := ReadsToCreate(g, s, completed, otherwise);
    run := WalkRuns(g, s, pid, places);
    run := Consumes(g, s, run, pid, k, h);
  }

  /** The exclusive create and the finished write. */
  lemma Consumes(g: Gate, s: State, run: seq<State>, pid: nat, k: nat, h: Digest) returns (longer: seq<State>)
    requires g.Valid() && Sized(g.definition, s.files) && pid in s.processes && k < SLOTS && s.files.receipts[k].Absent?
    requires Leads(g, run) && run[0] == s && run[|run| - 1] == Moved(s, pid, CreatingReceipt(k, h))
    ensures Leads(g, longer) && longer[0] == s
    ensures var last := longer[|longer| - 1];
      && last.consumed == s.consumed + [k] && last.recorded == s.recorded
      && last.files ==
           s.files.(receipts := s.files.receipts[k := Complete(ReceiptFor(g.definition, g.definition.schedule[k], h))])
  {
    var f, receipt := s.files, ReceiptFor(g.definition, g.definition.schedule[k], h);
    var here := run[|run| - 1];
    var created := State(f.(receipts := f.receipts[k := Partial(receipt)]), s.processes[pid := FinishingReceipt(k)],
                         s.consumed + [k], s.recorded);
    var finished := State(f.(receipts := f.receipts[k := Complete(receipt)]), s.processes[pid := Idle], s.consumed + [k], s.recorded);
    assert created.processes == here.processes[pid := FinishingReceipt(k)];
    assert finished.processes == created.processes[pid := Idle];
    assert finished.files.receipts == created.files.receipts[k := Complete(receipt)];
    assert Writes(g, here, CreatingReceipt(k, h), created, FinishingReceipt(k));
    assert Acts(g, here, created, pid);
    assert Writes(g, created, FinishingReceipt(k), finished, Idle);
    assert Acts(g, created, finished, pid);
    hide Writes, Observes;
    LeadsMore(g, run, created);
    LeadsMore(g, run + [created], finished);
    longer := run + [created] + [finished];
  }

  /** So no gate is stuck whose attempts so far did not fail: unless the second attempt was not fully usable or
      the first two used too many tokens, some run consumes the next slot. */
  lemma UnfailingGoesOn(g: Gate, s: State, completed: seq<CompletedSlot>, pid: nat, otherwise: Digest) returns (run: seq<State>)
    requires g.Valid() && Safe(g, s) && pid in s.processes
    requires ReadAs(g.definition, g.hash, s.files, completed) && NothingFrom(s.files, |completed|)
    requires |completed| < SLOTS && Unfailing(completed)
    requires |completed| == 2 ==>
      && FullyUsable(completed[1])
      && completed[0].submittedTokens != None && completed[1].submittedTokens != None
      && completed[0].submittedTokens.value + completed[1].submittedTokens.value <= g.definition.tokenLimit
    ensures Leads(g, run) && run[0] == s && run[|run| - 1].consumed == s.consumed + [|completed|]
    ensures run[|run| - 1].files ==
      s.files.(receipts := s.files.receipts[|completed| := Complete(
        ReceiptFor(g.definition, g.definition.schedule[|completed|], Running(s.files, otherwise)))])
  {
    DispositionIff(g.definition, g.hash, s.files, completed, |completed|);
    hide Safe, Says, ReadAs;
    run := ReadyGoesOn(g, s, completed, pid, otherwise);
  }
}
