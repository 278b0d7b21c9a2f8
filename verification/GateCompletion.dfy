// A gate that nothing disturbs runs to its end.
module GateCompletion {
  import opened AuditMeaning
  import opened GateAudit
  import opened GateProgress
  import opened GateProtocol
  import opened GateSnapshot
  import opened Optional

  // ----- recording the slot in progress

  /** The first slots are finished, the next one has just its receipt, and nothing is behind it. */
  ghost predicate Awaiting(g: Gate, f: Files, completed: seq<CompletedSlot>, receipt: Receipt)
    requires g.Valid() && Sized(g.definition, f)
  {
    && ReadAs(g.definition, g.hash, f, completed) && |completed| < SLOTS
    && ReadReceipt(g.definition, |completed|, f.receipts[|completed|]) == Some(receipt)
    && f.audits[|completed|].Absent? && NothingFrom(f, |completed| + 1)
  }

  lemma FindsReceipt(g: Gate, f: Files, completed: seq<CompletedSlot>, receipt: Receipt) returns (places: seq<Process>)
    requires g.Valid() && Sized(g.definition, f) && Awaiting(g, f, completed, receipt)
    ensures var k := |completed|;
      && Walk(g, f, places) && |places| > 0 && places[0] == AtReceipt(Record(k), completed)
      && places[|places| - 1] == LookingAhead(Record(k), InProgress(k), Later(k + 1))
    ensures OwnFileAbsent(f, Record(|completed|)) && completed[..|completed|] == completed
  {
    var k, goal := |completed|, Record(|completed|);
    places := [AtReceipt(goal, completed), ReadingReceipt(goal, completed), AtAudit(goal, completed, receipt),
               LookingAhead(goal, InProgress(k), Later(k + 1))];
    assert Observes(g, f, places[0], places[1]) && Observes(g, f, places[1], places[2]) && Observes(g, f, places[2], places[3]);
    hide Observes;
  }

  lemma DecidesToRecord(g: Gate, f: Files, k: nat, receipt: Receipt)
    requires g.Valid() && Sized(g.definition, f) && k < SLOTS && ReadReceipt(g.definition, k, f.receipts[k]) == Some(receipt)
    ensures Observes(g, f, Decided(Record(k), InProgress(k)), ReadingOwnReceipt(k))
    ensures Observes(g, f, ReadingOwnReceipt(k), CreatingAudit(k, receipt))
  {
  }

  lemma AwaitingIs(g: Gate, f: Files, completed: seq<CompletedSlot>, receipt: Receipt)
    requires g.Valid() && Sized(g.definition, f) && Awaiting(g, f, completed, receipt)
    ensures ReadAs(g.definition, g.hash, f, completed) && |completed| < SLOTS && |f.receipts| == |f.audits| == SLOTS
    ensures ReadReceipt(g.definition, |completed|, f.receipts[|completed|]) == Some(receipt)
    ensures f.audits[|completed|].Absent? && NothingFrom(f, |completed| + 1)
    ensures |g.definition.schedule| == SLOTS
  {
  }

  lemma ReadsToRecord(g: Gate, f: Files, completed: seq<CompletedSlot>, receipt: Receipt) returns (places: seq<Process>)
    requires g.Valid() && Sized(g.definition, f) && Awaiting(g, f, completed, receipt)
    ensures Walk(g, f, places) && |places| > 0 && places[0] == Idle
    ensures places[|places| - 1] == CreatingAudit(|completed|, receipt)
  {
    hide *;
    AwaitingIs(g, f, completed, receipt);
    var k, goal := |completed|, Record(|completed|);
    var found := FindsReceipt(g, f, completed, receipt);
    var read := SlotsRead(g, f, goal, completed, k);
    LaterAbsent(f, k + 1);
    var looked := LookedAhead(g, f, goal, InProgress(k), Later(k + 1));
    DecidesToRecord(g, f, k, receipt);
    WalkJoin(g, f, read, found);
    places := read + found[1..];
    WalkJoin(g, f, places, looked);
    places := places + looked[1..];
    WalkLasts(g, f, places);
    WalkMore(g, f, places, ReadingOwnReceipt(k));
    places := places + [ReadingOwnReceipt(k)];
    WalkMore(g, f, places, CreatingAudit(k, receipt));
    places := places + [CreatingAudit(k, receipt)];
  }

  /** The exclusive create and the finished write of an audit. */
  lemma Records(g: Gate, s: State, run: seq<State>, pid: nat, k: nat, receipt: Receipt, audit: Audit)
    returns (longer: seq<State>)
    requires g.Valid() && Sized(g.definition, s.files) && pid in s.processes && k < SLOTS && s.files.audits[k].Absent?
    requires Leads(g, run) && run[0] == s && run[|run| - 1] == Moved(s, pid, CreatingAudit(k, receipt))
    ensures Leads(g, longer) && longer[0] == s
    ensures var last := longer[|longer| - 1];
      && last.consumed == s.consumed && last.recorded == s.recorded + [k]
      && last.files == s.files.(audits := s.files.audits[k := Complete(audit)])
  {
    var f, here := s.files, run[|run| - 1];
    var created := State(f.(audits := f.audits[k := Partial(audit)]), s.processes[pid := FinishingAudit(k)],
                         s.consumed, s.recorded + [k]);
    var finished := State(f.(audits := f.audits[k := Complete(audit)]), s.processes[pid := Idle], s.consumed, s.recorded + [k]);
    assert created.processes == here.processes[pid := FinishingAudit(k)];
    assert finished.processes == created.processes[pid := Idle];
    assert finished.files.audits == created.files.audits[k := Complete(audit)];
    assert Writes(g, here, CreatingAudit(k, receipt), created, FinishingAudit(k));
    assert Acts(g, here, created, pid);
    assert Writes(g, created, FinishingAudit(k), finished, Idle);
    assert Acts(g, created, finished, pid);
    hide Writes, Observes;
    LeadsMore(g, run, created);
    LeadsMore(g, run + [created], finished);
    longer := run + [created] + [finished];
  }

  /** Where a slot is in progress, some run of any one process records any audit for it. */
  lemma InProgressGoesOn(g: Gate, s: State, completed: seq<CompletedSlot>, receipt: Receipt, audit: Audit, pid: nat)
    returns (run: seq<State>)
    requires g.Valid() && Sized(g.definition, s.files) && pid in s.processes && Awaiting(g, s.files, completed, receipt)
    ensures Leads(g, run) && run[0] == s
    ensures var k, last := |completed|, run[|run| - 1];
      && k < SLOTS && last.consumed == s.consumed && last.recorded == s.recorded + [k]
      && last.files == s.files.(audits := s.files.audits[k := Complete(audit)])
  {
    hide *;
    AwaitingIs(g, s.files, completed, receipt);
    var places := ReadsToRecord(g, s.files, completed, receipt);
    run := WalkRuns(g, s, pid, places);
    run := Records(g, s, run, pid, |completed|, receipt, audit);
  }

  // ----- slot after slot

  lemma LeadsJoin(g: Gate, a: seq<State>, b: seq<State>)
    requires g.Valid() && Leads(g, a) && Leads(g, b) && a[|a| - 1] == b[0]
    ensures Leads(g, a + b[1..]) && (a + b[1..])[|a + b[1..]| - 1] == b[|b| - 1] && (a + b[1..])[0] == a[0]
  {
    var all := a + b[1..];
    hide Next;
    forall i | 0 <= i < |all| ensures StepAt(g, all, i) {
      if i + 1 < |a| {
        assert StepAt(g, a, i);
      } else if i + 1 < |all| {
        assert StepAt(g, b, i - |a| + 1);
        assert all[i] == b[i - |a| + 1] && all[i + 1] == b[i - |a| + 2];
      }
    }
  }

  /** Along the way the gate stays safe and keeps its processes. */
  lemma {:induction false} LeadsKeeps(g: Gate, run: seq<State>, i: nat)
    requires g.Valid() && Leads(g, run) && Safe(g, run[0]) && i < |run|
    ensures Safe(g, run[i]) && run[i].processes.Keys == run[0].processes.Keys
  {
    if i > 0 {
      assert StepAt(g, run, i - 1);
      hide Safe, Observes, Writes;
      LeadsKeeps(g, run, i - 1);
      StepKeeps(g, run[i - 1], run[i]);
    }
  }

  /** The first slots are finished, nothing is behind them, and the gate runs under authorization `h`. */
  ghost predicate Ongoing(g: Gate, s: State, completed: seq<CompletedSlot>, h: Digest)
    requires g.Valid()
  {
    && Safe(g, s) && Sized(g.definition, s.files) && ReadAs(g.definition, g.hash, s.files, completed)
    && NothingFrom(s.files, |completed|) && Running(s.files, h) == h
  }

  /** An audit for the slot at k that its reader accepts as `slot`. */
  ghost predicate Accepts(g: Gate, k: nat, h: Digest, audit: Audit, slot: CompletedSlot)
    requires g.Valid() && k < SLOTS
  {
    var receipt := ReceiptFor(g.definition, g.definition.schedule[k], h);
    AcceptedAudit(g.definition, g.definition.schedule[k], receipt, g.hash(receipt), audit) == Some(slot)
  }

  /** With these attempts the gate goes on to its end. */
  predicate Succeed(g: Gate, slots: seq<CompletedSlot>) {
    && |slots| == SLOTS && Unfailing(slots) && FullyUsable(slots[1])
    && slots[0].submittedTokens != None && slots[1].submittedTokens != None
    && slots[0].submittedTokens.value + slots[1].submittedTokens.value <= g.definition.tokenLimit
  }

  lemma ReceiptWritten(g: Gate, f: Files, completed: seq<CompletedSlot>, h: Digest, f': Files)
    requires g.Valid() && Sized(g.definition, f) && ReadAs(g.definition, g.hash, f, completed) && |completed| < SLOTS
    requires NothingFrom(f, |completed|)
    requires f' == f.(receipts := f.receipts[|completed| := Complete(
      ReceiptFor(g.definition, g.definition.schedule[|completed|], h))])
    ensures Sized(g.definition, f') && Awaiting(g, f', completed, ReceiptFor(g.definition, g.definition.schedule[|completed|], h))
  {
    hide AcceptedAudit;
    forall i | 0 <= i < |completed| ensures CompletedAt(g.definition, g.hash, f', i) == Some(completed[i]) {
      assert CompletedAt(g.definition, g.hash, f, i) == Some(completed[i]);
    }
  }

  lemma AuditWritten(g: Gate, f: Files, completed: seq<CompletedSlot>, h: Digest, audit: Audit, slot: CompletedSlot, f': Files)
    requires g.Valid() && Sized(g.definition, f) && |completed| < SLOTS
    requires Awaiting(g, f, completed, ReceiptFor(g.definition, g.definition.schedule[|completed|], h))
    requires Accepts(g, |completed|, h, audit, slot)
    requires f' == f.(audits := f.audits[|completed| := Complete(audit)])
    ensures Sized(g.definition, f') && ReadAs(g.definition, g.hash, f', completed + [slot])
    ensures NothingFrom(f', |completed| + 1)
  {
    hide AcceptedAudit;
    var k, more := |completed|, completed + [slot];
    forall i | 0 <= i < |more| ensures CompletedAt(g.definition, g.hash, f', i) == Some(more[i]) {
      if i < k {
        assert CompletedAt(g.definition, g.hash, f, i) == Some(completed[i]);
      }
    }
  }

  /** The first half of a slot: its receipt. */
  lemma Started(g: Gate, s: State, completed: seq<CompletedSlot>, slots: seq<CompletedSlot>, pid: nat, h: Digest)
    returns (run: seq<State>)
    requires g.Valid() && Ongoing(g, s, completed, h) && pid in s.processes
    requires Succeed(g, slots) && |completed| < SLOTS == |slots| && completed == slots[..|completed|]
    ensures Leads(g, run) && |run| > 0 && run[0] == s
    ensures var last, receipt := run[|run| - 1], ReceiptFor(g.definition, g.definition.schedule[|completed|], h);
      && Safe(g, last) && Sized(g.definition, last.files) && pid in last.processes
      && last.files == s.files.(receipts := s.files.receipts[|completed| := Complete(receipt)])
      && Awaiting(g, last.files, completed, receipt)
  {
    hide *;
    SucceedIs(g, slots, |completed|);
    OngoingIs(g, s, completed, h);
    run := UnfailingGoesOn(g, s, completed, pid, h);
    LeadsKept(g, run);
    ReceiptWritten(g, s.files, completed, h, run[|run| - 1].files);
  }

  /** One slot, from its receipt to its audit. */
  lemma OneSlot(g: Gate, s: State, completed: seq<CompletedSlot>, slots: seq<CompletedSlot>, audit: Audit, pid: nat, h: Digest)
    returns (run: seq<State>)
    requires g.Valid() && Ongoing(g, s, completed, h) && pid in s.processes
    requires Succeed(g, slots) && |completed| < SLOTS == |slots| && completed == slots[..|completed|]
    requires Accepts(g, |completed|, h, audit, slots[|completed|])
    ensures Leads(g, run) && |run| > 0 && run[0] == s && Ongoing(g, run[|run| - 1], slots[..|completed| + 1], h)
    ensures pid in run[|run| - 1].processes
  {
    hide *;
    var k := |completed|;
    OngoingIs(g, s, completed, h);
    var receipt := ReceiptFor(g.definition, g.definition.schedule[k], h);
    var first := Started(g, s, completed, slots, pid, h);
    var mid := first[|first| - 1];
    var second := InProgressGoesOn(g, mid, completed, receipt, audit, pid);
    LeadsLasts(g, second);
    LeadsKept(g, second);
    LeadsJoin(g, first, second);
    run := first + second[1..];
    SlotDone(g, s, completed, slots[k], audit, h, mid.files, second[|second| - 1]);
    assert slots[..k + 1] == completed + [slots[k]];
  }

  /** With both files written the slot is finished. */
  lemma SlotDone(g: Gate, s: State, completed: seq<CompletedSlot>, slot: CompletedSlot, audit: Audit, h: Digest, f: Files, t: State)
    requires g.Valid() && Ongoing(g, s, completed, h) && |completed| < SLOTS && Accepts(g, |completed|, h, audit, slot)
    requires Sized(g.definition, f) && Safe(g, t) && Sized(g.definition, t.files)
    requires var receipt := ReceiptFor(g.definition, g.definition.schedule[|completed|], h);
      && f == s.files.(receipts := s.files.receipts[|completed| := Complete(receipt)]) && Awaiting(g, f, completed, receipt)
    requires t.files == f.(audits := f.audits[|completed| := Complete(audit)])
    ensures Ongoing(g, t, completed + [slot], h)
  {
    hide *;
    OngoingIs(g, s, completed, h);
    AuditWritten(g, f, completed, h, audit, slot, t.files);
    RunningStays(g, s, completed, h, audit);
    IsOngoing(g, t, completed + [slot], h);
  }

  lemma OngoingIs(g: Gate, s: State, completed: seq<CompletedSlot>, h: Digest)
    requires g.Valid() && Ongoing(g, s, completed, h)
    ensures Safe(g, s) && Sized(g.definition, s.files) && ReadAs(g.definition, g.hash, s.files, completed)
    ensures |s.files.receipts| == |s.files.audits| == SLOTS && |g.definition.schedule| == SLOTS
    ensures NothingFrom(s.files, |completed|) && Running(s.files, h) == h
  {
  }

  lemma IsOngoing(g: Gate, s: State, completed: seq<CompletedSlot>, h: Digest)
    requires g.Valid() && Safe(g, s) && Sized(g.definition, s.files) && ReadAs(g.definition, g.hash, s.files, completed)
    requires |s.files.receipts| == |s.files.audits| == SLOTS
    requires NothingFrom(s.files, |completed|) && Running(s.files, h) == h
    ensures Ongoing(g, s, completed, h)
  {
  }

  lemma SucceedIs(g: Gate, slots: seq<CompletedSlot>, k: nat)
    requires Succeed(g, slots) && k < SLOTS
    ensures |slots| == SLOTS && Unfailing(slots[..k])
    ensures k == 2 ==>
      && FullyUsable(slots[..k][1]) && slots[..k][0].submittedTokens != None && slots[..k][1].submittedTokens != None
      && slots[..k][0].submittedTokens.value + slots[..k][1].submittedTokens.value <= g.definition.tokenLimit
  {
  }

  lemma LeadsKept(g: Gate, run: seq<State>)
    requires g.Valid() && Leads(g, run) && Safe(g, run[0])
    ensures |run| > 0 && Safe(g, run[|run| - 1]) && Sized(g.definition, run[|run| - 1].files)
    ensures run[|run| - 1].processes.Keys == run[0].processes.Keys
  {
    LeadsKeeps(g, run, |run| - 1);
    SafeIsSized(g, run[|run| - 1]);
  }

  lemma RunningStays(g: Gate, s: State, completed: seq<CompletedSlot>, h: Digest, audit: Audit)
    requires g.Valid() && Ongoing(g, s, completed, h) && |completed| < SLOTS
    ensures var f, k := s.files, |completed|;
      Running(Files(f.receipts[k := Complete(ReceiptFor(g.definition, g.definition.schedule[k], h))],
                    f.audits[k := Complete(audit)]), h) == h
  {
    hide Safe, AcceptedAudit;
    if |completed| > 0 {
      assert CompletedAt(g.definition, g.hash, s.files, 0) == Some(completed[0]);
    }
  }

  lemma {:induction false} RestOfSlots(g: Gate, s: State, n: nat, slots: seq<CompletedSlot>, audits: seq<Audit>, pid: nat, h: Digest)
    returns (run: seq<State>)
    requires g.Valid() && n <= SLOTS && |slots| == SLOTS && Ongoing(g, s, slots[..n], h) && pid in s.processes
    requires Succeed(g, slots) && |audits| == SLOTS && forall k :: 0 <= k < SLOTS ==> Accepts(g, k, h, audits[k], slots[k])
    ensures Leads(g, run) && run[0] == s && Ongoing(g, run[|run| - 1], slots, h)
    decreases SLOTS - n
  {
    hide *;
    if n == SLOTS {
      assert slots[..n] == slots;
      run := [s];
      StandsStill(g, s);
    } else {
      var first := OneSlot(g, s, slots[..n], slots, audits[n], pid, h);
      LeadsLasts(g, first);
      var rest := RestOfSlots(g, first[|first| - 1], n + 1, slots, audits, pid, h);
      LeadsLasts(g, rest);
      LeadsJoin(g, first, rest);
      run := first + rest[1..];
    }
  }

  lemma StandsStill(g: Gate, s: State)
    requires g.Valid()
    ensures Leads(g, [s])
  {
  }

  lemma LeadsLasts(g: Gate, run: seq<State>)
    requires g.Valid() && Leads(g, run)
    ensures |run| > 0
  {
  }

  /** Some run of one process takes the gate from its beginning to its end, when no attempt fails. */
  lemma GateCompletes(g: Gate, s: State, slots: seq<CompletedSlot>, audits: seq<Audit>, pid: nat, h: Digest)
    returns (run: seq<State>)
    requires g.Valid() && Initial(g, s) && pid in s.processes
    requires Succeed(g, slots) && |audits| == SLOTS && forall k :: 0 <= k < SLOTS ==> Accepts(g, k, h, audits[k], slots[k])
    ensures Run(g, run) && run[0] == s
    ensures Sized(g.definition, run[|run| - 1].files) && Says(g.definition, g.hash, run[|run| - 1].files, Some(AllComplete))
  {
    InitialSafe(g, s);
    assert slots[..0] == [];
    assert Ongoing(g, s, slots[..0], h) by { hide Safe; }
    run := RestOfSlots(g, s, 0, slots, audits, pid, h);
    var last := run[|run| - 1];
    hide Says, Safe, Next;
    assert |slots| == 4 && Unfailing(slots);
    DispositionIff(g.definition, g.hash, last.files, slots, 0);
  }

  // ----- undisturbed attempts

  /** What the gate demands of its attempts. */
  predicate GoodAttempts(d: Definition, attempts: seq<Observation>) {
    && |attempts| == SLOTS
    && (forall k :: 0 <= k < SLOTS ==> attempts[k].outcome != InfrastructureFailure && RewardInRange(attempts[k].reward))
    && attempts[1].outcome == Completed && attempts[1].reward == Some(1.0) && attempts[1].usability == Usable
    && attempts[0].submittedTokens != None && attempts[1].submittedTokens != None
    && attempts[0].submittedTokens.value + attempts[1].submittedTokens.value <= d.tokenLimit
  }

  function SlotOf(slot: Slot, o: Observation): CompletedSlot {
    CompletedSlot(slot.slotId, o.outcome, o.reward, o.usability, Passed, o.submittedTokens)
  }

  function SlotsOf(d: Definition, attempts: seq<Observation>): (r: seq<CompletedSlot>)
    requires |attempts| == |d.schedule| == SLOTS
    ensures |r| == SLOTS && forall k :: 0 <= k < SLOTS ==> r[k] == SlotOf(d.schedule[k], attempts[k])
  {
    seq(SLOTS, k requires 0 <= k < SLOTS => SlotOf(d.schedule[k], attempts[k]))
  }

  /** The audits the gate records of the attempts. */
  function AuditsOf(g: Gate, attempts: seq<Observation>, w: World, h: Digest): (r: seq<Audit>)
    requires g.Valid() && |attempts| == SLOTS
    ensures |r| == SLOTS && forall k :: 0 <= k < SLOTS ==> r[k] == AuditOfAttempt(g, k, attempts[k], w, h)
  {
    seq(SLOTS, k requires 0 <= k < SLOTS => AuditOfAttempt(g, k, attempts[k], w, h))
  }

  function AuditOfAttempt(g: Gate, k: nat, o: Observation, w: World, h: Digest): Audit
    requires g.Valid() && k < SLOTS
  {
    var receipt := ReceiptFor(g.definition, g.definition.schedule[k], h);
    AuditFor(g.definition, g.definition.schedule[k], receipt, g.hash(receipt), o, w)
  }

  lemma GoodSucceed(g: Gate, attempts: seq<Observation>)
    requires g.Valid() && GoodAttempts(g.definition, attempts)
    ensures |attempts| == |g.definition.schedule| == SLOTS && Succeed(g, SlotsOf(g.definition, attempts))
    ensures forall k :: 0 <= k < SLOTS ==> RewardInRange(attempts[k].reward)
  {
  }

  lemma CleanAuditAccepted(g: Gate, k: nat, h: Digest, o: Observation, w: World)
    requires g.Valid() && k < SLOTS && Hashes(w) && AsDefined(g.definition, w)
    requires Undisturbed(g.definition.schedule[k], o, w) && RewardInRange(o.reward)
    ensures var slot := g.definition.schedule[k];
      Accepts(g, k, h, AuditOfAttempt(g, k, o, w, h), SlotOf(slot, o))
  {
    var slot := g.definition.schedule[k];
    var receipt := ReceiptFor(g.definition, slot, h);
    NothingDrifted(g.definition, w);
    RecordedAuditAccepted(g.definition, slot, h, g.hash(receipt), o, w);
    RecordedPassesIff(g.definition, slot, receipt, g.hash(receipt), o, w);
    assert AuditFor(g.definition, slot, receipt, g.hash(receipt), o, w).integrity
      == StatusFor(RecordedFailures(g.definition, slot, o, w));
    hide AcceptedAudit, AuditFor, AsDefined, Undisturbed, Hashes, RecordedFailures, StatusFor;
  }

  lemma NothingDrifted(d: Definition, w: World)
    requires AsDefined(d, w)
    ensures !AnyDrift(w, d.schedule)
  {
  }

  /** If the repository and the files stand as defined and the attempts are undisturbed and good, the gate's own
      audits take it from its beginning to its end. */
  lemma CleanGateCompletes(g: Gate, s: State, attempts: seq<Observation>, w: World, pid: nat, h: Digest)
    returns (run: seq<State>)
    requires g.Valid() && Initial(g, s) && pid in s.processes
    requires Hashes(w) && AsDefined(g.definition, w) && GoodAttempts(g.definition, attempts)
    requires forall k :: 0 <= k < SLOTS ==> Undisturbed(g.definition.schedule[k], attempts[k], w)
    ensures Run(g, run) && run[0] == s
    ensures Sized(g.definition, run[|run| - 1].files) && Says(g.definition, g.hash, run[|run| - 1].files, Some(AllComplete))
  {
    hide *;
    GoodSucceed(g, attempts);
    var slots, audits := SlotsOf(g.definition, attempts), AuditsOf(g, attempts, w, h);
    forall k | 0 <= k < SLOTS ensures Accepts(g, k, h, audits[k], slots[k]) {
      CleanAuditAccepted(g, k, h, attempts[k], w);
    }
    run := GateCompletes(g, s, slots, audits, pid, h);
  }
}
