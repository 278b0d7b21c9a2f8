// Runs whose recorders write what they observed, and what becomes of a gate with a refused audit.
module GateRecording {
  import opened GateAudit
  import opened GateProtocol
  import opened GateSnapshot
  import opened Optional

  /** What a recorder observed: a terminal observation, and one state of the files around the gate. */
  datatype Witnessed = Witnessed(observation: Observation, world: World) {
    ghost predicate Valid() {
      RewardInRange(observation.reward) && Hashes(world)
    }
  }

  /** The audit of slot k under its receipt. */
  function AuditOver(g: Gate, k: nat, receipt: Receipt, x: Witnessed): Audit
    requires g.Valid() && k < SLOTS
  {
    AuditFor(g.definition, g.definition.schedule[k], receipt, g.hash(receipt), x.observation, x.world)
  }

  /** Whenever the step creates an audit, it is that of what its recorder observed. */
  ghost predicate WritesObserved(g: Gate, s: State, t: State)
    requires g.Valid() && Sized(g.definition, s.files) && Sized(g.definition, t.files)
  {
    forall pid, k: nat, receipt ::
      pid in s.processes && s.processes[pid] == CreatingAudit(k, receipt) && k < SLOTS
      && s.files.audits[k].Absent? && !t.files.audits[k].Absent? ==>
        exists x: Witnessed :: x.Valid() && t.files.audits[k] == Partial(AuditOver(g, k, receipt, x))
  }

  ghost predicate RecordingRun(g: Gate, run: seq<State>)
    requires g.Valid()
  {
    && Run(g, run)
    && forall i :: 0 <= i < |run| ==> RecordsAt(g, run, i)
  }

  ghost predicate RecordsAt(g: Gate, run: seq<State>, i: nat)
    requires g.Valid() && i < |run|
  {
    i + 1 < |run| ==>
      Sized(g.definition, run[i].files) && Sized(g.definition, run[i + 1].files) && WritesObserved(g, run[i], run[i + 1])
  }

  function Recorded(file: File<Audit>): Audit
    requires !file.Absent?
  {
    if file.Partial? then file.intended else file.content
  }

  /** The audit of slot k, if there is one, is of something its recorder observed under the slot's receipt. */
  ghost predicate AuditObserved(g: Gate, f: Files, k: nat)
    requires g.Valid() && Sized(g.definition, f) && k < SLOTS
  {
    !f.audits[k].Absent? ==>
      && f.receipts[k].Complete?
      && exists x: Witnessed :: x.Valid() && Recorded(f.audits[k]) == AuditOver(g, k, f.receipts[k].content, x)
  }

  ghost predicate AllObserved(g: Gate, f: Files)
    requires g.Valid() && Sized(g.definition, f)
  {
    forall k: nat :: k < SLOTS ==> AuditObserved(g, f, k)
  }

  /** A file comes to hold an audit only by the step of a recorder that read the slot's receipt. */
  lemma AuditHasCreator(g: Gate, s: State, t: State, k: nat) returns (pid: nat)
    requires g.Valid() && Safe(g, s) && Next(g, s, t) && k < SLOTS
    requires s.files.audits[k].Absent? && !t.files.audits[k].Absent?
    ensures pid in s.processes && s.processes[pid].CreatingAudit? && s.processes[pid].slot == k
    ensures s.files.receipts[k] == Complete(s.processes[pid].receipt) && t.files.receipts[k] == s.files.receipts[k]
  {
    pid :| pid in s.processes && Acts(g, s, t, pid);
    assert Knows(g, s.files, s.processes[pid]);
    hide Orderly, Logged, Observes;
  }

  lemma StepObserved(g: Gate, s: State, t: State, k: nat)
    requires g.Valid() && Safe(g, s) && Next(g, s, t) && k < SLOTS && Sized(g.definition, t.files)
    requires WritesObserved(g, s, t) && AuditObserved(g, s.files, k)
    ensures AuditObserved(g, t.files, k)
  {
    StepGrows(g, s, t);
    assert FileGrows(s.files.receipts[k], t.files.receipts[k]) && FileGrows(s.files.audits[k], t.files.audits[k]);
    if s.files.audits[k].Absent? && !t.files.audits[k].Absent? {
      var pid := AuditHasCreator(g, s, t, k);
      hide Safe, Next, Grows;
      assert s.processes[pid] == CreatingAudit(k, s.processes[pid].receipt);
    }
    hide Safe, Next, Grows, WritesObserved;
  }

  /** In every run whose recorders write what they observed, every audit is of something observed. */
  lemma {:induction false} RunObserved(g: Gate, run: seq<State>, i: nat)
    requires g.Valid() && RecordingRun(g, run) && i < |run|
    ensures Safe(g, run[i]) && AllObserved(g, run[i].files)
    decreases i
  {
    RunSafe(g, run, i);
    hide Safe, Next, WritesObserved, Run;
    if i == 0 {
      NothingObserved(g, run[0]);
    } else {
      RunObserved(g, run, i - 1);
      RunStep(g, run, i);
      assert RecordsAt(g, run, i - 1);
      forall k: nat | k < SLOTS ensures AuditObserved(g, run[i].files, k) {
        StepObserved(g, run[i - 1], run[i], k);
      }
    }
  }

  lemma NothingObserved(g: Gate, s: State)
    requires g.Valid() && Initial(g, s)
    ensures AllObserved(g, s.files)
  {
  }

  // ----- refused audits

  /** The slot's audit is finished, and no reader accepts it. */
  ghost predicate Refused(g: Gate, f: Files, k: nat)
    requires g.Valid() && Sized(g.definition, f)
  {
    k < SLOTS && f.audits[k].Complete? && CompletedAt(g.definition, g.hash, f, k).None?
  }

  /** Only the configurations of other slots had drifted. */
  predicate OthersDrifted(g: Gate, k: nat, w: World)
    requires g.Valid() && k < SLOTS
  {
    AnyDrift(w, g.definition.schedule) && !Drifted(w, g.definition.schedule[k].configuration)
  }

  /** In a reachable state an audit of something observed is refused if and only if at its recording the
      configuration of some slot had drifted, but not the audited slot's own. */
  lemma RefusedIffOthersDrifted(g: Gate, s: State, k: nat, x: Witnessed)
    requires g.Valid() && Safe(g, s) && k < SLOTS && s.files.receipts[k].Complete? && s.files.audits[k].Complete?
    requires x.Valid() && s.files.audits[k].content == AuditOver(g, k, s.files.receipts[k].content, x)
    ensures Refused(g, s.files, k) <==> OthersDrifted(g, k, x.world)
  {
    var f, d := s.files, g.definition;
    AuditReadsReceipt(g, s, k);
    var receipt := f.receipts[k].content;
    hide Safe, AcceptedAudit, AuditFor, AnyDrift, Hashes;
    assert receipt == ReceiptFor(d, d.schedule[k], receipt.authorization);
    assert d.schedule[k] in d.schedule;
    RecordedAuditAccepted(d, d.schedule[k], receipt.authorization, g.hash(receipt), x.observation, x.world);
    hide ReceiptFor, RecordedFailures;
  }

  lemma AuditReadsReceipt(g: Gate, s: State, k: nat)
    requires g.Valid() && Safe(g, s) && k < SLOTS && !s.files.audits[k].Absent?
    ensures ReadReceipt(g.definition, k, s.files.receipts[k]).Some?
  {
  }

  /** The files up to slot k are finished, and nothing lies past it. */
  ghost predicate EndsAt(f: Files, k: nat)
    requires |f.receipts| == |f.audits| == SLOTS
  {
    && (forall j: nat :: j <= k && j < SLOTS ==> f.receipts[j].Complete? && f.audits[j].Complete?)
    && (forall j: nat :: k < j < SLOTS ==> f.receipts[j].Absent? && f.audits[j].Absent?)
  }

  lemma RefusedIsLast(g: Gate, s: State, k: nat)
    requires g.Valid() && Safe(g, s) && Refused(g, s.files, k)
    ensures EndsAt(s.files, k)
  {
    var f := s.files;
    AuditReadsReceipt(g, s, k);
    ExistingIsCleared(g, f, k);
    forall j: nat | j < k ensures f.receipts[j].Complete? && f.audits[j].Complete? {
      PriorIsComplete(g, f, k, j);
    }
    forall j: nat | k < j < SLOTS ensures f.receipts[j].Absent? && f.audits[j].Absent? {
      if !f.receipts[j].Absent? {
        ExistingIsCleared(g, f, j);
        PriorIsComplete(g, f, j, k);
      }
      if !f.audits[j].Absent? {
        AuditReadsReceipt(g, s, j);
      }
    }
  }

  /** A refused audit freezes the gate: no step of any process changes a file again. */
  lemma RefusedStays(g: Gate, s: State, t: State, k: nat)
    requires g.Valid() && Safe(g, s) && Refused(g, s.files, k) && Next(g, s, t)
    ensures SameFiles(s, t)
  {
    RefusedIsLast(g, s, k);
    var pid :| pid in s.processes && Acts(g, s, t, pid);
    var p := s.processes[pid];
    assert Knows(g, s.files, p);
    NoWriterPast(g, s.files, k, p);
    hide Safe, Knows, Observes, Refused;
  }

  lemma NoWriterPast(g: Gate, f: Files, k: nat, p: Process)
    requires g.Valid() && Sized(g.definition, f) && Knows(g, f, p) && Refused(g, f, k) && EndsAt(f, k)
    ensures p.CreatingReceipt? && p.slot < SLOTS ==> !f.receipts[p.slot].Absent?
    ensures p.FinishingReceipt? && p.slot < SLOTS ==> !f.receipts[p.slot].Partial?
    ensures p.CreatingAudit? && p.slot < SLOTS ==> !f.audits[p.slot].Absent?
    ensures p.FinishingAudit? && p.slot < SLOTS ==> !f.audits[p.slot].Partial?
  {
    hide CompletedAt, ReadReceipt, AfterCompleted;
    match p
    case CreatingReceipt(j, _) =>
      if j > k { PriorIsComplete(g, f, j, k); }
    case CreatingAudit(j, receipt) => ReadMeansFinished(g, f, j, receipt);
    case _ =>
  }

  /** In every run: once an audit is refused, nothing is consumed or recorded any more. */
  lemma {:induction false} RefusedForGood(g: Gate, run: seq<State>, i: nat, j: nat, k: nat)
    requires g.Valid() && Run(g, run) && i <= j < |run|
    requires Sized(g.definition, run[i].files) && Refused(g, run[i].files, k)
    ensures SameFiles(run[i], run[j])
    decreases j
  {
    hide Safe, Next, Refused, Run, Sized;
    if i < j {
      RefusedForGood(g, run, i, j - 1, k);
      RunSafe(g, run, j - 1);
      RunStep(g, run, j);
      RefusedStays(g, run[j - 1], run[j], k);
    }
  }

  /** The slot's audit was recorded while the configurations of other slots alone had drifted. */
  ghost predicate DriftRecorded(g: Gate, f: Files, k: nat)
    requires g.Valid() && Sized(g.definition, f) && k < SLOTS
  {
    && f.receipts[k].Complete? && f.audits[k].Complete?
    && exists x: Witnessed ::
         x.Valid() && f.audits[k].content == AuditOver(g, k, f.receipts[k].content, x) && OthersDrifted(g, k, x.world)
  }

  ghost predicate TornOrDrifted(g: Gate, f: Files, k: nat)
    requires g.Valid() && Sized(g.definition, f) && k < SLOTS
  {
    f.receipts[k].Partial? || f.audits[k].Partial? || DriftRecorded(g, f, k)
  }

  /** In a run whose recorders write what they observed, a snapshot of still files fails only over an
      unfinished file, or because at some recording the configurations of other slots alone had drifted. */
  lemma FailsOnlyOverDrift(g: Gate, run: seq<State>, i: nat)
    requires g.Valid() && RecordingRun(g, run) && i < |run| && Sized(g.definition, run[i].files)
    requires Says(g.definition, g.hash, run[i].files, None)
    ensures exists k: nat :: k < SLOTS && TornOrDrifted(g, run[i].files, k)
  {
    RunObserved(g, run, i);
    SafeHasDisposition(g, run[i]);
    hide *;
    SomeTornOrDrifted(g, run[i]);
  }

  lemma SomeTornOrDrifted(g: Gate, s: State)
    requires g.Valid() && Safe(g, s) && AllObserved(g, s.files)
    requires exists k: nat :: k < SLOTS && TornOrRefused(g, s.files, k)
    ensures exists k: nat :: k < SLOTS && TornOrDrifted(g, s.files, k)
  {
    var f := s.files;
    assert Sized(g.definition, f);
    hide CompletedAt, AuditFor, Orderly, Logged, Knows;
    var k: nat :| k < SLOTS && TornOrRefused(g, f, k);
    if !f.receipts[k].Partial? && !f.audits[k].Partial? {
      assert AuditObserved(g, f, k);
      var x: Witnessed :| x.Valid() && Recorded(f.audits[k]) == AuditOver(g, k, f.receipts[k].content, x);
      RefusedIffOthersDrifted(g, s, k, x);
    }
    assert TornOrDrifted(g, f, k);
  }
}
