// Any number of processes acting on one gate, one file access at a time.
module GateProtocol {
  import opened GateAudit
  import opened GateSnapshot
  import opened Optional

  /** What a process was started for; slots are named by their position. */
  datatype Goal = Consume(slot: nat) | Record(slot: nat) | Inspect

  datatype Path = ReceiptOf(slot: nat) | AuditOf(slot: nat)

  /** Where a process stands. `completed` is what its snapshot has read so far, from whatever the files
      held at the time. */
  datatype Process =
    | Idle
    | Begun(goal: Goal)
    | AtReceipt(goal: Goal, completed: seq<CompletedSlot>)
    | ReadingReceipt(goal: Goal, completed: seq<CompletedSlot>)
    | AtAudit(goal: Goal, completed: seq<CompletedSlot>, receipt: Receipt)
    | ReadingAudit(goal: Goal, completed: seq<CompletedSlot>, receipt: Receipt)
    | LookingAhead(goal: Goal, verdict: Verdict, rest: seq<Path>)
    | Decided(goal: Goal, verdict: Verdict)
    | CheckingPrior(slot: nat, authorization: Digest, next: nat)
    | CreatingReceipt(slot: nat, authorization: Digest)
    | FinishingReceipt(slot: nat)
    | ReadingOwnReceipt(slot: nat)
    | CreatingAudit(slot: nat, receipt: Receipt)
    | FinishingAudit(slot: nat)

  /** The files, the processes, and which slots were consumed and recorded, in order. */
  datatype State = State(files: Files, processes: map<nat, Process>, consumed: seq<nat>, recorded: seq<nat>)

  /** A gate, and the digest of a receipt's bytes. */
  datatype Gate = Gate(definition: Definition, hash: Receipt -> Digest) {
    predicate Valid() { |definition.schedule| == SLOTS }
  }

  predicate Exists(f: Files, p: Path)
    requires |f.receipts| == |f.audits| == SLOTS
  {
    match p
    case ReceiptOf(k) => k < SLOTS && !f.receipts[k].Absent?
    case AuditOf(k) => k < SLOTS && !f.audits[k].Absent?
  }

  /** The paths of the slots from `start` on. */
  function Later(start: nat): seq<Path>
    decreases SLOTS - start
  {
    if start >= SLOTS then [] else [ReceiptOf(start), AuditOf(start)] + Later(start + 1)
  }

  predicate OwnFileAbsent(f: Files, goal: Goal)
    requires |f.receipts| == |f.audits| == SLOTS
  {
    match goal
    case Consume(k) => k < SLOTS && f.receipts[k].Absent?
    case Record(k) => k < SLOTS && f.audits[k].Absent?
    case Inspect => true
  }

  // ----- steps

  /** One step of a process that only reads. */
  ghost predicate Observes(g: Gate, f: Files, p: Process, q: Process)
    requires g.Valid() && Sized(g.definition, f)
  {
    var d := g.definition;
    match p
    case Idle => exists goal :: q == Begun(goal)
    case Begun(goal) => OwnFileAbsent(f, goal) && q == AtReceipt(goal, [])
    case AtReceipt(goal, completed) =>
      var k := |completed|;
      if k >= SLOTS then q == Decided(goal, AfterCompleted(d, completed))
      else if f.receipts[k].Absent? then
        q == LookingAhead(goal, AfterCompleted(d, completed), [AuditOf(k)] + Later(k + 1))
      else q == ReadingReceipt(goal, completed)
    case ReadingReceipt(goal, completed) =>
      var k := |completed|;
      k < SLOTS && ReadReceipt(d, k, f.receipts[k]).Some?
      && q == AtAudit(goal, completed, ReadReceipt(d, k, f.receipts[k]).value)
    case AtAudit(goal, completed, receipt) =>
      var k := |completed|;
      k < SLOTS && (if f.audits[k].Absent? then q == LookingAhead(goal, InProgress(k), Later(k + 1))
                    else q == ReadingAudit(goal, completed, receipt))
    case ReadingAudit(goal, completed, receipt) =>
      var k := |completed|;
      k < SLOTS && ReadAudit(d, g.hash, k, receipt, f.audits[k]).Some?
      && q == AtReceipt(goal, completed + [ReadAudit(d, g.hash, k, receipt, f.audits[k]).value])
    case LookingAhead(goal, verdict, rest) =>
      if rest == [] then q == Decided(goal, verdict)
      else !Exists(f, rest[0]) && q == LookingAhead(goal, verdict, rest[1..])
    case Decided(goal, verdict) =>
      (match goal
       case Consume(k) => k < SLOTS && verdict == Ready(k) && exists h :: q == CheckingPrior(k, h, 0)
       case Record(k) => k < SLOTS && verdict == InProgress(k) && q == ReadingOwnReceipt(k)
       case Inspect => false)
    case CheckingPrior(k, h, j) =>
      if j >= k then q == CreatingReceipt(k, h)
      else
        && k < SLOTS && PriorAgrees(d, f, j, h)
        && q == CheckingPrior(k, h, j + 1)
    case ReadingOwnReceipt(k) =>
      k < SLOTS && ReadReceipt(d, k, f.receipts[k]).Some? && q == CreatingAudit(k, ReadReceipt(d, k, f.receipts[k]).value)
    case _ => false
  }

  /** A prior receipt that is absent, or was written under the same authorization. */
  predicate PriorAgrees(d: Definition, f: Files, j: nat, h: Digest)
    requires Sized(d, f) && j < SLOTS
  {
    f.receipts[j].Absent? || (ReadReceipt(d, j, f.receipts[j]).Some? && f.receipts[j].content.authorization == h)
  }

  /** One step that creates or finishes a file. An exclusive create needs the file to be absent; an
      audit holds whatever its recorder observed. */
  ghost predicate Writes(g: Gate, s: State, p: Process, t: State, q: Process)
    requires g.Valid() && Sized(g.definition, s.files)
  {
    var f := s.files;
    match p
    case CreatingReceipt(k, h) =>
      && k < SLOTS && f.receipts[k].Absent? && q == FinishingReceipt(k)
      && t.files == f.(receipts := f.receipts[k := Partial(ReceiptFor(g.definition, g.definition.schedule[k], h))])
      && t.consumed == s.consumed + [k] && t.recorded == s.recorded
    case FinishingReceipt(k) =>
      && k < SLOTS && f.receipts[k].Partial? && q == Idle
      && t.files == f.(receipts := f.receipts[k := Complete(f.receipts[k].intended)])
      && t.consumed == s.consumed && t.recorded == s.recorded
    case CreatingAudit(k, _) =>
      && k < SLOTS && f.audits[k].Absent? && q == FinishingAudit(k)
      && (exists a :: t.files == f.(audits := f.audits[k := Partial(a)]))
      && t.consumed == s.consumed && t.recorded == s.recorded + [k]
    case FinishingAudit(k) =>
      && k < SLOTS && f.audits[k].Partial? && q == Idle
      && t.files == f.(audits := f.audits[k := Complete(f.audits[k].intended)])
      && t.consumed == s.consumed && t.recorded == s.recorded
    case _ => false
  }

  predicate SameFiles(s: State, t: State) {
    t.files == s.files && t.consumed == s.consumed && t.recorded == s.recorded
  }

  /** One process takes one step: it reads, writes, or gives up or dies where it stands. */
  ghost predicate Next(g: Gate, s: State, t: State)
    requires g.Valid() && Sized(g.definition, s.files)
  {
    exists pid :: pid in s.processes && Acts(g, s, t, pid)
  }

  ghost predicate Acts(g: Gate, s: State, t: State, pid: nat)
    requires g.Valid() && Sized(g.definition, s.files) && pid in s.processes
  {
    && pid in t.processes && t.processes == s.processes[pid := t.processes[pid]]
    && var p, q := s.processes[pid], t.processes[pid];
    || (SameFiles(s, t) && (q == Idle || Observes(g, s.files, p, q)))
    || Writes(g, s, p, t, q)
  }

  predicate Initial(g: Gate, s: State) {
    && Sized(g.definition, s.files) && s.consumed == [] && s.recorded == []
    && (forall k :: 0 <= k < SLOTS ==> s.files.receipts[k].Absent? && s.files.audits[k].Absent?)
    && (forall pid :: pid in s.processes ==> s.processes[pid] == Idle)
  }

  // ----- what every step keeps

  /** The completed slots before k. */
  ghost function CompletedBefore(g: Gate, f: Files, k: nat): seq<CompletedSlot>
    requires g.Valid() && Sized(g.definition, f) && k <= SLOTS
  {
    if k == 0 then []
    else
      var last := CompletedAt(g.definition, g.hash, f, k - 1);
      CompletedBefore(g, f, k - 1) + (if last.Some? then [last.value] else [])
  }

  /** All slots before k are completed, and the decision over them is to go on with k. */
  ghost predicate Cleared(g: Gate, f: Files, k: nat)
    requires g.Valid() && Sized(g.definition, f)
  {
    k < SLOTS && Finished(g, f, k) && AfterCompleted(g.definition, CompletedBefore(g, f, k)) == Ready(k)
  }

  ghost predicate Finished(g: Gate, f: Files, k: nat)
    requires g.Valid() && Sized(g.definition, f) && k <= SLOTS
  {
    forall i :: 0 <= i < k ==> CompletedAt(g.definition, g.hash, f, i).Some?
  }

  /** The authorization a receipt file is, or is being, written under. */
  function AuthorizationOf(file: File<Receipt>): Digest
    requires !file.Absent?
  {
    if file.Partial? then file.intended.authorization else file.content.authorization
  }

  /** Files exist only where the decision allowed them, and all receipts name one authorization. */
  ghost predicate Orderly(g: Gate, f: Files)
    requires g.Valid()
  {
    && Sized(g.definition, f)
    && (forall k: nat :: k < SLOTS && !f.receipts[k].Absent? ==> Cleared(g, f, k))
    && (forall k: nat :: k < SLOTS && !f.audits[k].Absent? ==> ReadReceipt(g.definition, k, f.receipts[k]).Some?)
    && (forall k: nat :: k < SLOTS ==> WellIntended(g, f, k))
    && (forall i: nat, j: nat :: i < SLOTS && j < SLOTS && !f.receipts[i].Absent? && !f.receipts[j].Absent? ==>
          AuthorizationOf(f.receipts[i]) == AuthorizationOf(f.receipts[j]))
  }

  /** A receipt file holds, or will hold, the receipt of its slot. */
  ghost predicate WellIntended(g: Gate, f: Files, k: nat)
    requires g.Valid() && Sized(g.definition, f) && k < SLOTS
  {
    match f.receipts[k]
    case Absent => true
    case Partial(r) => r == ReceiptFor(g.definition, g.definition.schedule[k], r.authorization)
    case Complete(r) => r == ReceiptFor(g.definition, g.definition.schedule[k], r.authorization)
  }

  /** A verdict that is still justified, however old: the files it was read from cannot change. */
  ghost predicate Justified(g: Gate, f: Files, v: Verdict)
    requires g.Valid() && Sized(g.definition, f)
  {
    match v
    case Ready(k) => Cleared(g, f, k)
    case InProgress(k) => k < SLOTS && ReadReceipt(g.definition, k, f.receipts[k]).Some?
    case _ => true
  }

  /** What a process has read stays true. */
  ghost predicate Knows(g: Gate, f: Files, p: Process)
    requires g.Valid() && Sized(g.definition, f)
  {
    var d := g.definition;
    match p
    case AtReceipt(_, completed) => ReadAs(d, g.hash, f, completed)
    case ReadingReceipt(_, completed) => ReadAs(d, g.hash, f, completed)
    case AtAudit(_, completed, receipt) => ReadAs(d, g.hash, f, completed) && Holds(g, f, |completed|, receipt)
    case ReadingAudit(_, completed, receipt) => ReadAs(d, g.hash, f, completed) && Holds(g, f, |completed|, receipt)
    case LookingAhead(_, verdict, _) => Justified(g, f, verdict)
    case Decided(_, verdict) => Justified(g, f, verdict)
    case CheckingPrior(k, h, j) => Cleared(g, f, k) && j <= k && Agreed(g, f, j, h)
    case CreatingReceipt(k, h) => Cleared(g, f, k) && Agreed(g, f, k, h)
    case ReadingOwnReceipt(k) => Justified(g, f, InProgress(k))
    case CreatingAudit(k, receipt) => Holds(g, f, k, receipt)
    case _ => true
  }

  ghost predicate Holds(g: Gate, f: Files, k: nat, receipt: Receipt)
    requires g.Valid() && Sized(g.definition, f)
  {
    k < SLOTS && ReadReceipt(g.definition, k, f.receipts[k]) == Some(receipt)
  }

  /** The receipts before j name the authorization h. */
  ghost predicate Agreed(g: Gate, f: Files, j: nat, h: Digest)
    requires g.Valid() && Sized(g.definition, f)
  {
    j <= SLOTS && forall i :: 0 <= i < j ==> f.receipts[i].Complete? && f.receipts[i].content.authorization == h
  }

  /** The logs name the existing files, in schedule order. */
  predicate Logged(s: State)
    requires |s.files.receipts| == |s.files.audits| == SLOTS
  {
    && |s.consumed| <= SLOTS && |s.recorded| <= SLOTS
    && (forall k :: 0 <= k < |s.consumed| ==> s.consumed[k] == k)
    && (forall k :: 0 <= k < |s.recorded| ==> s.recorded[k] == k)
    && (forall k :: 0 <= k < SLOTS ==> (!s.files.receipts[k].Absent? <==> k < |s.consumed|))
    && (forall k :: 0 <= k < SLOTS ==> (!s.files.audits[k].Absent? <==> k < |s.recorded|))
  }

  ghost predicate Safe(g: Gate, s: State)
    requires g.Valid()
  {
    && Orderly(g, s.files) && Logged(s)
    && forall pid :: pid in s.processes ==> Knows(g, s.files, s.processes[pid])
  }

  // ----- files only grow

  predicate FileGrows<T(==)>(a: File<T>, b: File<T>) {
    || a == b
    || (a.Absent? && b.Partial?)
    || (a.Partial? && b == Complete(a.intended))
  }

  ghost predicate Grows(g: Gate, f: Files, h: Files)
    requires g.Valid() && Sized(g.definition, f)
  {
    && Sized(g.definition, h)
    && forall k :: 0 <= k < SLOTS ==> FileGrows(f.receipts[k], h.receipts[k]) && FileGrows(f.audits[k], h.audits[k])
  }

  lemma StepGrows(g: Gate, s: State, t: State)
    requires g.Valid() && Sized(g.definition, s.files) && Next(g, s, t)
    ensures Grows(g, s.files, t.files)
  {
  }

  lemma CompletedStays(g: Gate, f: Files, h: Files, k: nat)
    requires g.Valid() && Sized(g.definition, f) && Grows(g, f, h) && k < SLOTS
    ensures ReadReceipt(g.definition, k, f.receipts[k]).Some? ==>
      ReadReceipt(g.definition, k, h.receipts[k]) == ReadReceipt(g.definition, k, f.receipts[k])
    ensures CompletedAt(g.definition, g.hash, f, k).Some? ==>
      CompletedAt(g.definition, g.hash, h, k) == CompletedAt(g.definition, g.hash, f, k)
  {
    assert FileGrows(f.receipts[k], h.receipts[k]) && FileGrows(f.audits[k], h.audits[k]);
    hide AcceptedAudit;
  }

  lemma {:induction false} PrefixStays(g: Gate, f: Files, h: Files, k: nat)
    requires g.Valid() && Sized(g.definition, f) && Grows(g, f, h) && k <= SLOTS && Finished(g, f, k)
    ensures Finished(g, h, k) && CompletedBefore(g, h, k) == CompletedBefore(g, f, k)
  {
    hide CompletedAt, Grows;
    if k > 0 {
      PrefixStays(g, f, h, k - 1);
      CompletedStays(g, f, h, k - 1);
    }
  }

  lemma ClearedStays(g: Gate, f: Files, h: Files, k: nat)
    requires g.Valid() && Sized(g.definition, f) && Grows(g, f, h) && Cleared(g, f, k)
    ensures Cleared(g, h, k)
  {
    PrefixStays(g, f, h, k);
  }

  lemma ReadAsStays(g: Gate, f: Files, h: Files, completed: seq<CompletedSlot>)
    requires g.Valid() && Sized(g.definition, f) && Grows(g, f, h) && ReadAs(g.definition, g.hash, f, completed)
    ensures ReadAs(g.definition, g.hash, h, completed)
  {
    forall i | 0 <= i < |completed| ensures CompletedAt(g.definition, g.hash, h, i) == Some(completed[i]) {
      CompletedStays(g, f, h, i);
    }
  }

  lemma AgreedStays(g: Gate, f: Files, h: Files, j: nat, authorization: Digest)
    requires g.Valid() && Sized(g.definition, f) && Grows(g, f, h) && Agreed(g, f, j, authorization)
    ensures Agreed(g, h, j, authorization)
  {
  }

  lemma JustifiedStays(g: Gate, f: Files, h: Files, v: Verdict)
    requires g.Valid() && Sized(g.definition, f) && Grows(g, f, h) && Justified(g, f, v)
    ensures Justified(g, h, v)
  {
    match v
    case Ready(k) => ClearedStays(g, f, h, k);
    case InProgress(k) => CompletedStays(g, f, h, k);
    case _ =>
  }

  /** Knowledge survives every other process's steps. */
  lemma KnowledgeStays(g: Gate, f: Files, h: Files, p: Process)
    requires g.Valid() && Sized(g.definition, f) && Grows(g, f, h) && Knows(g, f, p)
    ensures Knows(g, h, p)
  {
    hide Grows, ReadAs, Cleared, Agreed, ReadReceipt;
    match p
    case AtReceipt(_, completed) => ReadAsStays(g, f, h, completed);
    case ReadingReceipt(_, completed) => ReadAsStays(g, f, h, completed);
    case AtAudit(_, completed, receipt) =>
      ReadAsStays(g, f, h, completed);
      CompletedStays(g, f, h, |completed|);
    case ReadingAudit(_, completed, receipt) =>
      ReadAsStays(g, f, h, completed);
      CompletedStays(g, f, h, |completed|);
    case LookingAhead(_, verdict, _) => JustifiedStays(g, f, h, verdict);
    case Decided(_, verdict) => JustifiedStays(g, f, h, verdict);
    case CheckingPrior(k, a, j) =>
      ClearedStays(g, f, h, k);
      AgreedStays(g, f, h, j, a);
    case CreatingReceipt(k, a) =>
      ClearedStays(g, f, h, k);
      AgreedStays(g, f, h, k, a);
    case ReadingOwnReceipt(k) => JustifiedStays(g, f, h, InProgress(k));
    case CreatingAudit(k, _) => CompletedStays(g, f, h, k);
    case _ =>
  }

  // ----- each step keeps the gate safe

  lemma {:induction false} ReadAsIsPrefix(g: Gate, f: Files, completed: seq<CompletedSlot>)
    requires g.Valid() && Sized(g.definition, f) && ReadAs(g.definition, g.hash, f, completed)
    ensures Finished(g, f, |completed|) && CompletedBefore(g, f, |completed|) == completed
    decreases |completed|
  {
    hide CompletedAt;
    if completed != [] {
      var n := |completed| - 1;
      ReadAsIsPrefix(g, f, completed[..n]);
      assert CompletedAt(g.definition, g.hash, f, n) == Some(completed[n]);
      assert completed == completed[..n] + [completed[n]];
    }
  }

  lemma DecisionJustified(g: Gate, f: Files, completed: seq<CompletedSlot>)
    requires g.Valid() && Sized(g.definition, f) && ReadAs(g.definition, g.hash, f, completed)
    ensures Justified(g, f, AfterCompleted(g.definition, completed))
  {
    ReadAsIsPrefix(g, f, completed);
    hide CompletedAt, ReadAs, CompletedBefore;
  }

  lemma ReadOneMore(g: Gate, f: Files, completed: seq<CompletedSlot>, receipt: Receipt)
    requires g.Valid() && Sized(g.definition, f) && ReadAs(g.definition, g.hash, f, completed)
    requires Holds(g, f, |completed|, receipt)
    requires ReadAudit(g.definition, g.hash, |completed|, receipt, f.audits[|completed|]).Some?
    ensures ReadAs(g.definition, g.hash, f,
                   completed + [ReadAudit(g.definition, g.hash, |completed|, receipt, f.audits[|completed|]).value])
  {
    hide AcceptedAudit;
  }

  lemma PriorIsComplete(g: Gate, f: Files, k: nat, j: nat)
    requires g.Valid() && Sized(g.definition, f) && Cleared(g, f, k) && j < k
    ensures CompletedAt(g.definition, g.hash, f, j).Some? && f.receipts[j].Complete? && f.audits[j].Complete?
    ensures ReadReceipt(g.definition, j, f.receipts[j]).Some?
  {
  }

  lemma ObservingKeeps(g: Gate, f: Files, p: Process, q: Process)
    requires g.Valid() && Sized(g.definition, f) && Knows(g, f, p) && Observes(g, f, p, q)
    ensures Knows(g, f, q)
  {
    hide ReadAudit, CompletedAt, AfterCompleted, Cleared;
    match p
    case AtReceipt(_, completed) => DecisionJustified(g, f, completed);
    case ReadingAudit(_, completed, receipt) => ReadOneMore(g, f, completed, receipt);
    case CheckingPrior(k, h, j) =>
      if j < k {
        PriorIsComplete(g, f, k, j);
      }
    case _ =>
  }

  lemma AllClearedStay(g: Gate, f: Files, h: Files)
    requires g.Valid() && Orderly(g, f) && Grows(g, f, h)
    ensures forall k: nat :: k < SLOTS && !f.receipts[k].Absent? ==> Cleared(g, h, k)
    ensures forall k: nat :: k < SLOTS && !f.audits[k].Absent? ==> ReadReceipt(g.definition, k, h.receipts[k]).Some?
  {
    forall k: nat | k < SLOTS && !f.receipts[k].Absent? ensures Cleared(g, h, k) {
      ClearedStays(g, f, h, k);
    }
    forall k: nat | k < SLOTS && !f.audits[k].Absent? ensures ReadReceipt(g.definition, k, h.receipts[k]).Some? {
      CompletedStays(g, f, h, k);
    }
  }

  /** No receipt exists past an absent one. */
  lemma NoneBeyond(g: Gate, f: Files, k: nat, i: nat)
    requires g.Valid() && Orderly(g, f) && k < i < SLOTS && f.receipts[k].Absent?
    ensures f.receipts[i].Absent?
  {
    if !f.receipts[i].Absent? {
      PriorIsComplete(g, f, i, k);
    }
  }

  function WithReceipt(f: Files, k: nat, r: File<Receipt>): Files
    requires k < |f.receipts|
  {
    f.(receipts := f.receipts[k := r])
  }

  function WithAudit(f: Files, k: nat, a: File<Audit>): Files
    requires k < |f.audits|
  {
    f.(audits := f.audits[k := a])
  }

  lemma MakeOrderly(g: Gate, f: Files, h: Digest)
    requires g.Valid() && Sized(g.definition, f)
    requires forall k: nat :: k < SLOTS && !f.receipts[k].Absent? ==> Cleared(g, f, k)
    requires forall k: nat :: k < SLOTS && !f.audits[k].Absent? ==> ReadReceipt(g.definition, k, f.receipts[k]).Some?
    requires forall k: nat :: k < SLOTS ==> WellIntended(g, f, k)
    requires forall k: nat :: k < SLOTS && !f.receipts[k].Absent? ==> AuthorizationOf(f.receipts[k]) == h
    ensures Orderly(g, f)
  {
    hide Cleared, ReadReceipt, WellIntended, AuthorizationOf;
  }

  lemma CreateReceiptKeeps(g: Gate, f: Files, k: nat, h: Digest)
    requires g.Valid() && Orderly(g, f) && k < SLOTS && f.receipts[k].Absent? && Cleared(g, f, k) && Agreed(g, f, k, h)
    ensures Orderly(g, WithReceipt(f, k, Partial(ReceiptFor(g.definition, g.definition.schedule[k], h))))
  {
    var t := WithReceipt(f, k, Partial(ReceiptFor(g.definition, g.definition.schedule[k], h)));
    AllClearedStay(g, f, t);
    ClearedStays(g, f, t, k);
    ReceiptsUnder(g, f, k, h);
    hide Cleared, Agreed, ReadReceipt, Orderly, WellIntended, AuthorizationOf;
    MakeOrderly(g, t, h);
  }

  lemma ReceiptsUnder(g: Gate, f: Files, k: nat, h: Digest)
    requires g.Valid() && Orderly(g, f) && k < SLOTS && f.receipts[k].Absent? && Agreed(g, f, k, h)
    ensures var t := WithReceipt(f, k, Partial(ReceiptFor(g.definition, g.definition.schedule[k], h)));
      && (forall i: nat :: i < SLOTS ==> WellIntended(g, t, i))
      && (forall i: nat :: i < SLOTS && !t.receipts[i].Absent? ==> AuthorizationOf(t.receipts[i]) == h)
  {
    var t := WithReceipt(f, k, Partial(ReceiptFor(g.definition, g.definition.schedule[k], h)));
    forall i: nat | i < SLOTS
      ensures WellIntended(g, t, i) && (!t.receipts[i].Absent? ==> AuthorizationOf(t.receipts[i]) == h)
    {
      if k < i {
        NoneBeyond(g, f, k, i);
      }
      assert i != k ==> WellIntended(g, f, i);
      hide Orderly;
    }
  }

  lemma FinishReceiptKeeps(g: Gate, f: Files, k: nat)
    requires g.Valid() && Orderly(g, f) && k < SLOTS && f.receipts[k].Partial?
    ensures Orderly(g, WithReceipt(f, k, Complete(f.receipts[k].intended)))
  {
    var t := WithReceipt(f, k, Complete(f.receipts[k].intended));
    AllClearedStay(g, f, t);
    SameAuthorizations(g, f, k);
    forall i: nat | i < SLOTS ensures WellIntended(g, t, i) {
      assert WellIntended(g, f, i);
    }
    hide Cleared, ReadReceipt, WellIntended, AuthorizationOf;
  }

  lemma SameAuthorizations(g: Gate, f: Files, k: nat)
    requires g.Valid() && Sized(g.definition, f) && k < SLOTS && f.receipts[k].Partial?
    ensures var t := WithReceipt(f, k, Complete(f.receipts[k].intended));
      forall i: nat :: i < SLOTS && !t.receipts[i].Absent? ==>
        !f.receipts[i].Absent? && AuthorizationOf(t.receipts[i]) == AuthorizationOf(f.receipts[i])
  {
  }

  lemma AuditKeeps(g: Gate, f: Files, k: nat, a: File<Audit>)
    requires g.Valid() && Orderly(g, f) && k < SLOTS && FileGrows(f.audits[k], a)
    requires ReadReceipt(g.definition, k, f.receipts[k]).Some?
    ensures Orderly(g, WithAudit(f, k, a))
  {
    var t := WithAudit(f, k, a);
    AllClearedStay(g, f, t);
    forall i: nat | i < SLOTS ensures WellIntended(g, t, i) {
      assert WellIntended(g, f, i);
    }
    hide Cleared, ReadReceipt;
  }

  /** The next receipt to create is the next one in the log. */
  lemma NextToConsume(g: Gate, s: State, k: nat)
    requires g.Valid() && Orderly(g, s.files) && Logged(s) && Cleared(g, s.files, k) && s.files.receipts[k].Absent?
    ensures |s.consumed| == k
  {
    if k > 0 {
      PriorIsComplete(g, s.files, k, k - 1);
    }
  }

  lemma NextToRecord(g: Gate, s: State, k: nat)
    requires g.Valid() && Orderly(g, s.files) && Logged(s) && k < SLOTS && s.files.audits[k].Absent?
    requires ReadReceipt(g.definition, k, s.files.receipts[k]).Some?
    ensures |s.recorded| == k
  {
    if k > 0 {
      PriorIsComplete(g, s.files, k, k - 1);
    }
  }

  lemma ReceiptLogged(s: State, t: State, k: nat, r: Receipt)
    requires |s.files.receipts| == |s.files.audits| == SLOTS && Logged(s) && k < SLOTS && |s.consumed| == k
    requires t.files == WithReceipt(s.files, k, Partial(r)) && t.consumed == s.consumed + [k] && t.recorded == s.recorded
    ensures Logged(t)
  {
  }

  lemma AuditLogged(s: State, t: State, k: nat, a: Audit)
    requires |s.files.receipts| == |s.files.audits| == SLOTS && Logged(s) && k < SLOTS && |s.recorded| == k
    requires t.files == WithAudit(s.files, k, Partial(a)) && t.consumed == s.consumed && t.recorded == s.recorded + [k]
    ensures Logged(t)
  {
  }

  lemma FinishingLogged(s: State, t: State, k: nat)
    requires |s.files.receipts| == |s.files.audits| == SLOTS && Logged(s) && k < SLOTS
    requires t.consumed == s.consumed && t.recorded == s.recorded
    requires
      || (s.files.receipts[k].Partial? && t.files == WithReceipt(s.files, k, Complete(s.files.receipts[k].intended)))
      || (s.files.audits[k].Partial? && t.files == WithAudit(s.files, k, Complete(s.files.audits[k].intended)))
    ensures Logged(t)
  {
  }

  lemma CreatingReceiptKeeps(g: Gate, s: State, p: Process, t: State, q: Process)
    requires g.Valid() && Orderly(g, s.files) && Logged(s) && Knows(g, s.files, p) && Writes(g, s, p, t, q) && p.CreatingReceipt?
    ensures Orderly(g, t.files) && Logged(t)
  {
    var k := p.slot;
    CreateReceiptKeeps(g, s.files, k, p.authorization);
    NextToConsume(g, s, k);
    ReceiptLogged(s, t, k, ReceiptFor(g.definition, g.definition.schedule[k], p.authorization));
    hide Orderly, Cleared, Agreed, Logged;
  }

  lemma CreatingAuditKeeps(g: Gate, s: State, p: Process, t: State, q: Process)
    requires g.Valid() && Orderly(g, s.files) && Logged(s) && Knows(g, s.files, p) && Writes(g, s, p, t, q) && p.CreatingAudit?
    ensures Orderly(g, t.files) && Logged(t)
  {
    var k := p.slot;
    NextToRecord(g, s, k);
    var a :| t.files == s.files.(audits := s.files.audits[k := Partial(a)]);
    AuditKeeps(g, s.files, k, Partial(a));
    AuditLogged(s, t, k, a);
    hide Orderly, ReadReceipt, Logged;
  }

  lemma FinishingKeeps(g: Gate, s: State, p: Process, t: State, q: Process)
    requires g.Valid() && Orderly(g, s.files) && Logged(s) && Writes(g, s, p, t, q) && (p.FinishingReceipt? || p.FinishingAudit?)
    ensures Orderly(g, t.files) && Logged(t)
  {
    var k := p.slot;
    FinishingLogged(s, t, k);
    if p.FinishingReceipt? {
      FinishReceiptKeeps(g, s.files, k);
    } else {
      assert ReadReceipt(g.definition, k, s.files.receipts[k]).Some?;
      AuditKeeps(g, s.files, k, Complete(s.files.audits[k].intended));
    }
    hide Orderly, ReadReceipt, Logged;
  }

  lemma WriterIs(g: Gate, s: State, p: Process, t: State, q: Process)
    requires g.Valid() && Sized(g.definition, s.files) && Writes(g, s, p, t, q)
    ensures p.CreatingReceipt? || p.CreatingAudit? || p.FinishingReceipt? || p.FinishingAudit?
    ensures Sized(g.definition, t.files) && Knows(g, t.files, q)
  {
  }

  lemma WritingKeeps(g: Gate, s: State, p: Process, t: State, q: Process)
    requires g.Valid() && Orderly(g, s.files) && Logged(s) && Knows(g, s.files, p) && Writes(g, s, p, t, q)
    ensures Orderly(g, t.files) && Logged(t) && Knows(g, t.files, q)
  {
    WriterIs(g, s, p, t, q);
    hide *;
    if p.CreatingReceipt? {
      CreatingReceiptKeeps(g, s, p, t, q);
    } else if p.CreatingAudit? {
      CreatingAuditKeeps(g, s, p, t, q);
    } else {
      FinishingKeeps(g, s, p, t, q);
    }
  }

  /** Every step of every process keeps the gate safe, however stale what the process knows. */
  lemma StepKeeps(g: Gate, s: State, t: State)
    requires g.Valid() && Safe(g, s) && Next(g, s, t)
    ensures Safe(g, t)
  {
    StepGrows(g, s, t);
    var pid :| pid in s.processes && Acts(g, s, t, pid);
    var p, q := s.processes[pid], t.processes[pid];
    assert Knows(g, s.files, p);
    if Writes(g, s, p, t, q) {
      WritingKeeps(g, s, p, t, q);
    } else if q != Idle {
      ObservingKeeps(g, s.files, p, q);
    }
    hide Orderly, Logged, Knows, Writes, Observes, Grows;
    forall other | other in t.processes ensures Knows(g, t.files, t.processes[other]) {
      if other != pid {
        assert t.processes[other] == s.processes[other];
        KnowledgeStays(g, s.files, t.files, s.processes[other]);
      } else if q == Idle {
        IdleKnows(g, t.files);
      }
    }
  }

  lemma IdleKnows(g: Gate, f: Files)
    requires g.Valid() && Sized(g.definition, f)
    ensures Knows(g, f, Idle)
  {
  }

  // ----- runs

  /** A run of the system: any number of processes, interleaved in any way, each step a file access. */
  ghost predicate Run(g: Gate, run: seq<State>)
    requires g.Valid()
  {
    && |run| > 0 && Initial(g, run[0])
    && forall i :: 0 <= i < |run| ==> StepAt(g, run, i)
  }

  ghost predicate StepAt(g: Gate, run: seq<State>, i: nat)
    requires g.Valid() && i < |run|
  {
    i + 1 < |run| ==> Sized(g.definition, run[i].files) && Next(g, run[i], run[i + 1])
  }

  lemma InitialSafe(g: Gate, s: State)
    requires g.Valid() && Initial(g, s)
    ensures Safe(g, s)
  {
  }

  lemma {:induction false} RunSafe(g: Gate, run: seq<State>, i: nat)
    requires g.Valid() && Run(g, run) && i < |run|
    ensures Safe(g, run[i])
    decreases i
  {
    hide Safe, Next, Sized;
    if i == 0 {
      InitialSafe(g, run[0]);
    } else {
      RunSafe(g, run, i - 1);
      RunStep(g, run, i);
      StepKeeps(g, run[i - 1], run[i]);
    }
  }

  // ----- what a safe gate promises

  /** Receipts and audits form a schedule prefix with at most one unaudited slot, each slot was consumed
      and recorded at most once and in order, and all receipts carry one authorization. */
  lemma SafeIsPrefix(g: Gate, s: State)
    requires g.Valid() && Safe(g, s)
    ensures |s.recorded| <= |s.consumed| <= |s.recorded| + 1
    ensures forall k :: 0 <= k < |s.consumed| ==> s.consumed[k] == k
    ensures forall k :: 0 <= k < |s.recorded| ==> s.recorded[k] == k
    ensures forall k :: 0 <= k < SLOTS ==> (!s.files.receipts[k].Absent? <==> k < |s.consumed|)
    ensures forall k :: 0 <= k < SLOTS ==> (!s.files.audits[k].Absent? <==> k < |s.recorded|)
    ensures forall i, j :: 0 <= i < |s.consumed| && 0 <= j < |s.consumed| ==>
      AuthorizationOf(s.files.receipts[i]) == AuthorizationOf(s.files.receipts[j])
  {
    AtMostOneUnaudited(g, s);
    hide Cleared, ReadReceipt, WellIntended, Knows;
  }

  lemma AtMostOneUnaudited(g: Gate, s: State)
    requires g.Valid() && Orderly(g, s.files) && Logged(s)
    ensures |s.recorded| <= |s.consumed| <= |s.recorded| + 1
  {
    var n, m := |s.consumed|, |s.recorded|;
    if m > 0 {
      AuditNeedsReceipt(g, s.files, m - 1);
    }
    if n > 1 {
      ExistingIsCleared(g, s.files, n - 1);
      PriorIsComplete(g, s.files, n - 1, n - 2);
    }
    hide Orderly;
  }

  lemma AuditNeedsReceipt(g: Gate, f: Files, k: nat)
    requires g.Valid() && Orderly(g, f) && k < SLOTS && !f.audits[k].Absent?
    ensures ReadReceipt(g.definition, k, f.receipts[k]).Some?
  {
  }

  lemma ExistingIsCleared(g: Gate, f: Files, k: nat)
    requires g.Valid() && Orderly(g, f) && k < SLOTS && !f.receipts[k].Absent?
    ensures Cleared(g, f, k)
  {
  }

  /** Where slot k has a receipt, every earlier audit is final, was accepted, passed integrity with clean
      evidence, and reports no infrastructure failure. */
  lemma ReceiptMeansCleared(g: Gate, s: State, k: nat, i: nat)
    requires g.Valid() && Safe(g, s) && i < k < SLOTS && !s.files.receipts[k].Absent?
    ensures s.files.receipts[i].Complete? && s.files.audits[i].Complete?
    ensures var slot := CompletedAt(g.definition, g.hash, s.files, i);
      slot.Some? && slot.value.integrity == Passed && slot.value.outcome != InfrastructureFailure
    ensures s.files.audits[i].content.failures == []
    ensures s.files.audits[i].content.observed.repository == Repository(Some(g.definition.revision), Clean)
  {
    var f := s.files;
    PriorIsComplete(g, f, k, i);
    ClearedSlot(g, f, k, i);
    var receipt := ReadReceipt(g.definition, i, f.receipts[i]).value;
    PassedMeansClean(g.definition, g.definition.schedule[i], receipt, g.hash(receipt), f.audits[i].content);
    hide Safe, Orderly, Cleared, EvidenceHolds;
  }

  lemma {:induction false} CompletedIndex(g: Gate, f: Files, k: nat, i: nat)
    requires g.Valid() && Sized(g.definition, f) && i < k <= SLOTS && Finished(g, f, k)
    ensures |CompletedBefore(g, f, k)| == k
    ensures CompletedAt(g.definition, g.hash, f, i) == Some(CompletedBefore(g, f, k)[i])
    decreases k
  {
    hide CompletedAt;
    if k == 1 {
      assert CompletedBefore(g, f, 0) == [];
    } else if i < k - 1 {
      CompletedIndex(g, f, k - 1, i);
    } else {
      CompletedIndex(g, f, k - 1, 0);
    }
  }

  lemma ClearedSlot(g: Gate, f: Files, k: nat, i: nat)
    requires g.Valid() && Sized(g.definition, f) && Cleared(g, f, k) && i < k
    ensures var slot := CompletedAt(g.definition, g.hash, f, i);
      slot.Some? && slot.value.integrity == Passed && slot.value.outcome != InfrastructureFailure
  {
    CompletedIndex(g, f, k, i);
    hide CompletedAt, CompletedBefore;
  }

  /** Where the third slot has a receipt, the second attempt was completed, usable and fully rewarded,
      and the first two together submitted no more tokens than the limit; the fourth slot inherits it. */
  lemma SecondBlockMeansUsable(g: Gate, s: State, k: nat)
    requires g.Valid() && Safe(g, s) && 2 <= k < SLOTS && !s.files.receipts[k].Absent?
    ensures var first, second := CompletedAt(g.definition, g.hash, s.files, 0), CompletedAt(g.definition, g.hash, s.files, 1);
      && first.Some? && second.Some?
      && second.value.outcome == Completed && second.value.usability == Usable && second.value.reward == Some(1.0)
      && first.value.submittedTokens.Some? && second.value.submittedTokens.Some?
      && first.value.submittedTokens.value + second.value.submittedTokens.value <= g.definition.tokenLimit
  {
    var f := s.files;
    ExistingIsCleared(g, f, k);
    if k == 3 {
      PriorIsComplete(g, f, 3, 2);
      ExistingIsCleared(g, f, 2);
    }
    ClearedDecision(g, f, 2);
    CompletedIndex(g, f, 2, 0);
    CompletedIndex(g, f, 2, 1);
    GoOnAfterTwo(g.definition, CompletedBefore(g, f, 2));
    hide *;
  }

  lemma GoOnAfterTwo(d: Definition, completed: seq<CompletedSlot>)
    requires |completed| == 2 && AfterCompleted(d, completed) == Ready(2)
    ensures completed[1].outcome == Completed && completed[1].usability == Usable && completed[1].reward == Some(1.0)
    ensures completed[0].submittedTokens.Some? && completed[1].submittedTokens.Some?
    ensures completed[0].submittedTokens.value + completed[1].submittedTokens.value <= d.tokenLimit
  {
  }

  /** The gate's files say it is stopped or complete. */
  ghost predicate Settled(g: Gate, f: Files, v: Verdict)
    requires g.Valid() && Sized(g.definition, f)
  {
    (v.Stopped? || v.AllComplete?) && Says(g.definition, g.hash, f, Some(v))
  }

  lemma SettledShape(g: Gate, f: Files, v: Verdict, completed: seq<CompletedSlot>)
    requires g.Valid() && Sized(g.definition, f) && (v.Stopped? || v.AllComplete?)
    requires ReadAs(g.definition, g.hash, f, completed) && SaysAfter(g.definition, g.hash, f, completed, Some(v))
    ensures v == AfterCompleted(g.definition, completed)
    ensures forall k :: 0 <= k < |completed| ==> f.receipts[k].Complete? && f.audits[k].Complete?
    ensures forall k :: |completed| <= k < SLOTS ==> f.receipts[k].Absent? && f.audits[k].Absent?
  {
    forall k | 0 <= k < |completed| ensures f.receipts[k].Complete? && f.audits[k].Complete? {
      assert CompletedAt(g.definition, g.hash, f, k) == Some(completed[k]);
    }
    hide AfterCompleted, AcceptedAudit;
  }

  /** No step, on however old a snapshot, changes a file of a stopped or complete gate. */
  lemma SettledStays(g: Gate, s: State, t: State, v: Verdict)
    requires g.Valid() && Safe(g, s) && Settled(g, s.files, v) && Next(g, s, t)
    ensures SameFiles(s, t)
  {
    var f := s.files;
    var completed :| ReadAs(g.definition, g.hash, f, completed) && SaysAfter(g.definition, g.hash, f, completed, Some(v));
    SettledShape(g, f, v, completed);
    ReadAsIsPrefix(g, f, completed);
    var pid :| pid in s.processes && Acts(g, s, t, pid);
    NoWriter(g, f, completed, v, s.processes[pid]);
    hide Knows, Orderly, Observes, ReadAs, SaysAfter, Says;
  }

  lemma NoWriter(g: Gate, f: Files, completed: seq<CompletedSlot>, v: Verdict, p: Process)
    requires g.Valid() && Sized(g.definition, f) && Knows(g, f, p) && (v.Stopped? || v.AllComplete?)
    requires |completed| <= SLOTS
    requires CompletedBefore(g, f, |completed|) == completed && v == AfterCompleted(g.definition, completed)
    requires forall k :: 0 <= k < |completed| ==> f.receipts[k].Complete? && f.audits[k].Complete?
    requires forall k :: |completed| <= k < SLOTS ==> f.receipts[k].Absent? && f.audits[k].Absent?
    ensures p.CreatingReceipt? && p.slot < SLOTS ==> !f.receipts[p.slot].Absent?
    ensures p.FinishingReceipt? && p.slot < SLOTS ==> !f.receipts[p.slot].Partial?
    ensures p.CreatingAudit? && p.slot < SLOTS ==> !f.audits[p.slot].Absent?
    ensures p.FinishingAudit? && p.slot < SLOTS ==> !f.audits[p.slot].Partial?
  {
    hide AfterCompleted, CompletedBefore, Cleared, Agreed, CompletedAt, ReadReceipt;
    match p
    case CreatingReceipt(k, _) => NotCleared(g, f, |completed|, v, k);
    case CreatingAudit(k, receipt) => ReadMeansFinished(g, f, k, receipt);
    case _ =>
  }

  lemma ReadMeansFinished(g: Gate, f: Files, k: nat, receipt: Receipt)
    requires g.Valid() && Sized(g.definition, f)
    ensures Holds(g, f, k, receipt) ==> k < SLOTS && f.receipts[k] == Complete(receipt)
  {
  }

  lemma NotCleared(g: Gate, f: Files, n: nat, v: Verdict, k: nat)
    requires g.Valid() && Sized(g.definition, f) && Cleared(g, f, k) && (v.Stopped? || v.AllComplete?)
    requires n <= SLOTS && AfterCompleted(g.definition, CompletedBefore(g, f, n)) == v
    requires forall i :: n <= i < SLOTS ==> f.receipts[i].Absent?
    ensures k < n
  {
    hide *;
    assert k <= n by {
      if n < SLOTS {
        ClearedNotPast(g, f, k, n);
      } else {
        ClearedDecision(g, f, k);
      }
    }
    assert k != n by {
      ClearedDecision(g, f, k);
    }
  }

  lemma ClearedNotPast(g: Gate, f: Files, k: nat, n: nat)
    requires g.Valid() && Sized(g.definition, f) && Cleared(g, f, k) && n < SLOTS && f.receipts[n].Absent?
    ensures k <= n
  {
    if n < k {
      PriorIsComplete(g, f, k, n);
    }
  }

  lemma ClearedDecision(g: Gate, f: Files, k: nat)
    requires g.Valid() && Sized(g.definition, f) && Cleared(g, f, k)
    ensures k < SLOTS && AfterCompleted(g.definition, CompletedBefore(g, f, k)) == Ready(k)
    ensures Finished(g, f, k)
  {
  }

  /** Stopped and complete are absorbing, in every run. */
  lemma {:induction false} SettledForGood(g: Gate, run: seq<State>, i: nat, j: nat, v: Verdict)
    requires g.Valid() && Run(g, run) && i <= j < |run|
    requires Sized(g.definition, run[i].files) && Settled(g, run[i].files, v)
    ensures SameFiles(run[i], run[j])
    decreases j
  {
    hide Safe, Next, Settled, Run, Sized;
    if i < j {
      SettledForGood(g, run, i, j - 1, v);
      RunSafe(g, run, j - 1);
      RunStep(g, run, j);
      SettledStays(g, run[j - 1], run[j], v);
    }
  }

  lemma RunStep(g: Gate, run: seq<State>, j: nat)
    requires g.Valid() && Run(g, run) && 0 < j < |run|
    ensures Sized(g.definition, run[j - 1].files) && Next(g, run[j - 1], run[j])
  {
    assert StepAt(g, run, j - 1);
  }

  /** A file of the slot is unfinished, or its audit is not accepted. */
  ghost predicate TornOrRefused(g: Gate, f: Files, k: nat)
    requires g.Valid() && Sized(g.definition, f) && k < SLOTS
  {
    || f.receipts[k].Partial? || f.audits[k].Partial?
    || (f.audits[k].Complete? && CompletedAt(g.definition, g.hash, f, k).None?)
  }

  /** A gate whose files are all finished and whose audits are all accepted always has a disposition:
      the schedule errors of a snapshot never concern a state this protocol reaches. */
  lemma SafeHasDisposition(g: Gate, s: State)
    requires g.Valid() && Safe(g, s) && Says(g.definition, g.hash, s.files, None)
    ensures exists k: nat :: k < SLOTS && TornOrRefused(g, s.files, k)
  {
    var f := s.files;
    var completed :| ReadAs(g.definition, g.hash, f, completed) && SaysAfter(g.definition, g.hash, f, completed, None);
    ErrorIsTorn(g, s, completed);
  }

  lemma ErrorIsTorn(g: Gate, s: State, completed: seq<CompletedSlot>)
    requires g.Valid() && Orderly(g, s.files) && Logged(s)
    requires SaysAfter(g.definition, g.hash, s.files, completed, None)
    ensures |completed| < SLOTS && TornOrRefused(g, s.files, |completed|)
  {
    var f, k := s.files, |completed|;
    assert k < SLOTS;
    UnreadAtError(g, f, k);
    if f.audits[k].Absent? {
      NothingLater(g, s, k);
    }
    hide Orderly, Logged, CompletedAt, AfterCompleted;
  }

  lemma UnreadAtError(g: Gate, f: Files, k: nat)
    requires g.Valid() && Orderly(g, f) && k < SLOTS
    ensures f.receipts[k].Complete? ==> ReadReceipt(g.definition, k, f.receipts[k]).Some?
    ensures !f.audits[k].Absent? ==> f.receipts[k].Complete?
  {
    assert WellIntended(g, f, k);
  }

  lemma NothingLater(g: Gate, s: State, k: nat)
    requires g.Valid() && Orderly(g, s.files) && Logged(s) && k < SLOTS && s.files.audits[k].Absent?
    ensures !LaterExists(s.files, k + 1)
  {
    AtMostOneUnaudited(g, s);
    hide Orderly;
  }
}
