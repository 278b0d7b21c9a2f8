// The gate's files, and the disposition they imply.
module GateSnapshot {
  import opened GateAudit
  import opened Optional

  /** A state file: absent, created but not yet finished (unreadable, maybe for ever), or finished for good. */
  datatype File<T> = Absent | Partial(intended: T) | Complete(content: T)

  /** One receipt file and one audit file for each slot of the schedule. */
  datatype Files = Files(receipts: seq<File<Receipt>>, audits: seq<File<Audit>>)

  const SLOTS: nat := 4

  predicate Sized(d: Definition, f: Files) {
    |d.schedule| == SLOTS && |f.receipts| == SLOTS && |f.audits| == SLOTS
  }

  datatype StopReason = InfrastructureStop | IntegrityStop | UnusableStop | TokensMissing | TokenLimitExceeded

  /** The gate's disposition; slots are named by their position in the schedule. */
  datatype Verdict = Ready(next: nat) | InProgress(active: nat) | Stopped(reason: StopReason) | AllComplete

  // ----- the decision over the completed slots

  predicate AnyInfrastructureFailure(completed: seq<CompletedSlot>) {
    exists i :: 0 <= i < |completed| && completed[i].outcome == InfrastructureFailure
  }

  predicate AnyIntegrityFailure(completed: seq<CompletedSlot>) {
    exists i :: 0 <= i < |completed| && completed[i].integrity == Failed
  }

  predicate SecondUsable(completed: seq<CompletedSlot>)
    requires |completed| >= 2
  {
    completed[1].outcome == Completed && completed[1].reward == Some(1.0) && completed[1].usability == Usable
  }

  /** `_snapshot_after_completed` */
  function AfterCompleted(d: Definition, completed: seq<CompletedSlot>): Verdict {
    if AnyInfrastructureFailure(completed) then Stopped(InfrastructureStop)
    else if AnyIntegrityFailure(completed) then Stopped(IntegrityStop)
    else if |completed| == SLOTS then AllComplete
    else if |completed| == 2 && !SecondUsable(completed) then Stopped(UnusableStop)
    else if |completed| == 2 && (completed[0].submittedTokens.None? || completed[1].submittedTokens.None?) then
      Stopped(TokensMissing)
    else if |completed| == 2 && completed[0].submittedTokens.value + completed[1].submittedTokens.value > d.tokenLimit then
      Stopped(TokenLimitExceeded)
    else Ready(|completed|)
  }

  // ----- reading

  /** What `_read_receipt` makes of a file; nothing where it raises. */
  function ReadReceipt(d: Definition, k: nat, file: File<Receipt>): (r: Option<Receipt>)
    requires k < |d.schedule|
    ensures r.Some? ==> file == Complete(r.value)
  {
    if file.Complete? && file.content == ReceiptFor(d, d.schedule[k], file.content.authorization) then Some(file.content)
    else None
  }

  /** What `_read_terminal_audit` makes of a file, beside a receipt. */
  function ReadAudit(d: Definition, hash: Receipt -> Digest, k: nat, receipt: Receipt, file: File<Audit>): Option<CompletedSlot>
    requires k < |d.schedule|
  {
    if file.Complete? then AcceptedAudit(d, d.schedule[k], receipt, hash(receipt), file.content) else None
  }

  /** The completed slot at k, where its receipt and its audit both read well. */
  function CompletedAt(d: Definition, hash: Receipt -> Digest, f: Files, k: nat): Option<CompletedSlot>
    requires Sized(d, f) && k < SLOTS
  {
    var receipt := ReadReceipt(d, k, f.receipts[k]);
    if receipt.None? then None else ReadAudit(d, hash, k, receipt.value, f.audits[k])
  }

  /** The first slots read as `completed`. */
  ghost predicate ReadAs(d: Definition, hash: Receipt -> Digest, f: Files, completed: seq<CompletedSlot>)
    requires Sized(d, f)
  {
    && |completed| <= SLOTS
    && forall i :: 0 <= i < |completed| ==> CompletedAt(d, hash, f, i) == Some(completed[i])
  }

  /** `_later_state_exists` */
  predicate LaterExists(f: Files, start: nat)
    requires |f.receipts| == |f.audits|
  {
    exists k :: start <= k < |f.receipts| && (!f.receipts[k].Absent? || !f.audits[k].Absent?)
  }

  /** What a snapshot of the files says; nothing where it raises. */
  ghost predicate Says(d: Definition, hash: Receipt -> Digest, f: Files, v: Option<Verdict>)
    requires Sized(d, f)
  {
    exists completed :: ReadAs(d, hash, f, completed) && SaysAfter(d, hash, f, completed, v)
  }

  ghost predicate SaysAfter(d: Definition, hash: Receipt -> Digest, f: Files, completed: seq<CompletedSlot>, v: Option<Verdict>)
    requires Sized(d, f)
  {
    var k := |completed|;
    if k >= SLOTS then v == Some(AfterCompleted(d, completed))
    else if f.receipts[k].Absent? then
      v == if !f.audits[k].Absent? || LaterExists(f, k + 1) then None else Some(AfterCompleted(d, completed))
    else if ReadReceipt(d, k, f.receipts[k]).None? then v == None
    else if f.audits[k].Absent? then v == if LaterExists(f, k + 1) then None else Some(InProgress(k))
    else CompletedAt(d, hash, f, k).None? && v == None
  }

  /** `snapshot`, over files that stand still. */
  method Snapshot(d: Definition, hash: Receipt -> Digest, f: Files) returns (v: Option<Verdict>)
    requires Sized(d, f)
    ensures Says(d, hash, f, v)
  {
    var completed: seq<CompletedSlot> := [];
    var i := 0;
    while i < SLOTS
      invariant i == |completed| <= SLOTS && ReadAs(d, hash, f, completed)
    {
      if f.receipts[i].Absent? {
        v := if !f.audits[i].Absent? || LaterExists(f, i + 1) then None else Some(AfterCompleted(d, completed));
        assert SaysAfter(d, hash, f, completed, v);
        return;
      }
      var receipt := ReadReceipt(d, i, f.receipts[i]);
      if receipt.None? {
        assert SaysAfter(d, hash, f, completed, None);
        return None;
      }
      if f.audits[i].Absent? {
        v := if LaterExists(f, i + 1) then None else Some(InProgress(i));
        assert SaysAfter(d, hash, f, completed, v);
        return;
      }
      var slot := ReadAudit(d, hash, i, receipt.value, f.audits[i]);
      if slot.None? {
        assert SaysAfter(d, hash, f, completed, None);
        return None;
      }
      completed := completed + [slot.value];
      i := i + 1;
    }
    v := Some(AfterCompleted(d, completed));
    assert SaysAfter(d, hash, f, completed, v);
  }

  /** A state of the files says one thing. */
  lemma SaysOneThing(d: Definition, hash: Receipt -> Digest, f: Files, v: Option<Verdict>, u: Option<Verdict>)
    requires Sized(d, f) && Says(d, hash, f, v) && Says(d, hash, f, u)
    ensures v == u
  {
    var a :| ReadAs(d, hash, f, a) && SaysAfter(d, hash, f, a, v);
    var b :| ReadAs(d, hash, f, b) && SaysAfter(d, hash, f, b, u);
    hide AfterCompleted, AcceptedAudit;
    if |a| < SLOTS { StopsAt(d, hash, f, a, v); }
    if |b| < SLOTS { StopsAt(d, hash, f, b, u); }
    assert |a| == |b|;
    assert a == b by {
      forall i | 0 <= i < |a| ensures a[i] == b[i] {
        assert CompletedAt(d, hash, f, i) == Some(a[i]);
      }
    }
  }

  lemma StopsAt(d: Definition, hash: Receipt -> Digest, f: Files, completed: seq<CompletedSlot>, v: Option<Verdict>)
    requires Sized(d, f) && |completed| < SLOTS && SaysAfter(d, hash, f, completed, v)
    ensures CompletedAt(d, hash, f, |completed|) == None
  {
    hide AfterCompleted, AcceptedAudit;
  }

  // ----- the disposition, condition by condition

  /** No file of slot k or of a later one exists. */
  predicate NothingFrom(f: Files, k: nat)
    requires |f.receipts| == |f.audits| == SLOTS
  {
    forall j :: k <= j < SLOTS ==> f.receipts[j].Absent? && f.audits[j].Absent?
  }

  /** The second attempt was completed with full reward and is usable. */
  predicate FullyUsable(slot: CompletedSlot) {
    slot.outcome == Completed && slot.usability == Usable && slot.reward == Some(1.0)
  }

  /** Of finished slots with nothing behind them the files say that the gate goes on with slot k, stops, or is
      complete, if and only if: */
  lemma DispositionIff(d: Definition, hash: Receipt -> Digest, f: Files, completed: seq<CompletedSlot>, k: nat)
    requires Sized(d, f) && ReadAs(d, hash, f, completed) && NothingFrom(f, |completed|)
    // an attempt failed for its infrastructure;
    ensures Says(d, hash, f, Some(Stopped(InfrastructureStop))) <==>
      exists i :: 0 <= i < |completed| && completed[i].outcome == InfrastructureFailure
    // none did, but the integrity of one failed;
    ensures Says(d, hash, f, Some(Stopped(IntegrityStop))) <==>
      && (forall i :: 0 <= i < |completed| ==> completed[i].outcome != InfrastructureFailure)
      && (exists i :: 0 <= i < |completed| && completed[i].integrity == Failed)
    // nothing failed, and
    // - all four slots are finished;
    ensures Says(d, hash, f, Some(AllComplete)) <==> Unfailing(completed) && |completed| == 4
    // - there are two, and the second is not fully usable;
    ensures Says(d, hash, f, Some(Stopped(UnusableStop))) <==>
      Unfailing(completed) && |completed| == 2 && !FullyUsable(completed[1])
    // - there are two, the second usable, and a token count is missing;
    ensures Says(d, hash, f, Some(Stopped(TokensMissing))) <==>
      && Unfailing(completed) && |completed| == 2 && FullyUsable(completed[1])
      && (completed[0].submittedTokens == None || completed[1].submittedTokens == None)
    // - or both counts are known and exceed the limit together;
    ensures Says(d, hash, f, Some(Stopped(TokenLimitExceeded))) <==>
      && Unfailing(completed) && |completed| == 2 && FullyUsable(completed[1])
      && completed[0].submittedTokens != None && completed[1].submittedTokens != None
      && completed[0].submittedTokens.value + completed[1].submittedTokens.value > d.tokenLimit
    // - k is the next slot, and if it is the third, the second is usable and the tokens are within the limit.
    ensures Says(d, hash, f, Some(Ready(k))) <==>
      && Unfailing(completed) && k == |completed| < 4
      && (k == 2 ==>
            && FullyUsable(completed[1])
            && completed[0].submittedTokens != None && completed[1].submittedTokens != None
            && completed[0].submittedTokens.value + completed[1].submittedTokens.value <= d.tokenLimit)
    ensures !Says(d, hash, f, Some(InProgress(k))) && !Says(d, hash, f, None)
  {
    hide *;
    SaysDecision(d, hash, f, completed);
    StopsOverFailures(d, completed);
    StopsAfterTwo(d, completed);
    GoesOn(d, completed, k);
  }

  lemma StopsOverFailures(d: Definition, completed: seq<CompletedSlot>)
    ensures AfterCompleted(d, completed) == Stopped(InfrastructureStop) <==>
      exists i :: 0 <= i < |completed| && completed[i].outcome == InfrastructureFailure
    ensures AfterCompleted(d, completed) == Stopped(IntegrityStop) <==>
      && (forall i :: 0 <= i < |completed| ==> completed[i].outcome != InfrastructureFailure)
      && (exists i :: 0 <= i < |completed| && completed[i].integrity == Failed)
  {
  }

  lemma StopsAfterTwo(d: Definition, completed: seq<CompletedSlot>)
    ensures AfterCompleted(d, completed) == Stopped(UnusableStop) <==>
      Unfailing(completed) && |completed| == 2 && !FullyUsable(completed[1])
    ensures AfterCompleted(d, completed) == Stopped(TokensMissing) <==>
      && Unfailing(completed) && |completed| == 2 && FullyUsable(completed[1])
      && (completed[0].submittedTokens == None || completed[1].submittedTokens == None)
    ensures AfterCompleted(d, completed) == Stopped(TokenLimitExceeded) <==>
      && Unfailing(completed) && |completed| == 2 && FullyUsable(completed[1])
      && completed[0].submittedTokens != None && completed[1].submittedTokens != None
      && completed[0].submittedTokens.value + completed[1].submittedTokens.value > d.tokenLimit
  {
  }

  lemma GoesOn(d: Definition, completed: seq<CompletedSlot>, k: nat)
    requires |completed| <= SLOTS
    ensures AfterCompleted(d, completed) == AllComplete <==> Unfailing(completed) && |completed| == 4
    ensures AfterCompleted(d, completed) == Ready(k) <==>
      && Unfailing(completed) && k == |completed| < 4
      && (k == 2 ==>
            && FullyUsable(completed[1])
            && completed[0].submittedTokens != None && completed[1].submittedTokens != None
            && completed[0].submittedTokens.value + completed[1].submittedTokens.value <= d.tokenLimit)
    ensures AfterCompleted(d, completed) != InProgress(k)
  {
  }

  predicate Unfailing(completed: seq<CompletedSlot>) {
    forall i :: 0 <= i < |completed| ==> completed[i].outcome != InfrastructureFailure && completed[i].integrity == Passed
  }

  lemma SaysDecision(d: Definition, hash: Receipt -> Digest, f: Files, completed: seq<CompletedSlot>)
    requires Sized(d, f) && ReadAs(d, hash, f, completed) && NothingFrom(f, |completed|)
    ensures |completed| <= SLOTS && forall v :: Says(d, hash, f, v) <==> v == Some(AfterCompleted(d, completed))
  {
    var decision := Some(AfterCompleted(d, completed));
    assert SaysAfter(d, hash, f, completed, decision);
    hide AfterCompleted, ReadAs, SaysAfter;
    forall v ensures Says(d, hash, f, v) <==> v == decision {
      assert Says(d, hash, f, decision);
      if Says(d, hash, f, v) {
        SaysOneThing(d, hash, f, v, decision);
      }
    }
  }

  /** Slot k is in progress exactly when the slots before it are finished, it has its receipt, and no other file
      exists. */
  lemma InProgressIff(d: Definition, hash: Receipt -> Digest, f: Files, k: nat)
    requires Sized(d, f)
    ensures Says(d, hash, f, Some(InProgress(k))) <==>
      && k < SLOTS && (forall i :: 0 <= i < k ==> CompletedAt(d, hash, f, i) != None)
      && f.receipts[k].Complete? && f.audits[k].Absent? && NothingFrom(f, k + 1)
      && f.receipts[k].content == ReceiptFor(d, d.schedule[k], f.receipts[k].content.authorization)
  {
    if Says(d, hash, f, Some(InProgress(k))) {
      var completed :| ReadAs(d, hash, f, completed) && SaysAfter(d, hash, f, completed, Some(InProgress(k)));
      assert |completed| == k;
      forall i | 0 <= i < k ensures CompletedAt(d, hash, f, i) != None {
        assert CompletedAt(d, hash, f, i) == Some(completed[i]);
      }
    }
    hide CompletedAt;
    if k < SLOTS && forall i :: 0 <= i < k ==> CompletedAt(d, hash, f, i) != None {
      var completed := seq(k, i requires 0 <= i < k => CompletedAt(d, hash, f, i).value);
      assert ReadAs(d, hash, f, completed);
      assert SaysAfter(d, hash, f, completed, Some(InProgress(k))) ==> Says(d, hash, f, Some(InProgress(k)));
    }
  }
}
