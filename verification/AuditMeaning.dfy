// When a slot's audit passes, in terms of what is on disk and what was observed.
module AuditMeaning {
  import opened GateAudit
  import opened Optional

  /** The repository and the files stand as the gate's definition names them. */
  ghost predicate AsDefined(d: Definition, w: World) {
    && w.repository == Repository(Some(d.revision), Clean)
    && w.digests(d.declaration.path) == Some(d.declaration.digest)
    && w.manifestDigest == Some(d.manifest.digest) && w.package == PackageMatches
    && forall k :: 0 <= k < |d.schedule| ==>
         w.digests(d.schedule[k].configuration.path) == Some(d.schedule[k].configuration.digest)
  }

  /** The attempt left exactly the required artifacts, all readable, and nothing was retried. */
  ghost predicate Undisturbed(slot: Slot, o: Observation, w: World) {
    && o.reported == Passed && o.harborRetries == 0 && o.harnessRetries == 0
    && (forall id :: id in o.artifacts <==> id in slot.requiredArtifacts)
    && forall id :: id in o.artifacts ==> w.digests(o.artifacts[id]).Some?
  }

  lemma NotFailing(d: Definition, slot: Slot, o: Observation, w: World, f: Failure)
    requires !RecordFails(d, slot, o, w, f)
    ensures !IdentityFails(w, d, f) && !ReportFails(o, f)
    ensures var ids := Ids(slot.requiredArtifacts);
      !ArtifactFails(Statuses(w, o, ids), |o.artifacts.Keys - ids|, f)
  {
    hide IdentityFails, ReportFails, ArtifactFails, Statuses, Ids;
  }

  lemma NoIdentityFails(d: Definition, w: World)
    requires forall f :: !IdentityFails(w, d, f)
    ensures AsDefined(d, w)
  {
    assert !RepositoryFails(w.repository, d.revision, RepositoryObservationUnavailable) by {
      assert !IdentityFails(w, d, RepositoryObservationUnavailable);
    }
    assert !RepositoryFails(w.repository, d.revision, RepositoryRevisionMismatch) by {
      assert !IdentityFails(w, d, RepositoryRevisionMismatch);
    }
    assert !RepositoryFails(w.repository, d.revision, RepositoryWorktreeDirty) by {
      assert !IdentityFails(w, d, RepositoryWorktreeDirty);
    }
    assert !Drifted(w, d.declaration) by { assert !IdentityFails(w, d, DeclarationMismatch); }
    assert ManifestMatches(w, d) by { assert !IdentityFails(w, d, TaskManifestMismatch); }
    assert !IdentityFails(w, d, TaskManifestContractMismatch) && !IdentityFails(w, d, TaskPackageMismatch);
    assert !AnyDrift(w, d.schedule) by { assert !IdentityFails(w, d, ConfigurationMismatch); }
    forall k | 0 <= k < |d.schedule| ensures !Drifted(w, d.schedule[k].configuration) {
    }
  }

  lemma NoArtifactFails(slot: Slot, o: Observation, w: World)
    requires var ids := Ids(slot.requiredArtifacts);
      forall f :: !ArtifactFails(Statuses(w, o, ids), |o.artifacts.Keys - ids|, f)
    ensures forall id :: id in o.artifacts <==> id in slot.requiredArtifacts
    ensures forall id :: id in o.artifacts ==> w.digests(o.artifacts[id]).Some?
  {
    var ids := Ids(slot.requiredArtifacts);
    var statuses, extra := Statuses(w, o, ids), o.artifacts.Keys - ids;
    assert !SomeStatus(statuses, Missing) by { assert !ArtifactFails(statuses, |extra|, RequiredArtifactMissing); }
    assert !SomeStatus(statuses, Unreadable) by { assert !ArtifactFails(statuses, |extra|, ArtifactUnreadable); }
    assert extra == {} by { assert !ArtifactFails(statuses, |extra|, UnexpectedArtifact); }
    hide ArtifactFails;
    forall id | id in ids ensures id in o.artifacts && w.digests(o.artifacts[id]).Some? {
      assert id in statuses && statuses[id] == StatusOf(w, o, id);
    }
    forall id | id in o.artifacts ensures id in ids {
      assert id !in extra;
    }
  }

  lemma NoneFails(d: Definition, slot: Slot, o: Observation, w: World)
    requires forall f :: !RecordFails(d, slot, o, w, f)
    ensures AsDefined(d, w) && Undisturbed(slot, o, w)
  {
    var ids := Ids(slot.requiredArtifacts);
    hide AsDefined, RecordFails, IdentityFails, ArtifactFails, ReportFails, Statuses, Ids;
    forall f
      ensures !IdentityFails(w, d, f) && !ReportFails(o, f)
      ensures !ArtifactFails(Statuses(w, o, ids), |o.artifacts.Keys - ids|, f)
    {
      NotFailing(d, slot, o, w, f);
    }
    NoIdentityFails(d, w);
    NoArtifactFails(slot, o, w);
    NoReportFails(o);
  }

  lemma NoReportFails(o: Observation)
    requires forall f :: !ReportFails(o, f)
    ensures o.reported == Passed && o.harborRetries == 0 && o.harnessRetries == 0
  {
    assert !ReportFails(o, ReportedIntegrityFailed) && !ReportFails(o, RetryCountNonzero);
  }

  lemma CleanHasNone(d: Definition, slot: Slot, o: Observation, w: World, f: Failure)
    requires AsDefined(d, w) && Undisturbed(slot, o, w)
    ensures !RecordFails(d, slot, o, w, f)
  {
    var ids := Ids(slot.requiredArtifacts);
    var statuses := Statuses(w, o, ids);
    assert o.artifacts.Keys - ids == {};
    forall id | id in statuses ensures statuses[id] == Hashed {
      assert id in o.artifacts;
    }
  }

  /** The recorded audit passes if and only if everything stood as defined and the attempt was undisturbed. */
  lemma RecordedPassesIff(d: Definition, slot: Slot, receipt: Receipt, receiptDigest: Digest, o: Observation, w: World)
    ensures AuditFor(d, slot, receipt, receiptDigest, o, w).integrity == Passed <==> AsDefined(d, w) && Undisturbed(slot, o, w)
  {
    var failures := RecordedFailures(d, slot, o, w);
    hide RecordFails, AsDefined, Undisturbed, Listed, Statuses, Digests;
    if failures == {} {
      forall f ensures !RecordFails(d, slot, o, w, f) {
        assert f !in failures;
      }
      NoneFails(d, slot, o, w);
    } else if AsDefined(d, w) && Undisturbed(slot, o, w) {
      forall f ensures f !in failures {
        CleanHasNone(d, slot, o, w, f);
      }
    }
  }

  /** An accepted audit's evidence shows nothing wrong. */
  ghost predicate CleanEvidence(slot: Slot, receipt: Receipt, a: Audit) {
    && a.observation.reported == Passed && a.observation.harborRetries == 0 && a.observation.harnessRetries == 0
    && a.observed.repository == Repository(Some(receipt.revision), Clean)
    && a.observed.declaration == Some(receipt.declaration) && a.observed.manifest == Some(receipt.manifest)
    && a.observed.configuration == Some(receipt.configuration) && a.observed.package == PackagePassed
    && a.unexpectedArtifacts == 0
    && forall id :: id in slot.requiredArtifacts ==> id in a.artifactStatuses && a.artifactStatuses[id] == Hashed
  }

  lemma CleanDerivesNone(a: Audit, slot: Slot, receipt: Receipt, f: Failure)
    requires CleanEvidence(slot, receipt, a) && EvidenceHolds(a, slot, receipt)
    ensures !EvidenceFails(a, f)
  {
    hide DerivedFailures, Unique, WellFormatted;
  }

  /** An accepted audit passes if and only if its evidence is clean. */
  lemma AcceptedPassesIff(d: Definition, slot: Slot, receipt: Receipt, receiptDigest: Digest, a: Audit)
    requires AcceptedAudit(d, slot, receipt, receiptDigest, a).Some?
    ensures a.integrity == Passed <==> CleanEvidence(slot, receipt, a)
    ensures AcceptedAudit(d, slot, receipt, receiptDigest, a).value.integrity == a.integrity
  {
    if a.integrity == Passed {
      PassedMeansClean(d, slot, receipt, receiptDigest, a);
      hide DerivedFailures, Unique, WellFormatted, Elements;
    } else if CleanEvidence(slot, receipt, a) {
      hide CleanEvidence, Unique, WellFormatted, EvidenceFails;
      forall f ensures f !in DerivedFailures(a) {
        CleanDerivesNone(a, slot, receipt, f);
      }
    }
  }

  /** An accepted audit belongs to this gate, slot, receipt and authorization, and is read as it stands. */
  lemma AcceptedIsOwn(d: Definition, slot: Slot, receipt: Receipt, receiptDigest: Digest, a: Audit)
    requires AcceptedAudit(d, slot, receipt, receiptDigest, a).Some?
    ensures a.gateId == d.gateId && a.definition == d.digest && a.receipt == receiptDigest
    ensures a.authorization == receipt.authorization
    ensures a.slotId == slot.slotId && a.order == slot.order && a.blockOrder == slot.blockOrder
    ensures a.taskId == slot.taskId && a.armId == slot.armId && a.selection == slot.selection
    ensures a.expected.revision == receipt.revision && a.expected.declaration == receipt.declaration
    ensures a.expected.manifest == receipt.manifest && a.expected.configuration == receipt.configuration
    ensures a.expected.taskChecksum == receipt.taskChecksum && a.expected.sourceImage == receipt.sourceImage
    ensures a.observation.reward.Some? ==> 0.0 <= a.observation.reward.value <= 1.0
    ensures var read := AcceptedAudit(d, slot, receipt, receiptDigest, a).value;
      && read.slotId == a.slotId && read.outcome == a.observation.outcome && read.reward == a.observation.reward
      && read.usability == a.observation.usability && read.submittedTokens == a.observation.submittedTokens
  {
    hide Unique, WellFormatted, ArtifactsConsistent, DerivedFailures, Elements, StatusFor;
  }
}
