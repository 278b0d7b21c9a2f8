// Terminal audits of the validation gate: what is recorded, and what its reader accepts.
module GateAudit {
  import opened Optional

  type Digest = string

  predicate IsHex(s: string) {
    forall i :: 0 <= i < |s| ==> '0' <= s[i] <= '9' || 'a' <= s[i] <= 'f'
  }

  /** A SHA-256 digest, in lower-case hexadecimal digits. */
  predicate IsDigest(s: string) {
    |s| == 64 && IsHex(s)
  }

  /** A full Git revision. */
  predicate IsRevision(s: string) {
    |s| == 40 && IsHex(s)
  }

  datatype Outcome = Completed | AgentException | LoopLimit | Timeout | InfrastructureFailure

  datatype Usability = Usable | Unusable | NotAssessed

  datatype Integrity = Passed | Failed

  datatype ArtifactStatus = Hashed | Missing | Unreadable

  datatype RepositoryState = Clean | Dirty | Unavailable

  datatype Failure =
    | ArtifactUnreadable
    | ConfigurationMismatch
    | DeclarationMismatch
    | ReportedIntegrityFailed
    | RepositoryObservationUnavailable
    | RepositoryRevisionMismatch
    | RepositoryWorktreeDirty
    | RequiredArtifactMissing
    | RetryCountNonzero
    | TaskManifestContractMismatch
    | TaskManifestMismatch
    | TaskPackageMismatch
    | UnexpectedArtifact

  /** All failures, in the order of their names. */
  const FAILURES: seq<Failure> := [
    ArtifactUnreadable, ConfigurationMismatch, DeclarationMismatch, ReportedIntegrityFailed,
    RepositoryObservationUnavailable, RepositoryRevisionMismatch, RepositoryWorktreeDirty, RequiredArtifactMissing,
    RetryCountNonzero, TaskManifestContractMismatch, TaskManifestMismatch, TaskPackageMismatch, UnexpectedArtifact
  ]

  // ----- the gate's definition and the state of the files around it

  datatype FileIdentity = FileIdentity(path: string, digest: Digest)

  datatype Slot = Slot(order: nat, blockOrder: nat, slotId: string, taskId: string, armId: string, selection: Digest,
                       taskChecksum: Digest, sourceImage: string, configuration: FileIdentity, requiredArtifacts: seq<string>)

  datatype Definition = Definition(digest: Digest, gateId: string, revision: string, declaration: FileIdentity,
                                   manifest: FileIdentity, tokenLimit: nat, schedule: seq<Slot>)

  datatype Repository = Repository(revision: Option<string>, state: RepositoryState)

  /** How the manifest and its task package check out, once the manifest's digest matches. */
  datatype PackageCheck = PackageMatches | PackageDiffers | ContractBroken

  /** One state of the repository and the files: digests of what can be read. */
  datatype World = World(repository: Repository, digests: string -> Option<Digest>, manifestDigest: Option<Digest>,
                         package: PackageCheck)

  /** What was hashed is a digest, and what Git names is a revision. */
  ghost predicate Hashes(w: World) {
    && (forall path :: w.digests(path).Some? ==> IsDigest(w.digests(path).value))
    && (w.manifestDigest.Some? ==> IsDigest(w.manifestDigest.value))
    && (w.repository.revision.Some? ==> IsRevision(w.repository.revision.value))
  }

  datatype Observation = Observation(outcome: Outcome, reward: Option<real>, usability: Usability, reported: Integrity,
                                     submittedTokens: Option<nat>, providerSuccesses: Option<nat>,
                                     harborRetries: nat, harnessRetries: nat, artifacts: map<string, string>)

  /** A slot's receipt, with the authorization it was consumed under. */
  datatype Receipt = Receipt(authorization: Digest, revision: string, declaration: Digest, manifest: Digest, slotId: string,
                             configuration: Digest, taskChecksum: Digest, sourceImage: string)

  /** The receipt the gate writes for a slot; its reader accepts no other, whatever the authorization. */
  function ReceiptFor(d: Definition, slot: Slot, authorization: Digest): Receipt {
    Receipt(authorization, d.revision, d.declaration.digest, d.manifest.digest, slot.slotId, slot.configuration.digest,
            slot.taskChecksum, slot.sourceImage)
  }

  datatype PackageStatus = PackagePassed | PackageFailed | PackageUnknown

  datatype ObservedIdentity = ObservedIdentity(repository: Repository, declaration: Option<Digest>, manifest: Option<Digest>,
                                               configuration: Option<Digest>, package: PackageStatus)

  datatype ExpectedIdentity = ExpectedIdentity(revision: string, declaration: Digest, manifest: Digest, configuration: Digest,
                                               taskChecksum: Digest, sourceImage: string)

  datatype Audit = Audit(gateId: string, definition: Digest, receipt: Digest, authorization: Digest, slotId: string,
                         order: nat, blockOrder: nat, taskId: string, armId: string, selection: Digest,
                         observation: Observation, integrity: Integrity, failures: seq<Failure>, expected: ExpectedIdentity,
                         observed: ObservedIdentity, artifactDigests: map<string, Option<Digest>>,
                         artifactStatuses: map<string, ArtifactStatus>, unexpectedArtifacts: nat)

  datatype CompletedSlot = CompletedSlot(slotId: string, outcome: Outcome, reward: Option<real>, usability: Usability,
                                         integrity: Integrity, submittedTokens: Option<nat>)

  function FailuresOf(fails: Failure -> bool): (r: set<Failure>)
    ensures forall f :: f in r <==> fails(f)
  {
    set f: Failure | fails(f)
  }

  // ----- recording

  predicate Drifted(w: World, file: FileIdentity) {
    w.digests(file.path) != Some(file.digest)
  }

  predicate AnyDrift(w: World, schedule: seq<Slot>) {
    exists k :: 0 <= k < |schedule| && Drifted(w, schedule[k].configuration)
  }

  predicate ManifestMatches(w: World, d: Definition) {
    w.manifestDigest == Some(d.manifest.digest)
  }

  function PackageStatusOf(w: World, d: Definition): PackageStatus {
    if !ManifestMatches(w, d) then PackageUnknown
    else match w.package
      case PackageMatches => PackagePassed
      case PackageDiffers => PackageFailed
      case ContractBroken => PackageUnknown
  }

  predicate RepositoryFails(r: Repository, revision: string, f: Failure) {
    match f
    case RepositoryObservationUnavailable => r.state == Unavailable
    case RepositoryRevisionMismatch => r.state != Unavailable && r.revision != Some(revision)
    case RepositoryWorktreeDirty => r.state == Dirty
    case _ => false
  }

  predicate IdentityFails(w: World, d: Definition, f: Failure) {
    match f
    case DeclarationMismatch => Drifted(w, d.declaration)
    case TaskManifestMismatch => !ManifestMatches(w, d)
    case TaskManifestContractMismatch => ManifestMatches(w, d) && w.package == ContractBroken
    case TaskPackageMismatch => ManifestMatches(w, d) && w.package == PackageDiffers
    case ConfigurationMismatch => AnyDrift(w, d.schedule)
    case _ => RepositoryFails(w.repository, d.revision, f)
  }

  method RepositoryReport(r: Repository, revision: string) returns (failures: set<Failure>)
    ensures forall f :: f in failures <==> RepositoryFails(r, revision, f)
  {
    failures := {};
    if r.state == Unavailable {
      failures := failures + {RepositoryObservationUnavailable};
    } else {
      if r.revision != Some(revision) {
        failures := failures + {RepositoryRevisionMismatch};
      }
      if r.state == Dirty {
        failures := failures + {RepositoryWorktreeDirty};
      }
    }
  }

  method ManifestReport(w: World, d: Definition) returns (failures: set<Failure>, package: PackageStatus)
    ensures forall f :: f in failures <==> f in {TaskManifestMismatch, TaskManifestContractMismatch, TaskPackageMismatch} && IdentityFails(w, d, f)
    ensures package == PackageStatusOf(w, d)
  {
    failures := {};
    if w.manifestDigest != Some(d.manifest.digest) {
      failures := failures + {TaskManifestMismatch};
      package := PackageUnknown;
    } else if w.package == PackageDiffers {
      failures := failures + {TaskPackageMismatch};
      package := PackageFailed;
    } else if w.package == ContractBroken {
      failures := failures + {TaskManifestContractMismatch};
      package := PackageUnknown;
    } else {
      package := PackagePassed;
    }
  }

  method ConfigurationReport(w: World, schedule: seq<Slot>) returns (drift: bool)
    ensures drift == AnyDrift(w, schedule)
  {
    drift := false;
    for i := 0 to |schedule|
      invariant drift == exists k :: 0 <= k < i && Drifted(w, schedule[k].configuration)
    {
      if w.digests(schedule[i].configuration.path) != Some(schedule[i].configuration.digest) {
        drift := true;
      }
    }
  }

  /** `_identity_report` */
  method IdentityReport(w: World, d: Definition, slot: Slot) returns (failures: set<Failure>, observed: ObservedIdentity)
    ensures forall f :: f in failures <==> IdentityFails(w, d, f)
    ensures observed == ObservedIdentity(w.repository, w.digests(d.declaration.path), w.manifestDigest,
                                         w.digests(slot.configuration.path), PackageStatusOf(w, d))
  {
    var repository := RepositoryReport(w.repository, d.revision);
    failures := repository;
    if w.digests(d.declaration.path) != Some(d.declaration.digest) {
      failures := failures + {DeclarationMismatch};
    }
    var manifest, package := ManifestReport(w, d);
    failures := failures + manifest;
    var drift := ConfigurationReport(w, d.schedule);
    if drift {
      failures := failures + {ConfigurationMismatch};
    }
    observed := ObservedIdentity(w.repository, w.digests(d.declaration.path), w.manifestDigest,
                                 w.digests(slot.configuration.path), package);
  }

  function ArtifactDigest(w: World, o: Observation, id: string): Option<Digest> {
    if id in o.artifacts then w.digests(o.artifacts[id]) else None
  }

  function StatusOf(w: World, o: Observation, id: string): ArtifactStatus {
    if id !in o.artifacts then Missing else if w.digests(o.artifacts[id]).None? then Unreadable else Hashed
  }

  function Ids(required: seq<string>): set<string> {
    set id | id in required
  }

  predicate SomeStatus(statuses: map<string, ArtifactStatus>, status: ArtifactStatus) {
    exists id :: id in statuses && statuses[id] == status
  }

  predicate ArtifactFails(statuses: map<string, ArtifactStatus>, unexpected: nat, f: Failure) {
    match f
    case UnexpectedArtifact => unexpected > 0
    case RequiredArtifactMissing => SomeStatus(statuses, Missing)
    case ArtifactUnreadable => SomeStatus(statuses, Unreadable)
    case _ => false
  }

  function Statuses(w: World, o: Observation, ids: set<string>): map<string, ArtifactStatus> {
    map id | id in ids :: StatusOf(w, o, id)
  }

  function Digests(w: World, o: Observation, ids: set<string>): map<string, Option<Digest>> {
    map id | id in ids :: ArtifactDigest(w, o, id)
  }

  /** `_artifact_report` */
  method ArtifactReport(w: World, slot: Slot, o: Observation)
    returns (failures: set<Failure>, digests: map<string, Option<Digest>>, statuses: map<string, ArtifactStatus>, unexpected: nat)
    ensures unexpected == |o.artifacts.Keys - Ids(slot.requiredArtifacts)|
    ensures digests == Digests(w, o, Ids(slot.requiredArtifacts))
    ensures statuses == Statuses(w, o, Ids(slot.requiredArtifacts))
    ensures forall f :: f in failures <==> ArtifactFails(statuses, unexpected, f)
  {
    hide *;
    var required := slot.requiredArtifacts;
    unexpected := |o.artifacts.Keys - Ids(required)|;
    failures := if unexpected > 0 then {UnexpectedArtifact} else {};
    digests, statuses := map[], map[];
    NothingReported(w, o, required, unexpected, failures);
    for i := 0 to |required|
      invariant Reported(w, o, required[..i], digests, statuses)
      invariant forall f :: f in failures <==> ArtifactFails(statuses, unexpected, f)
    {
      var id := required[i];
      OneMoreReported(w, o, required, i, digests, statuses, unexpected, failures);
      var digest := ArtifactDigest(w, o, id);
      var status := StatusOf(w, o, id);
      failures := failures + ArtifactFailure(status);
      digests, statuses := digests[id := digest], statuses[id := status];
    }
    assert required[..|required|] == required;
    AllReported(w, o, required, digests, statuses);
  }

  function ArtifactFailure(status: ArtifactStatus): (r: set<Failure>)
    ensures RequiredArtifactMissing in r <==> status == Missing
    ensures ArtifactUnreadable in r <==> status == Unreadable
    ensures forall f :: f in r ==> f == RequiredArtifactMissing || f == ArtifactUnreadable
  {
    match status
    case Missing => {RequiredArtifactMissing}
    case Unreadable => {ArtifactUnreadable}
    case Hashed => {}
  }

  ghost predicate Reported(w: World, o: Observation, ids: seq<string>, digests: map<string, Option<Digest>>,
                           statuses: map<string, ArtifactStatus>) {
    && (forall id :: id in digests <==> id in ids) && (forall id :: id in statuses <==> id in ids)
    && (forall id :: id in digests ==> digests[id] == ArtifactDigest(w, o, id))
    && (forall id :: id in statuses ==> statuses[id] == StatusOf(w, o, id))
  }

  lemma NothingReported(w: World, o: Observation, required: seq<string>, unexpected: nat, failures: set<Failure>)
    requires failures == if unexpected > 0 then {UnexpectedArtifact} else {}
    ensures Reported(w, o, required[..0], map[], map[])
    ensures forall f :: f in failures <==> ArtifactFails(map[], unexpected, f)
  {
    assert required[..0] == [];
    assert !SomeStatus(map[], Missing) && !SomeStatus(map[], Unreadable);
    hide SomeStatus;
  }

  lemma OneMoreReported(w: World, o: Observation, required: seq<string>, i: nat, digests: map<string, Option<Digest>>,
                        statuses: map<string, ArtifactStatus>, unexpected: nat, failures: set<Failure>)
    requires i < |required| && Reported(w, o, required[..i], digests, statuses)
    requires forall f :: f in failures <==> ArtifactFails(statuses, unexpected, f)
    ensures var id := required[i];
      Reported(w, o, required[..i + 1], digests[id := ArtifactDigest(w, o, id)], statuses[id := StatusOf(w, o, id)])
    ensures var id, status := required[i], StatusOf(w, o, required[i]);
      forall f :: f in failures + ArtifactFailure(status) <==> ArtifactFails(statuses[id := status], unexpected, f)
  {
    var id, status := required[i], StatusOf(w, o, required[i]);
    var more := statuses[id := status];
    assert required[..i + 1] == required[..i] + [id];
    forall s ensures SomeStatus(more, s) <==> SomeStatus(statuses, s) || s == status {
      assert id in more && more[id] == status;
      if SomeStatus(statuses, s) {
        var k :| k in statuses && statuses[k] == s;
        assert k in more && more[k] == s;
      }
    }
    hide SomeStatus;
  }

  lemma AllReported(w: World, o: Observation, required: seq<string>, digests: map<string, Option<Digest>>,
                    statuses: map<string, ArtifactStatus>)
    requires Reported(w, o, required, digests, statuses)
    ensures digests == Digests(w, o, Ids(required)) && statuses == Statuses(w, o, Ids(required))
  {
  }

  predicate ReportFails(o: Observation, f: Failure) {
    match f
    case ReportedIntegrityFailed => o.reported == Failed
    case RetryCountNonzero => o.harborRetries > 0 || o.harnessRetries > 0
    case _ => false
  }

  function Listed(failures: set<Failure>, from: seq<Failure>): (r: seq<Failure>)
    ensures forall f :: f in r <==> f in from && f in failures
  {
    if from == [] then [] else (if from[0] in failures then [from[0]] else []) + Listed(failures, from[1..])
  }

  function Elements(failures: seq<Failure>): (r: set<Failure>)
    ensures forall f :: f in r <==> f in failures
  {
    set f | f in failures
  }

  function StatusFor(failures: set<Failure>): Integrity {
    if failures == {} then Passed else Failed
  }

  predicate RecordFails(d: Definition, slot: Slot, o: Observation, w: World, f: Failure) {
    var ids := Ids(slot.requiredArtifacts);
    IdentityFails(w, d, f) || ArtifactFails(Statuses(w, o, ids), |o.artifacts.Keys - ids|, f) || ReportFails(o, f)
  }

  function RecordedFailures(d: Definition, slot: Slot, o: Observation, w: World): (r: set<Failure>)
    ensures forall f :: f in r <==> RecordFails(d, slot, o, w, f)
  {
    FailuresOf(f => RecordFails(d, slot, o, w, f))
  }

  /** The audit of one terminal observation over one state of the files. */
  function AuditFor(d: Definition, slot: Slot, receipt: Receipt, receiptDigest: Digest, o: Observation, w: World): Audit {
    var ids := Ids(slot.requiredArtifacts);
    var statuses, unexpected := Statuses(w, o, ids), |o.artifacts.Keys - ids|;
    var failures := RecordedFailures(d, slot, o, w);
    Audit(d.gateId, d.digest, receiptDigest, receipt.authorization, slot.slotId, slot.order, slot.blockOrder, slot.taskId,
          slot.armId, slot.selection, o, StatusFor(failures), Listed(failures, FAILURES),
          ExpectedIdentity(receipt.revision, receipt.declaration, receipt.manifest, receipt.configuration,
                           receipt.taskChecksum, receipt.sourceImage),
          ObservedIdentity(w.repository, w.digests(d.declaration.path), w.manifestDigest,
                           w.digests(slot.configuration.path), PackageStatusOf(w, d)),
          Digests(w, o, ids), statuses, unexpected)
  }

  /** `record_terminal`, from the receipt to the audit it writes. */
  method RecordTerminal(d: Definition, slot: Slot, receipt: Receipt, receiptDigest: Digest, o: Observation, w: World)
    returns (audit: Audit)
    ensures audit == AuditFor(d, slot, receipt, receiptDigest, o, w)
  {
    var identityFailures, observed := IdentityReport(w, d, slot);
    var artifactFailures, digests, statuses, unexpected := ArtifactReport(w, slot, o);
    var failures := identityFailures + artifactFailures;
    if o.reported == Failed {
      failures := failures + {ReportedIntegrityFailed};
    }
    if o.harborRetries > 0 || o.harnessRetries > 0 {
      failures := failures + {RetryCountNonzero};
    }
    assert forall f :: f in failures <==> RecordFails(d, slot, o, w, f);
    assert failures == RecordedFailures(d, slot, o, w);
    hide RecordFails;
    audit := Audit(d.gateId, d.digest, receiptDigest, receipt.authorization, slot.slotId, slot.order, slot.blockOrder,
                   slot.taskId, slot.armId, slot.selection, o, if failures == {} then Passed else Failed,
                   Listed(failures, FAILURES),
                   ExpectedIdentity(receipt.revision, receipt.declaration, receipt.manifest, receipt.configuration,
                                    receipt.taskChecksum, receipt.sourceImage),
                   observed, digests, statuses, unexpected);
  }

  // ----- reading

  predicate Unique(failures: seq<Failure>) {
    forall i, j :: 0 <= i < j < |failures| ==> failures[i] != failures[j]
  }

  predicate EvidenceFails(a: Audit, f: Failure) {
    match f
    case DeclarationMismatch => a.observed.declaration != Some(a.expected.declaration)
    case TaskManifestMismatch => a.observed.manifest != Some(a.expected.manifest)
    case TaskManifestContractMismatch =>
      a.observed.manifest == Some(a.expected.manifest) && a.observed.package == PackageUnknown
    case TaskPackageMismatch => a.observed.manifest == Some(a.expected.manifest) && a.observed.package == PackageFailed
    case ConfigurationMismatch => a.observed.configuration != Some(a.expected.configuration)
    case _ =>
      || RepositoryFails(a.observed.repository, a.expected.revision, f)
      || ReportFails(a.observation, f)
      || ArtifactFails(a.artifactStatuses, a.unexpectedArtifacts, f)
  }

  /** The failures an audit's own evidence shows. */
  function DerivedFailures(a: Audit): (r: set<Failure>)
    ensures forall f :: f in r <==> EvidenceFails(a, f)
  {
    FailuresOf(f => EvidenceFails(a, f))
  }

  predicate ArtifactsConsistent(a: Audit, required: set<string>) {
    && a.artifactDigests.Keys == required && a.artifactStatuses.Keys == required
    && forall id :: id in required ==> (a.artifactStatuses[id] == Hashed <==> a.artifactDigests[id].Some?)
  }

  predicate IsOptional(s: Option<string>, format: string -> bool) {
    s.Some? ==> format(s.value)
  }

  /** The digests and the revision observed have their formats. */
  predicate WellFormatted(a: Audit) {
    && IsOptional(a.observed.repository.revision, IsRevision)
    && IsOptional(a.observed.declaration, IsDigest)
    && IsOptional(a.observed.manifest, IsDigest)
    && IsOptional(a.observed.configuration, IsDigest)
    && forall id :: id in a.artifactDigests ==> IsOptional(a.artifactDigests[id], IsDigest)
  }

  /** `_validate_terminal_audit_evidence`, as a condition. */
  predicate EvidenceHolds(a: Audit, slot: Slot, receipt: Receipt) {
    && Unique(a.failures) && WellFormatted(a)
    && a.expected == ExpectedIdentity(receipt.revision, receipt.declaration, receipt.manifest, receipt.configuration,
                                      receipt.taskChecksum, receipt.sourceImage)
    && ArtifactsConsistent(a, Ids(slot.requiredArtifacts))
    && (a.observed.manifest != Some(a.expected.manifest) ==> a.observed.package == PackageUnknown)
    && Elements(a.failures) == DerivedFailures(a)
    && a.integrity == StatusFor(DerivedFailures(a))
  }

  predicate RewardInRange(reward: Option<real>) {
    reward.Some? ==> 0.0 <= reward.value <= 1.0
  }

  /** What `_read_terminal_audit` makes of an audit file's content; nothing where it raises. */
  function AcceptedAudit(d: Definition, slot: Slot, receipt: Receipt, receiptDigest: Digest, a: Audit): Option<CompletedSlot> {
    if && a.gateId == d.gateId && a.definition == d.digest && a.receipt == receiptDigest
       && a.authorization == receipt.authorization && a.slotId == slot.slotId && a.order == slot.order
       && a.blockOrder == slot.blockOrder && a.taskId == slot.taskId && a.armId == slot.armId
       && a.selection == slot.selection && RewardInRange(a.observation.reward) && EvidenceHolds(a, slot, receipt)
    then Some(CompletedSlot(slot.slotId, a.observation.outcome, a.observation.reward, a.observation.usability,
                            a.integrity, a.observation.submittedTokens))
    else None
  }

  /** `_validate_terminal_audit_evidence` */
  method ValidateEvidence(a: Audit, slot: Slot, receipt: Receipt) returns (ok: bool)
    ensures ok == EvidenceHolds(a, slot, receipt)
  {
    if !Unique(a.failures) {
      return false;
    }
    if a.expected != ExpectedIdentity(receipt.revision, receipt.declaration, receipt.manifest, receipt.configuration,
                                      receipt.taskChecksum, receipt.sourceImage) {
      return false;
    }
    if !WellFormatted(a) || !ArtifactsConsistent(a, Ids(slot.requiredArtifacts)) {
      return false;
    }
    if a.observed.manifest != Some(a.expected.manifest) && a.observed.package != PackageUnknown {
      return false;
    }
    var derived := DeriveFailures(a);
    ok := Elements(a.failures) == derived && a.integrity == if derived == {} then Passed else Failed;
  }

  method DeriveFailures(a: Audit) returns (derived: set<Failure>)
    ensures derived == DerivedFailures(a)
  {
    hide RepositoryFails;
    var report := DeriveReport(a);
    var repository := RepositoryReport(a.observed.repository, a.expected.revision);
    var files := DeriveFiles(a);
    derived := report + repository + files;
    forall f ensures f in derived <==> EvidenceFails(a, f) {
      OutsideRepository(a.observed.repository, a.expected.revision);
      OutsideReport(a, f);
    }
  }

  lemma OutsideRepository(r: Repository, revision: string)
    ensures forall f :: RepositoryFails(r, revision, f) ==>
      f in {RepositoryObservationUnavailable, RepositoryRevisionMismatch, RepositoryWorktreeDirty}
  {
  }

  lemma OutsideReport(a: Audit, f: Failure)
    ensures ReportFails(a.observation, f) ==> f in {ReportedIntegrityFailed, RetryCountNonzero}
    ensures ArtifactFails(a.artifactStatuses, a.unexpectedArtifacts, f) ==>
      f in {UnexpectedArtifact, RequiredArtifactMissing, ArtifactUnreadable}
  {
  }

  method DeriveReport(a: Audit) returns (derived: set<Failure>)
    ensures forall f :: f in derived <==>
      ReportFails(a.observation, f) || ArtifactFails(a.artifactStatuses, a.unexpectedArtifacts, f)
  {
    derived := {};
    if a.observation.reported == Failed { derived := derived + {ReportedIntegrityFailed}; }
    if a.observation.harborRetries > 0 || a.observation.harnessRetries > 0 { derived := derived + {RetryCountNonzero}; }
    if SomeStatus(a.artifactStatuses, Missing) { derived := derived + {RequiredArtifactMissing}; }
    if SomeStatus(a.artifactStatuses, Unreadable) { derived := derived + {ArtifactUnreadable}; }
    if a.unexpectedArtifacts > 0 { derived := derived + {UnexpectedArtifact}; }
  }

  predicate OfFiles(f: Failure) {
    || f in {DeclarationMismatch, ConfigurationMismatch}
    || f in {TaskManifestMismatch, TaskManifestContractMismatch, TaskPackageMismatch}
  }

  method DeriveFiles(a: Audit) returns (derived: set<Failure>)
    ensures forall f :: f in derived <==> (OfFiles(f) && EvidenceFails(a, f))
  {
    derived := {};
    if a.observed.declaration != Some(a.expected.declaration) { derived := derived + {DeclarationMismatch}; }
    if a.observed.manifest != Some(a.expected.manifest) {
      derived := derived + {TaskManifestMismatch};
    } else if a.observed.package == PackageUnknown {
      derived := derived + {TaskManifestContractMismatch};
    } else if a.observed.package == PackageFailed {
      derived := derived + {TaskPackageMismatch};
    }
    if a.observed.configuration != Some(a.expected.configuration) { derived := derived + {ConfigurationMismatch}; }
  }

  // ----- writer and reader

  lemma {:induction false} ListedUnique(failures: set<Failure>, from: seq<Failure>)
    requires Unique(from)
    ensures Unique(Listed(failures, from))
  {
    if from != [] {
      ListedUnique(failures, from[1..]);
      var rest := Listed(failures, from[1..]);
      forall j | 0 <= j < |rest| ensures rest[j] != from[0] {
        assert rest[j] in rest;
      }
    }
  }

  lemma AllFailuresListed(f: Failure)
    ensures f in FAILURES && Unique(FAILURES)
  {
    assert FAILURES[0] == ArtifactUnreadable && FAILURES[1] == ConfigurationMismatch && FAILURES[2] == DeclarationMismatch;
    assert FAILURES[3] == ReportedIntegrityFailed && FAILURES[4] == RepositoryObservationUnavailable;
    assert FAILURES[5] == RepositoryRevisionMismatch && FAILURES[6] == RepositoryWorktreeDirty;
    assert FAILURES[7] == RequiredArtifactMissing && FAILURES[8] == RetryCountNonzero;
    assert FAILURES[9] == TaskManifestContractMismatch && FAILURES[10] == TaskManifestMismatch;
    assert FAILURES[11] == TaskPackageMismatch && FAILURES[12] == UnexpectedArtifact;
  }

  lemma ListedSet(failures: set<Failure>)
    ensures Elements(Listed(failures, FAILURES)) == failures
    ensures Unique(Listed(failures, FAILURES))
  {
    AllFailuresListed(ArtifactUnreadable);
    ListedUnique(failures, FAILURES);
    forall f ensures f in Listed(failures, FAILURES) <==> f in failures {
      AllFailuresListed(f);
    }
  }

  /** What a reader derives from a recorded audit is what was recorded, but for a drift of other
      slots' configurations. */
  lemma DerivedFromRecorded(d: Definition, slot: Slot, authorization: Digest, receiptDigest: Digest, o: Observation, w: World, f: Failure)
    ensures var a := AuditFor(d, slot, ReceiptFor(d, slot, authorization), receiptDigest, o, w);
      EvidenceFails(a, f) <==>
        if f == ConfigurationMismatch then Drifted(w, slot.configuration) else RecordFails(d, slot, o, w, f)
  {
    hide Statuses, Digests, Listed, SomeStatus;
  }

  /** A recorded audit is accepted exactly when a drift of any slot's configuration includes the audited
      slot's own: the writer checks every slot's file, the audit keeps evidence of one. When accepted,
      the reader derives exactly the recorded failures and status. */
  lemma RecordedAuditAccepted(d: Definition, slot: Slot, authorization: Digest, receiptDigest: Digest, o: Observation, w: World)
    requires slot in d.schedule && RewardInRange(o.reward) && Hashes(w)
    ensures var receipt := ReceiptFor(d, slot, authorization);
      var a := AuditFor(d, slot, receipt, receiptDigest, o, w);
      AcceptedAudit(d, slot, receipt, receiptDigest, a) ==
        if AnyDrift(w, d.schedule) && !Drifted(w, slot.configuration) then None
        else Some(CompletedSlot(slot.slotId, o.outcome, o.reward, o.usability, StatusFor(RecordedFailures(d, slot, o, w)),
                                o.submittedTokens))
  {
    var receipt := ReceiptFor(d, slot, authorization);
    var a := AuditFor(d, slot, receipt, receiptDigest, o, w);
    hide *;
    ListedSet(RecordedFailures(d, slot, o, w));
    RecordedFormats(d, slot, receipt, receiptDigest, o, w);
    RecordedShape(d, slot, authorization, receiptDigest, o, w);
    SameFailuresIff(d, slot, authorization, receiptDigest, o, w);
    AcceptedIff(d, slot, receipt, receiptDigest, a, RecordedFailures(d, slot, o, w));
  }

  lemma SameFailuresIff(d: Definition, slot: Slot, authorization: Digest, receiptDigest: Digest, o: Observation, w: World)
    requires slot in d.schedule
    ensures var a := AuditFor(d, slot, ReceiptFor(d, slot, authorization), receiptDigest, o, w);
      DerivedFailures(a) == RecordedFailures(d, slot, o, w) <==> !(AnyDrift(w, d.schedule) && !Drifted(w, slot.configuration))
  {
    var a := AuditFor(d, slot, ReceiptFor(d, slot, authorization), receiptDigest, o, w);
    hide *;
    forall f ensures f in DerivedFailures(a) <==>
      if f == ConfigurationMismatch then Drifted(w, slot.configuration) else f in RecordedFailures(d, slot, o, w)
    {
      DerivedFromRecorded(d, slot, authorization, receiptDigest, o, w, f);
    }
    OwnDrift(d, slot, o, w);
    assert ConfigurationMismatch in DerivedFailures(a) <==> Drifted(w, slot.configuration);
  }

  /** With everything else in place, acceptance turns on the failures. */
  lemma AcceptedIff(d: Definition, slot: Slot, receipt: Receipt, receiptDigest: Digest, a: Audit, recorded: set<Failure>)
    requires a.gateId == d.gateId && a.definition == d.digest && a.receipt == receiptDigest
    requires a.authorization == receipt.authorization && a.slotId == slot.slotId && a.order == slot.order
    requires a.blockOrder == slot.blockOrder && a.taskId == slot.taskId && a.armId == slot.armId && a.selection == slot.selection
    requires RewardInRange(a.observation.reward) && WellFormatted(a)
    requires a.expected == ExpectedIdentity(receipt.revision, receipt.declaration, receipt.manifest, receipt.configuration,
                                            receipt.taskChecksum, receipt.sourceImage)
    requires ArtifactsConsistent(a, Ids(slot.requiredArtifacts))
    requires a.observed.manifest != Some(a.expected.manifest) ==> a.observed.package == PackageUnknown
    requires Unique(a.failures) && Elements(a.failures) == recorded && a.integrity == StatusFor(recorded)
    ensures AcceptedAudit(d, slot, receipt, receiptDigest, a) ==
      if DerivedFailures(a) == recorded then
        Some(CompletedSlot(slot.slotId, a.observation.outcome, a.observation.reward, a.observation.usability,
                           StatusFor(recorded), a.observation.submittedTokens))
      else None
  {
    hide DerivedFailures, ArtifactsConsistent, Unique, RewardInRange, StatusFor, WellFormatted;
  }

  lemma OwnDrift(d: Definition, slot: Slot, o: Observation, w: World)
    requires slot in d.schedule
    ensures Drifted(w, slot.configuration) ==> AnyDrift(w, d.schedule)
    ensures ConfigurationMismatch in RecordedFailures(d, slot, o, w) <==> AnyDrift(w, d.schedule)
  {
    var k :| 0 <= k < |d.schedule| && d.schedule[k] == slot;
  }

  lemma RecordedFormats(d: Definition, slot: Slot, receipt: Receipt, receiptDigest: Digest, o: Observation, w: World)
    requires Hashes(w)
    ensures WellFormatted(AuditFor(d, slot, receipt, receiptDigest, o, w))
  {
    hide IsDigest, IsRevision, Listed, RecordedFailures, Statuses, StatusFor;
  }

  /** Everything but the failures matches what a reader expects. */
  lemma RecordedShape(d: Definition, slot: Slot, authorization: Digest, receiptDigest: Digest, o: Observation, w: World)
    ensures var receipt := ReceiptFor(d, slot, authorization);
      var a := AuditFor(d, slot, receipt, receiptDigest, o, w);
      && a.gateId == d.gateId && a.definition == d.digest && a.receipt == receiptDigest
      && a.authorization == receipt.authorization && a.slotId == slot.slotId && a.order == slot.order
      && a.blockOrder == slot.blockOrder && a.taskId == slot.taskId && a.armId == slot.armId && a.selection == slot.selection
      && a.observation == o
      && a.expected == ExpectedIdentity(receipt.revision, receipt.declaration, receipt.manifest, receipt.configuration,
                                        receipt.taskChecksum, receipt.sourceImage)
      && ArtifactsConsistent(a, Ids(slot.requiredArtifacts))
      && (a.observed.manifest != Some(a.expected.manifest) ==> a.observed.package == PackageUnknown)
      && a.failures == Listed(RecordedFailures(d, slot, o, w), FAILURES)
      && a.integrity == StatusFor(RecordedFailures(d, slot, o, w))
  {
    ArtifactsMatch(slot, o, w);
    hide Listed, RecordedFailures, Digests, Statuses, Ids, StatusFor;
  }

  lemma ArtifactsMatch(slot: Slot, o: Observation, w: World)
    ensures var ids := Ids(slot.requiredArtifacts);
      && Digests(w, o, ids).Keys == ids && Statuses(w, o, ids).Keys == ids
      && forall id :: id in ids ==> (Statuses(w, o, ids)[id] == Hashed <==> Digests(w, o, ids)[id].Some?)
  {
  }

  function Digits(n: nat, c: char): string {
    seq(n, _ => c)
  }

  function SampleSlot(order: nat, path: string): Slot {
    Slot(order, 1 + (order - 1) / 2, path, "task", "arm", "s", "t", "i", FileIdentity(path, Digits(64, 'c')), ["log"])
  }

  function SampleDefinition(): Definition {
    Definition(Digits(64, 'd'), "gate", Digits(40, 'a'), FileIdentity("declaration", Digits(64, 'c')),
               FileIdentity("manifest", Digits(64, 'b')), 1200000,
               [SampleSlot(1, "a"), SampleSlot(2, "b"), SampleSlot(3, "c"), SampleSlot(4, "d")])
  }

  /** Every file is as the definition has it, but the last slot's configuration is gone. */
  function SampleWorld(): World {
    World(Repository(Some(Digits(40, 'a')), Clean), path => if path == "d" then None else Some(Digits(64, 'c')),
          Some(Digits(64, 'b')), PackageMatches)
  }

  /** The failing case occurs: everything about the first slot is clean, but the file of the last
      slot's configuration is gone, so the first slot's audit is recorded and then refused. */
  lemma OtherSlotDriftRejects()
    ensures var d := SampleDefinition();
      var slot := d.schedule[0];
      var o := Observation(Completed, Some(1.0), Usable, Passed, Some(1), Some(1), 0, 0, map["log" := "log"]);
      var receipt := ReceiptFor(d, slot, Digits(64, 'e'));
      AcceptedAudit(d, slot, receipt, Digits(64, 'f'), AuditFor(d, slot, receipt, Digits(64, 'f'), o, SampleWorld())) == None
  {
    var d, w := SampleDefinition(), SampleWorld();
    var o := Observation(Completed, Some(1.0), Usable, Passed, Some(1), Some(1), 0, 0, map["log" := "log"]);
    assert d.schedule[0] in d.schedule;
    assert Drifted(w, d.schedule[3].configuration) && !Drifted(w, d.schedule[0].configuration);
    assert Hashes(w);
    RecordedAuditAccepted(d, d.schedule[0], Digits(64, 'e'), Digits(64, 'f'), o, w);
  }

  /** An accepted audit that passed integrity retains clean evidence throughout. */
  lemma PassedMeansClean(d: Definition, slot: Slot, receipt: Receipt, receiptDigest: Digest, a: Audit)
    requires AcceptedAudit(d, slot, receipt, receiptDigest, a).Some? && a.integrity == Passed
    ensures a.failures == [] && a.observation.reported == Passed
    ensures a.observation.harborRetries == 0 && a.observation.harnessRetries == 0
    ensures a.observed.repository == Repository(Some(receipt.revision), Clean)
    ensures a.observed.declaration == Some(receipt.declaration) && a.observed.manifest == Some(receipt.manifest)
    ensures a.observed.configuration == Some(receipt.configuration) && a.observed.package == PackagePassed
    ensures a.unexpectedArtifacts == 0
    ensures forall id :: id in slot.requiredArtifacts ==>
      id in a.artifactDigests && a.artifactDigests[id].Some?
  {
    NoFailures(a.failures);
    CleanFailures(a);
    forall id | id in slot.requiredArtifacts ensures id in a.artifactDigests && a.artifactDigests[id].Some? {
      assert id in Ids(slot.requiredArtifacts);
    }
  }

  lemma NoFailures(failures: seq<Failure>)
    ensures Elements(failures) == {} ==> failures == []
  {
    if failures != [] {
      assert failures[0] in failures;
      assert failures[0] in Elements(failures);
    }
  }

  lemma CleanFailures(a: Audit)
    requires DerivedFailures(a) == {}
    ensures a.observed.declaration == Some(a.expected.declaration) && a.observed.manifest == Some(a.expected.manifest)
    ensures a.observed.package == PackagePassed && a.observed.configuration == Some(a.expected.configuration)
    ensures !SomeStatus(a.artifactStatuses, Missing) && !SomeStatus(a.artifactStatuses, Unreadable)
    ensures a.unexpectedArtifacts == 0
    ensures a.observation.reported == Passed && a.observation.harborRetries == 0 && a.observation.harnessRetries == 0
    ensures a.observed.repository == Repository(Some(a.expected.revision), Clean)
  {
    assert !EvidenceFails(a, ReportedIntegrityFailed) && !EvidenceFails(a, RetryCountNonzero);
    assert !EvidenceFails(a, RepositoryObservationUnavailable) && !EvidenceFails(a, RepositoryRevisionMismatch);
    assert !EvidenceFails(a, RepositoryWorktreeDirty) && !EvidenceFails(a, DeclarationMismatch);
    assert !EvidenceFails(a, TaskManifestMismatch) && !EvidenceFails(a, TaskManifestContractMismatch);
    assert !EvidenceFails(a, TaskPackageMismatch) && !EvidenceFails(a, ConfigurationMismatch);
    assert !EvidenceFails(a, RequiredArtifactMissing) && !EvidenceFails(a, ArtifactUnreadable);
    assert !EvidenceFails(a, UnexpectedArtifact);
  }
}
