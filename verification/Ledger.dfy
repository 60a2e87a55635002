/** Core's deployment tables and the transactions over them (app/app_deployments.py),
    as functions on values. `AppsService` carries out the same transactions in place. */
module Ledger {
  import opened Wrappers
  import opened DeploymentContracts

  datatype State = Queued | Switching | Ended(outcome: Outcome)

  predicate Active(s: State) { s.Queued? || s.Switching? }

  datatype Row = Row(operation: Operation, state: State, receipt: Option<Receipt>)

  datatype Proposal = Proposal(baseGeneration: nat, registration: Registration, rejected: bool)

  /** `active`, `blocked` and `requests` are the table's unique indexes
      app_operation_active, app_operation_blocked and request_id. */
  datatype Core = Core(
    registration: Registration,
    operations: map<Id, Row>,
    active: Option<Id>,
    blocked: Option<Id>,
    requests: map<Id, Id>,
    history: seq<Snapshot>,
    proposals: seq<Proposal>,
    rejections: set<Digest>)

  /** What a transaction reads from tables and checks outside this model. `archive` is
      the verified release's archive, None when `eligible` refuses it. */
  datatype Facts = Facts(
    policy: Digest, credential: Option<Id>, archive: Option<Digest>,
    previewReady: bool, administratorCurrent: bool)

  // ---------------------------------------------------------------- reads

  /** The accepted generation `offset` rows before the latest. */
  function Accepted(history: seq<Snapshot>, offset: nat): Option<Snapshot> {
    if offset < |history| then Some(history[|history| - 1 - offset]) else None
  }

  function Latest(history: seq<Snapshot>): Option<Snapshot> {
    Accepted(history, 0)
  }

  /** The running installation, or with `offset` 1 its rollback target. */
  function InstalledAt(history: seq<Snapshot>, offset: nat): Option<Snapshot> {
    if RunningOf(Latest(history)).None? then None else RunningOf(Accepted(history, offset))
  }

  function Current(history: seq<Snapshot>): Option<Snapshot> {
    InstalledAt(history, 0)
  }

  predicate IsRetired(history: seq<Snapshot>) {
    |history| > 0 && history[|history| - 1].Retired?
  }

  predicate Managed(r: Registration) { r.installation.ManagedInstalled? && r.source.Published? }

  predicate Legacy(r: Registration) { r.installation.LegacyInstalled? && r.source.LegacySource? }

  function RegistrationFor(c: Core): Result<Registration> {
    if Managed(c.registration) then Ok(c.registration) else Err(NotManaged)
  }

  function RequireIdle(c: Core, recovering: bool): Result<()> {
    Require(c.active.None? && (recovering || c.blocked.None?), OperationPending)
  }

  /** The newest proposal made against generation `base`. */
  function NewestProposal(proposals: seq<Proposal>, base: nat): Option<nat>
    ensures NewestProposal(proposals, base).Some? ==>
      NewestProposal(proposals, base).value < |proposals|
    decreases |proposals|
  {
    if proposals == [] then None
    else
      var last := |proposals| - 1;
      if proposals[last].baseGeneration == base then Some(last)
      else NewestProposal(proposals[..last], base)
  }

  /** The unapproved registration change for the running installation, with its row. */
  function PendingChange(c: Core): Option<(nat, Registration)> {
    var current := Current(c.history);
    if current.None? then None
    else
      var newest := NewestProposal(c.proposals, current.value.generation);
      if newest.None? || c.proposals[newest.value].rejected then None
      else
        var proposed := c.proposals[newest.value].registration.(route := current.value.registration.route);
        if proposed == current.value.registration then None else Some((newest.value, proposed))
  }

  function ProposedRegistration(c: Core): Result<Registration> {
    var registration :- RegistrationFor(c);
    var change := PendingChange(c);
    Ok(if change.Some? then change.value.1 else registration)
  }

  function BlockedOperation(c: Core): Option<Operation> {
    if c.blocked.Some? && c.blocked.value in c.operations
    then Some(c.operations[c.blocked.value].operation) else None
  }

  /** The registration an operation of `kind` binds. A recovery binds the accepted one. */
  function ApprovedRegistration(c: Core, kind: Kind): Result<Registration> {
    var registration :- RegistrationFor(c);
    match kind
    case Recover =>
      if BlockedOperation(c).None? then Err(RecoveryTargetChanged) else Ok(registration)
    case Rollback =>
      var target := InstalledAt(c.history, 1);
      if target.None? then Err(RollbackTargetChanged) else Ok(target.value.registration)
    case Retire =>
      var target := Current(c.history);
      if target.None? then Err(NothingToRetire) else Ok(target.value.registration)
    case _ => ProposedRegistration(c)
  }

  /** The registration that admits the release an operation of `kind` selects. */
  function ReleaseRegistration(c: Core, kind: Kind): Result<Registration> {
    if kind.Recover? then
      var blocked := BlockedOperation(c);
      if blocked.None? then Err(RecoveryTargetChanged)
      else ApprovedRegistration(c, blocked.value.kind)
    else ApprovedRegistration(c, kind)
  }

  function SelectionFor(c: Core, manifest: Digest, preview: Id, kind: Kind, f: Facts): Result<Selection> {
    var registration :- ApprovedRegistration(c, kind);
    var _ :- ReleaseRegistration(c, kind);
    var _ :- Require(f.archive.Some?, ReleaseNotEligible);
    var _ :- Require(f.credential.Some?, CredentialRequired);
    var _ :- if !kind.Retire? then Ok(())
             else
               var current := Current(c.history);
               if current.None? then Err(NothingToRetire)
               else Require(manifest == current.value.selection.manifest &&
                            preview == current.value.selection.preview, RetireTargetChanged);
    var _ :- Require(!(kind.Rehearse? || kind.Deploy?) || manifest !in c.rejections,
                     ReleaseRejected);
    var _ :- Require(!(kind.Rehearse? || kind.Deploy?) || f.previewReady,
                     PreviewRequired);
    Ok(Selection(manifest, f.archive.value, Sha256(registration), f.policy, f.credential.value,
                 GenerationOf(Latest(c.history)), preview))
  }

  /** The settings change a selection carries, as the card names it. */
  function ShownChange(c: Core, s: Selection): Option<Fingerprint> {
    if s.generation == 0 || |c.history| < s.generation then None
    else if Sha256(c.history[s.generation - 1].registration) == s.registration then None
    else Some(s.registration)
  }

  datatype Authority = Authority(operation: Operation, registration: Registration, previous: Option<Snapshot>)

  predicate PassedRehearsal(row: Row, s: Selection) {
    && row.operation.kind.Rehearse? && row.state == Ended(Succeeded)
    && row.receipt.Some? && row.receipt.value.selection == s
  }

  predicate RehearsedAs(operations: map<Id, Row>, o: Operation) {
    && o.rehearsal.Some?
    && o.rehearsal.value in operations
    && PassedRehearsal(operations[o.rehearsal.value], o.selection)
  }

  /** Core's authority for an active operation, read afresh. */
  function ReadAuthority(c: Core, id: Id, f: Facts): Result<Authority> {
    var _ :- Require(id in c.operations && Active(c.operations[id].state), OperationNotActive);
    var operation := c.operations[id].operation;
    var selected := operation.selection;
    var _ :- Require(f.administratorCurrent, AdministratorChanged);
    var reread :- SelectionFor(c, selected.manifest, selected.preview, operation.kind, f);
    var _ :- Require(reread == selected, ApprovalChanged);
    var _ :- Require(operation.kind.Recover? ==> c.blocked == operation.recovers,
                     RecoveryTargetChanged);
    var _ :- Require(operation.kind.Deploy? ==> RehearsedAs(c.operations, operation),
                     RehearsalChanged);
    var target := InstalledAt(c.history, 1);
    var _ :- Require(operation.kind.Rollback? ==>
                       target.Some? && target.value.selection.manifest == selected.manifest,
                     RollbackTargetChanged);
    var registration :- ApprovedRegistration(c, operation.kind);
    Ok(Authority(operation, registration, Latest(c.history)))
  }

  /** The boot authority: only a settled, running installation has one. */
  function ReadInstalledAuthority(c: Core, f: Facts): Result<Snapshot> {
    var _ :- Require(c.blocked.None? &&
                     !(c.active.Some? && c.active.value in c.operations &&
                       c.operations[c.active.value].state.Switching?),
                     ReconciliationPending);
    var current := Current(c.history);
    var _ :- Require(current.Some?, if IsRetired(c.history) then ApplicationRetired
                                    else NotInstalled);
    var registration :- RegistrationFor(c);
    var _ :- Require(registration == current.value.registration, InstalledRegistrationChanged);
    var _ :- Require(current.value.operationId in c.operations &&
                     c.operations[current.value.operationId].state == Ended(Succeeded) &&
                     f.credential.Some?, CredentialRevoked);
    var _ :- Require(f.archive.Some?, ReleaseNotEligible);
    Ok(current.value)
  }

  /** Why the gateway holds requests for this application, or None to admit them. */
  function AdmissionRefusal(c: Core, requireInstalled: bool): Option<Refusal> {
    if exists id | id in c.operations ::
         !c.operations[id].operation.kind.Rehearse? &&
         (c.operations[id].state == Switching || c.operations[id].state == Ended(Blocked))
    then Some(InstallationPending)
    else if IsRetired(c.history) then Some(ApplicationRetired)
    else if requireInstalled && Current(c.history).None? then Some(NotInstalled)
    else None
  }

  // ---------------------------------------------------------------- writes

  /** One UPDATE of a row's state, with the two partial unique indexes it maintains. */
  function SetState(c: Core, id: Id, state: State, receipt: Option<Receipt>): Core
    requires id in c.operations
  {
    c.(operations := c.operations[id := c.operations[id].(state := state, receipt := receipt)],
       active := if Active(state) then Some(id) else if c.active == Some(id) then None else c.active,
       blocked := if state == Ended(Blocked) then Some(id) else if c.blocked == Some(id) then None else c.blocked)
  }

  datatype Request = Request(
    kind: Kind, manifest: Digest, preview: Option<Id>, administrator: Id, session: nat,
    requestId: Id, rehearsal: Option<Id>, shown: Option<Fingerprint>,
    retireAdvertised: bool, computeActive: bool)

  /** A retry of `r` must repeat everything the first request approved. */
  predicate SameRequest(c: Core, o: Operation, r: Request, f: Facts) {
    && o.kind == r.kind
    && o.selection.manifest == r.manifest
    && o.administrator == r.administrator
    && o.session == r.session
    && (!r.kind.Recover? ==> r.preview == Some(o.selection.preview))
    && o.rehearsal == r.rehearsal
    && o.selection.policy == f.policy
    && (r.kind.Rehearse? || r.kind.Deploy? ==> ShownChange(c, o.selection) == r.shown)
  }

  function Insert(c: Core, o: Operation): Core {
    c.(operations := c.operations[o.id := Row(o, Queued, None)],
       active := Some(o.id), requests := c.requests[o.requestId := o.id])
  }

  /** The operation a new request approves. */
  function NewOperation(c: Core, r: Request, newId: Id, f: Facts): Result<Operation> {
    var blocked := BlockedOperation(c);
    var _ :- Require(r.kind.Recover? ==> blocked.Some? && blocked.value.selection.manifest == r.manifest,
                     NoBlockedOperation);
    var preview := if r.kind.Recover? then Some(blocked.value.selection.preview) else r.preview;
    var _ :- Require(preview.Some?, PreviewNotSelected);
    var _ :- Require(r.kind.Retire? ==> !r.computeActive, ComputeActive);
    var selected :- SelectionFor(c, r.manifest, preview.value, r.kind, f);
    var _ :- Require(r.kind.Rehearse? || r.kind.Deploy? ==> ShownChange(c, selected) == r.shown,
                     SettingsChangeReplaced);
    Ok(Operation(newId, r.requestId, r.kind, selected, r.administrator, r.session, r.rehearsal,
                 if r.kind.Recover? then Some(blocked.value.id) else None))
  }

  /** `AppsService.request`: record an approved operation under `newId`, idempotently. */
  function RequestOperation(c: Core, r: Request, newId: Id, f: Facts): Result<(Core, Operation)> {
    var _ :- Require(r.kind.Retire? ==> r.retireAdvertised,
                     RuntimeLacksRetire);
    if r.requestId in c.requests && c.requests[r.requestId] in c.operations then
      var prior := c.operations[c.requests[r.requestId]].operation;
      var _ :- Require(SameRequest(c, prior, r, f), RequestIdUsed);
      var _ :- Require(f.administratorCurrent, AdministratorChanged);
      Ok((c, prior))
    else
      var operation :- NewOperation(c, r, newId, f);
      var _ :- RequireIdle(c, r.kind.Recover?);
      var _ :- Require(newId !in c.operations && r.requestId !in c.requests, UniqueConstraint);
      var inserted := Insert(c, operation);
      var _ :- ReadAuthority(inserted, newId, f);
      Ok((inserted, operation))
  }

  /** The switch marker root published moves a queued operation to switching. */
  function Acknowledge(c: Core, id: Id): Core {
    if id in c.operations && c.operations[id].state.Queued? && !c.operations[id].operation.kind.Rehearse?
    then SetState(c, id, Switching, c.operations[id].receipt) else c
  }

  function SnapshotOf(o: Operation, r: Receipt): Result<Snapshot> {
    if && r.installed.Some? && r.installed.value.Installed?
       && r.installed.value.operationId == (if o.recovers.Some? then o.recovers.value else o.id)
       && r.installed.value.selection == r.selection
       && r.installed.value.generation == r.selection.generation + 1
       && Sha256(r.installed.value.registration) == r.selection.registration
       && r.rehearsal.None?
    then Ok(r.installed.value) else Err(SnapshotIncomplete)
  }

  /** Root's retirement, accepted only if it retires the row core holds current. */
  function RetiredOf(c: Core, o: Operation, r: Receipt): Result<Snapshot> {
    if && r.retired.Some? && r.retired.value.Retired?
       && r.rehearsal.None?
       && r.retired.value.operationId == o.id
       && r.retired.value.selection == r.selection
       && r.retired.value.generation == r.selection.generation + 1
       && Current(c.history) == Some(r.retired.value.lastInstalled)
       && Sha256(r.retired.value.registration) == r.selection.registration
    then Ok(r.retired.value) else Err(RetirementIncomplete)
  }

  /** What a succeeded receipt appends to the installed history, if anything. */
  function AcceptedRow(c: Core, o: Operation, r: Receipt): Result<Option<Snapshot>> {
    if o.kind.Rehearse? || (o.kind.Recover? && r.installed.None?) then Ok(None)
    else if o.kind.Retire? then
      var row :- RetiredOf(c, o, r);
      Ok(Some(row))
    else
      var row :- SnapshotOf(o, r);
      Ok(Some(row))
  }

  /** app_installed_history's primary key and its unique generation. */
  predicate InsertAllowed(history: seq<Snapshot>, s: Snapshot) {
    forall i | 0 <= i < |history| ::
      history[i].operationId != s.operationId && history[i].generation != s.generation
  }

  /** The registration row is the boot authority, so it follows an accepted install. */
  function AppendAccepted(c: Core, s: Snapshot): Core {
    c.(history := c.history + [s],
       registration := if s.Installed? then s.registration else c.registration)
  }

  /** The blocked operation's fate once a recovery succeeded. */
  function ResolvedOutcome(history: seq<Snapshot>, r: Receipt): Outcome {
    if r.installed.Some? then Succeeded else if Current(history).Some? then Recovered else Failed
  }

  /** The checks `reconcile_operation` makes on a succeeded receipt in an earlier read
      transaction, before it installs the release's files. */
  function ReceiptChecked(c: Core, o: Operation, r: Receipt, f: Facts): Result<()> {
    if r.outcome != Succeeded then Ok(())
    else
      var _ :- Require(o.kind.Rehearse? || r.authorizationCommitted, AuthorizationIncomplete);
      var _ :- if r.installed.Some? then Ok(r.installed.value.registration) else ReleaseRegistration(c, o.kind);
      var _ :- Require(f.archive.Some?, ReleaseNotEligible);
      var row :- AcceptedRow(c, o, r);
      if o.kind.Rehearse? then Require(RehearsalPassed(r) && r.installed.None?, RehearsalIncomplete)
      else Require(row.Some? && row.value.Installed? ==> row.value.image == Pinned(f.archive.value),
                   SnapshotIncomplete)
  }

  predicate RehearsalPassed(r: Receipt) {
    r.rehearsal.Some? && r.rehearsal.value.selection == r.selection && r.rehearsal.value.passed
  }

  /** The receipt core records: a rehearsal whose authority lapsed is recorded as failed. */
  function EffectiveReceipt(c: Core, o: Operation, r: Receipt, f: Facts): Receipt {
    if r.outcome == Succeeded && o.kind.Rehearse? && ReadAuthority(c, o.id, f).Err?
    then PlainReceipt(o, Failed) else r
  }

  /** Append what a succeeded receipt accepted, if anything. */
  function Appended(c: Core, o: Operation, r: Receipt): Result<Core> {
    if r.outcome != Succeeded then Ok(c)
    else
      var row :- AcceptedRow(c, o, r);
      if row.None? then Ok(c)
      else
        var _ :- Require(InsertAllowed(c.history, row.value), UniqueConstraint);
        Ok(AppendAccepted(c, row.value))
  }

  /** A succeeded recovery settles the blocked operation it names. */
  function ResolveBlocked(c: Core, o: Operation, r: Receipt): Result<Core> {
    if !o.kind.Recover? then Ok(c)
    else
      var _ :- Require(c.blocked.Some? && c.blocked == o.recovers && c.blocked.value in c.operations,
                       RecoveryTargetChanged);
      if r.outcome != Succeeded then Ok(c)
      else
        var b := c.blocked.value;
        Ok(SetState(c, b, Ended(ResolvedOutcome(c.history, r)), c.operations[b].receipt))
  }

  /** `reconcile_operation`'s transaction: consume root's receipt for an active operation.
      Every check failing leaves the tables as they were, as the rollback does. */
  function Consume(c: Core, id: Id, r: Receipt, f: Facts): Result<Core> {
    if id !in c.operations || !Active(c.operations[id].state) then Ok(c)
    else
      var operation := c.operations[id].operation;
      var _ :- Require(r.operationId == id && r.selection == operation.selection,
                       ReceiptMismatch);
      var _ :- Require(r.outcome == Succeeded && !operation.kind.Rehearse? ==>
                         c.operations[id].state.Switching?, NotAdmitted);
      var effective := EffectiveReceipt(c, operation, r, f);
      var appended :- Appended(c, operation, effective);
      var resolved :- ResolveBlocked(appended, operation, effective);
      var _ :- Require(effective.outcome == Succeeded && operation.kind.Rehearse? ==> RehearsalPassed(effective),
                       RehearsalIncomplete);
      var _ :- Require(effective.outcome == Blocked ==> resolved.blocked.None?, UniqueConstraint);
      Ok(SetState(resolved, id, Ended(effective.outcome), Some(effective)))
  }

  /** `reconcile_operation` for an operation whose receipt root published: its reading
      transaction saw `early` and read `earlyFacts`, its writing one meets `c` and `f`. */
  function ReconcileFrom(early: Core, earlyFacts: Facts, c: Core, id: Id, r: Receipt, f: Facts): Result<Core> {
    if id !in c.operations then Ok(c)
    else
      var o := c.operations[id].operation;
      var _ :- Require(r.operationId == id && r.selection == o.selection, ReceiptMismatch);
      if r.outcome == Succeeded && !(id in early.operations && Active(early.operations[id].state)) then Ok(c)
      else
        var _ :- ReceiptChecked(early, o, r, earlyFacts);
        Consume(c, id, r, f)
  }

  /** The same with nothing in between the two. */
  function Reconcile(c: Core, id: Id, r: Receipt, f: Facts): Result<Core> { ReconcileFrom(c, f, c, id, r, f) }

  // ---------------------------------------------------------------- registrations

  datatype Change = Updated | Suggested | Withdrawn | Unchanged

  predicate SameIdentity(a: Registration, b: Registration) {
    && a.route == b.route && a.source == b.source && a.access == b.access
    && a.capabilities == b.capabilities && a.installation == b.installation
    && a.stateDirectory == b.stateDirectory
  }

  function Propose(c: Core, r: Registration): Core
    requires |c.history| > 0
  {
    c.(proposals := c.proposals + [Proposal(c.history[|c.history| - 1].generation, r, false)])
  }

  /** `update_registration`: replace an uninstalled registration, or propose a change. */
  function UpdateRegistration(c: Core, proposed: Registration, eligible: bool): Result<(Core, Change)> {
    var existing :- RegistrationFor(c);
    var _ :- Require(proposed.route == existing.route && proposed.installation == existing.installation,
                     ReprovisioningRequired);
    var _ :- Require(!IsRetired(c.history), ApplicationRetired);
    var merged := proposed.(settings := existing.settings + proposed.settings);
    var current := Current(c.history);
    if current.None? then Ok((c.(registration := merged), Updated))
    else
      var _ :- Require(SameIdentity(merged, current.value.registration),
                       IdentityChange);
      var _ :- RequireIdle(c, false);
      var _ :- Require(eligible, ReleaseNotEligible);
      var change := PendingChange(c);
      if merged == (if change.Some? then change.value.1 else current.value.registration)
      then Ok((c, Unchanged))
      else Ok((Propose(c, merged), if merged != current.value.registration then Suggested else Withdrawn))
  }

  /** `propose_source_rename`: propose the installed source under its new repository name. */
  function ProposeSourceRename(c: Core, manifest: Digest, repository: nat, imageRepository: nat)
    : Result<(Core, Change)>
  {
    var _ :- RegistrationFor(c);
    var _ :- Require(!IsRetired(c.history), ApplicationRetired);
    var current := Current(c.history);
    var _ :- Require(current.Some?, NotInstalled);
    var _ :- Require(current.value.selection.manifest == manifest, ReleaseChanged);
    var _ :- RequireIdle(c, false);
    var _ :- Require(current.value.registration.source.Published? &&
                     current.value.registration.source.repository != repository,
                     SourceAlreadyNamed);
    var change := PendingChange(c);
    var base := if change.Some? then change.value.1 else current.value.registration;
    var renamed := base.(source := Published(repository, imageRepository));
    if renamed == base then Ok((c, Unchanged)) else Ok((Propose(c, renamed), Suggested))
  }

  function RequireUnaccepted(c: Core): Result<()> {
    var _ :- RequireIdle(c, false);
    Require(c.history == [], HistoryRefusesCutover)
  }

  predicate CutoverPair(legacySide: Registration, managedSide: Registration) {
    && Legacy(legacySide) && Managed(managedSide)
    && legacySide.route == managedSide.route && legacySide.access == managedSide.access
    && (legacySide.stateDirectory.None? || legacySide.stateDirectory == managedSide.stateDirectory)
  }

  function ProvisionLegacy(c: Core, proposed: Registration, expected: Fingerprint): Result<(Core, Change)> {
    var _ :- Require(Managed(proposed), ManagedDefinitionRequired);
    var _ :- RequireUnaccepted(c);
    if c.registration == proposed then Ok((c, Unchanged))
    else
      var _ :- Require(CutoverPair(c.registration, proposed), CutoverRefused);
      var _ :- Require(Sha256(c.registration) == expected, LegacyFingerprintMismatch);
      Ok((c.(registration := proposed), Updated))
  }

  function RestoreUnacceptedLegacy(
      c: Core, legacy: Registration, expectedLegacy: Fingerprint, expectedManaged: Fingerprint)
    : Result<(Core, Change)>
  {
    var _ :- Require(Legacy(legacy), LegacyDefinitionRequired);
    var _ :- Require(Sha256(legacy) == expectedLegacy, LegacyFingerprintMismatch);
    var _ :- RequireUnaccepted(c);
    if c.registration == legacy then Ok((c, Unchanged))
    else
      var _ :- Require(CutoverPair(legacy, c.registration), CutoverRefused);
      var _ :- Require(Sha256(c.registration) == expectedManaged, ManagedFingerprintMismatch);
      Ok((c.(registration := legacy), Updated))
  }

  /** `AppsService.reject`: reject the offered release, its settings change, or both. */
  function Reject(c: Core, manifest: Digest, shown: Option<Fingerprint>, f: Facts): Result<Core> {
    var _ :- Require(f.administratorCurrent, AdministratorChanged);
    var _ :- ProposedRegistration(c);
    var _ :- Require(f.archive.Some?, ReleaseNotEligible);
    var _ :- RequireIdle(c, false);
    var current := Current(c.history);
    var change := PendingChange(c);
    var _ :- Require((if change.Some? then Some(Sha256(change.value.1)) else None) == shown,
                     SettingsChangeReplaced);
    var noted := if change.None? then c
                 else
                   assert change.value.0 < |c.proposals|;
                   c.(proposals := c.proposals[change.value.0 := c.proposals[change.value.0].(rejected := true)]);
    if current.Some? && current.value.selection.manifest == manifest then
      var _ :- Require(change.Some?, InstalledReleaseNotRejectable);
      Ok(noted)
    else Ok(noted.(rejections := noted.rejections + {manifest}))
  }
}
