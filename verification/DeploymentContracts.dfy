/** The documents core and the root installer exchange (app/app_deployment_contracts.py),
    for one application in one environment. Identifiers are fresh numbers, digests
    are numbers, and `Fingerprint` is injective because it is a constructor. */
module DeploymentContracts {
  import opened Wrappers

  /** The refusals the source raises as ContractError, PolicyRefused or ReconciliationPending. */
  datatype Refusal =
    | LegacyDefinitionRequired | ManagedDefinitionRequired | PreviewNotSelected | PreviewRequired
    | ReleaseNotEligible | HistoryRefusesCutover | CredentialRequired | AdministratorChanged
    | IdentityChange | OperationPending | NotInstalled | InstallationPending | NotManaged
    | ApplicationRetired | ApprovalChanged | PolicyRefused | RehearsalChanged | ExceedsHostPolicy
    | HistoryDiffers | OperationChanged | RecordConflicts | ReconciliationPending | NotAdmitted
    | CredentialRevoked | InstalledRegistrationChanged | AuthorizationIncomplete | ReceiptMismatch
    | RehearsalIncomplete | RetirementIncomplete | SnapshotIncomplete | CutoverRefused
    | LegacyFingerprintMismatch | ManagedFingerprintMismatch | NoBlockedOperation | NothingToRetire
    | OperationNotActive | ReleaseChanged | RecoveryTargetChanged | RequestIdUsed | RetireTargetChanged
    | RollbackTargetChanged | ReprovisioningRequired | ReleaseRejected | RuntimeLacksRetire
    | InstalledReleaseNotRejectable | SourceAlreadyNamed | SettingsChangeReplaced | UniqueConstraint
    | ComputeActive

  datatype Result<+T> = Ok(value: T) | Err(error: Refusal) {
    predicate IsFailure() { Err? }
    function PropagateFailure<U>(): Result<U>
      requires Err?
    {
      Err(error)
    }
    function Extract(): T
      requires Ok?
    {
      value
    }
  }

  function Require(condition: bool, error: Refusal): Result<()> {
    if condition then Ok(()) else Err(error)
  }

  type Id = nat
  type Digest = nat

  datatype Source = Published(repository: nat, imageRepository: nat) | LegacySource

  datatype Installation = ManagedInstalled(port: nat) | LegacyInstalled | NoInstallation

  datatype Registration = Registration(
    route: nat, source: Source, access: nat, capabilities: nat, presentation: nat,
    stateDirectory: Option<nat>, settings: map<nat, nat>, otherBindings: nat,
    installation: Installation)

  datatype Fingerprint = Sha256(of: Registration)

  /** A release archive pins its image by digest, so the reference and the image id
      Docker resolves it to are both determined by the archive. */
  datatype Image = Pinned(archive: Digest)
  datatype ImageId = Loaded(image: Image)

  datatype Kind = Rehearse | Deploy | Rollback | Recover | Retire

  datatype Selection = Selection(
    manifest: Digest, archive: Digest, registration: Fingerprint, policy: Digest,
    credential: Id, generation: nat, preview: Id)

  datatype Operation = Operation(
    id: Id, requestId: Id, kind: Kind, selection: Selection, administrator: Id,
    session: nat, rehearsal: Option<Id>, recovers: Option<Id>)

  /** "Only a recovery names the blocked operation." */
  predicate ValidOperation(o: Operation) {
    o.recovers.Some? <==> o.kind.Recover?
  }

  datatype Rehearsal = Rehearsal(selection: Selection, previousImage: Option<ImageId>, passed: bool)

  datatype Snapshot =
    | Installed(operationId: Id, generation: nat, selection: Selection,
                registration: Registration, image: Image, imageId: ImageId)
    | Retired(operationId: Id, generation: nat, selection: Selection,
              registration: Registration, lastInstalled: Snapshot, archive: Option<Digest>)

  /** "A retirement follows the generation it retires." */
  predicate ValidSnapshot(s: Snapshot) {
    && 1 <= s.generation
    && (s.Retired? ==> s.lastInstalled.Installed? && s.lastInstalled.generation == s.generation - 1)
  }

  /** The running installation behind an accepted generation, if it runs. */
  function RunningOf(accepted: Option<Snapshot>): Option<Snapshot> {
    if accepted.Some? && accepted.value.Installed? then accepted else None
  }

  function GenerationOf(accepted: Option<Snapshot>): nat {
    if accepted.Some? then accepted.value.generation else 0
  }

  datatype Outcome = Succeeded | Failed | Recovered | Blocked

  datatype Receipt = Receipt(
    operationId: Id, selection: Selection, outcome: Outcome, rehearsal: Option<Rehearsal>,
    installed: Option<Snapshot>, retired: Option<Snapshot>, authorizationCommitted: bool)

  /** A receipt that reports no new rehearsal and no new generation. */
  function PlainReceipt(o: Operation, outcome: Outcome): Receipt {
    Receipt(o.id, o.selection, outcome, None, None, None, false)
  }

  /** What a succeeded receipt makes the current installation, if anything. */
  function AcceptedBy(r: Receipt): Option<Snapshot> {
    if r.outcome != Succeeded then None
    else if r.installed.Some? then r.installed
    else r.retired
  }
}
