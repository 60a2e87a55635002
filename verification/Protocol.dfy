/** The deployment protocol as a state machine: core's transactions, every durable write
    and host effect of the root installer (ops/managed_installer.py), crashes, boots and
    what happens to the container from outside, one step each. */
module Protocol {
  import opened Wrappers
  import opened DeploymentContracts
  import opened Ledger

  datatype Container = Container(operation: Id, image: ImageId, running: bool)

  /** Files core and root exchange. Receipts and markers are root's, requests core's. */
  datatype Spool = Spool(requests: set<Id>, receipts: map<Id, Receipt>, switches: set<Id>)

  /** Root's journal, its current-installation record, switch markers, and the container. */
  datatype Root = Root(
    journal: map<Id, Receipt>, current: Option<Snapshot>, markers: set<Id>, container: Option<Container>)

  /** How far `execute` got for the operation it runs. */
  datatype Phase =
    | Preparing
    | Announced
    | Admitted
    | Authorised
    | Marked(switched: bool)
    | Removed
    | Launched
    | Probed
    | Falling
    | Restoring
    | RestoreRemoved
    | RestoreLaunched
    | Restored
    | Adopted

  /** What the one root process holding the lock is doing; a crash forgets it. */
  datatype Run =
    | Idle
    | Executing(operation: Operation, registration: Registration, before: Option<Snapshot>,
                release: bool, phase: Phase)
    | Committing(receipt: Receipt, write: nat)
    | Booting(target: Snapshot, stage: nat)

  /** `touched` records the operations that changed the container; no step reads it. */
  datatype System = System(core: Core, spool: Spool, root: Root, run: Run, touched: set<Id>)

  /** What root reads from its policy. `agrees` stands for the policy, credential, instance
      and image checks that touch nothing modelled here. */
  datatype Host = Host(facts: Facts, registration: Registration, agrees: bool, release: bool)

  function ImageOf(s: Selection): ImageId { Loaded(Pinned(s.archive)) }

  predicate StartedBy(c: Container, image: ImageId, operation: Id) {
    c.image == image && c.operation == operation
  }

  predicate Runs(c: Container, s: Snapshot) {
    s.Installed? && StartedBy(c, s.imageId, s.operationId)
  }

  /** `Installer.authority`: core's authority checked against the host and root's journal. */
  function RootAuthority(s: System, o: Operation, h: Host): Result<Authority> {
    var authority :- ReadAuthority(s.core, o.id, h.facts);
    var _ :- Require(authority.operation == o, OperationChanged);
    var _ :- Require(authority.registration == h.registration,
                     PolicyRefused);
    var _ :- Require(h.agrees, ExceedsHostPolicy);
    var _ :- Require(authority.previous == s.root.current &&
                     o.selection.generation == GenerationOf(s.root.current),
                     HistoryDiffers);
    var _ :- Require(o.kind.Recover? || h.release, ReleaseChanged);
    Ok(authority)
  }

  // ---------------------------------------------------------------- core steps

  function WithCore(s: System, c: Result<Core>): System {
    if c.Ok? then s.(core := c.value) else s
  }

  function WithChange(s: System, c: Result<(Core, Change)>): System {
    if c.Ok? then s.(core := c.value.0) else s
  }

  function RequestStep(s: System, r: Request, newId: Id, f: Facts): System {
    var result := RequestOperation(s.core, r, newId, f);
    if result.Ok? then s.(core := result.value.0) else s
  }

  function AcknowledgeStep(s: System, id: Id): System {
    if id in s.spool.switches then s.(core := Acknowledge(s.core, id)) else s
  }

  /** Reconciling an operation without a receipt publishes its request, however late. */
  function PublishRequest(s: System, id: Id): System {
    if id in s.core.operations then s.(spool := s.spool.(requests := s.spool.requests + {id})) else s
  }

  /** The reconciler's earlier read transaction only refuses more, so this step covers every
      moment at which its writing transaction can run. */
  function ConsumeStep(s: System, id: Id, f: Facts): System {
    if id in s.spool.receipts then WithCore(s, Consume(s.core, id, s.spool.receipts[id], f)) else s
  }

  /** The reconciler that settled an operation removes its request. */
  function UnlinkRequest(s: System, id: Id): System {
    if id in s.core.operations && !Active(s.core.operations[id].state)
    then s.(spool := s.spool.(requests := s.spool.requests - {id})) else s
  }

  // ---------------------------------------------------------------- execute: up to the switch

  /** `execute` for a requested operation without a spool receipt. */
  function Begin(s: System, id: Id, h: Host): System {
    if !s.run.Idle? || id !in s.spool.requests || id in s.spool.receipts then s
    else if id in s.root.journal then s.(run := Committing(s.root.journal[id], 1))
    else if id !in s.core.operations || !Active(s.core.operations[id].state) then s
    else
      var o := s.core.operations[id].operation;
      var authority := RootAuthority(s, o, h);
      if authority.Ok?
      then s.(run := Executing(o, authority.value.registration, s.root.current, h.release, Preparing))
      else s.(run := Committing(PlainReceipt(o, if id in s.root.markers then Blocked else Failed), 0))
  }

  function At(s: System, phase: Phase): System
    requires s.run.Executing?
  {
    s.(run := s.run.(phase := phase))
  }

  function Rehearsed(s: System, previousImage: Option<ImageId>): System {
    if s.run.Executing? && s.run.phase.Preparing? && s.run.operation.kind.Rehearse? then
      var o := s.run.operation;
      s.(run := Committing(Receipt(o.id, o.selection, Succeeded,
                                   Some(Rehearsal(o.selection, previousImage, true)), None, None, false), 0))
    else s
  }

  /** `admitted` publishes the switch intent, then waits for core to acknowledge it. */
  function Announce(s: System): System {
    if s.run.Executing? && s.run.phase.Preparing? && !s.run.operation.kind.Rehearse?
    then At(s.(spool := s.spool.(switches := s.spool.switches + {s.run.operation.id})), Announced) else s
  }

  function Poll(s: System): System {
    if s.run.Executing? && s.run.phase.Announced? && s.run.operation.id in s.core.operations &&
       s.core.operations[s.run.operation.id].state.Switching?
    then At(s, Admitted) else s
  }

  function Recheck(s: System, h: Host): System {
    if s.run.Executing? && s.run.phase.Admitted? &&
       (s.run.operation.kind.Deploy? || s.run.operation.kind.Rollback?) &&
       RootAuthority(s, s.run.operation, h).Ok?
    then At(s, Authorised) else s
  }

  /** The container is neither this operation's nor the running generation's. */
  predicate Contradicts(s: System)
    requires s.run.Executing?
  {
    var o := s.run.operation;
    && s.root.container.Some?
    && !(!o.kind.Retire? && StartedBy(s.root.container.value, ImageOf(o.selection), o.id))
    && !(RunningOf(s.run.before).Some? && Runs(s.root.container.value, s.run.before.value))
  }

  predicate AtInspection(s: System) {
    && s.run.Executing?
    && (if s.run.operation.kind.Retire? then s.run.phase.Admitted? && RunningOf(s.run.before).Some?
        else s.run.phase.Authorised?)
  }

  /** A recognised container: publish the journal marker, the last write before the switch. */
  function Mark(s: System): System {
    if AtInspection(s) && !Contradicts(s) then
      var o := s.run.operation;
      var switched := !o.kind.Retire? && s.root.container.Some? &&
                      StartedBy(s.root.container.value, ImageOf(o.selection), o.id);
      At(s.(root := s.root.(markers := s.root.markers + {o.id})), Marked(switched))
    else s
  }

  function Contradict(s: System): System {
    if AtInspection(s) && Contradicts(s)
    then s.(run := Committing(PlainReceipt(s.run.operation, Blocked), 0)) else s
  }

  // ---------------------------------------------------------------- execute: host effects

  function SetContainer(s: System, container: Option<Container>, phase: Phase): System
    requires s.run.Executing?
  {
    At(s.(root := s.root.(container := container), touched := s.touched + {s.run.operation.id}), phase)
  }

  function Remove(s: System): System {
    if s.run.Executing? && s.run.phase == Marked(false) then SetContainer(s, None, Removed) else s
  }

  function Launch(s: System, running: bool): System {
    if s.run.Executing? && s.run.phase.Removed? && !s.run.operation.kind.Retire?
    then SetContainer(s, Some(Container(s.run.operation.id, ImageOf(s.run.operation.selection), running)), Launched)
    else s
  }

  /** A retried switch whose container stopped starts it again. */
  function Restart(s: System): System {
    if s.run.Executing? && s.run.phase == Marked(true) && s.root.container.Some?
    then SetContainer(s, Some(s.root.container.value.(running := true)), Launched) else s
  }

  predicate ProbePasses(s: System, image: ImageId) {
    s.root.container.Some? && s.root.container.value.running && s.root.container.value.image == image
  }

  function Probe(s: System): System {
    if s.run.Executing? && s.run.phase.Launched? && ProbePasses(s, ImageOf(s.run.operation.selection))
    then At(s, Probed) else s
  }

  function DeployReceipt(o: Operation, registration: Registration, before: Option<Snapshot>): Receipt {
    Receipt(o.id, o.selection, Succeeded, None,
            Some(Installed(o.id, GenerationOf(before) + 1, o.selection, registration,
                           Pinned(o.selection.archive), ImageOf(o.selection))),
            None, true)
  }

  function FinishDeploy(s: System, h: Host): System {
    if s.run.Executing? && s.run.phase.Probed? && RootAuthority(s, s.run.operation, h).Ok?
    then s.(run := Committing(DeployReceipt(s.run.operation, s.run.registration, s.run.before), 0)) else s
  }

  function RetireReceipt(o: Operation, registration: Registration, last: Snapshot, archive: Option<Digest>): Receipt {
    Receipt(o.id, o.selection, Succeeded, None, None,
            Some(Retired(o.id, o.selection.generation + 1, o.selection, registration, last, archive)), true)
  }

  function FinishRetire(s: System, archive: Option<Digest>, h: Host): System {
    if s.run.Executing? && s.run.phase.Removed? && s.run.operation.kind.Retire? &&
       s.run.before.Some? && RootAuthority(s, s.run.operation, h).Ok?
    then s.(run := Committing(RetireReceipt(s.run.operation, s.run.registration, s.run.before.value, archive), 0))
    else s
  }

  /** Any other exception before the outcome is known. */
  function Raise(s: System): System {
    if !s.run.Executing? then s
    else
      var o := s.run.operation;
      if o.kind.Recover? then s.(run := Committing(PlainReceipt(o, Failed), 0))
      else if FallingBack(s.run.phase) then s.(run := Committing(PlainReceipt(o, Blocked), 0))
      else if o.id !in s.root.markers then s.(run := Committing(PlainReceipt(o, Failed), 0))
      else if s.run.before.None? then s.(run := Committing(PlainReceipt(o, Blocked), 0))
      else At(s, Falling)
  }

  predicate FallingBack(p: Phase) {
    p.Falling? || p.Restoring? || p.RestoreRemoved? || p.RestoreLaunched? || p.Restored?
  }

  // ---------------------------------------------------------------- falling back and recovering

  function FallAuthorize(s: System, h: Host): System {
    if s.run.Executing? && s.run.phase.Falling? && RunningOf(s.run.before).Some? &&
       RootAuthority(s, s.run.operation, h).Ok?
    then At(s, Restoring) else s
  }

  function FallTearDown(s: System): System {
    if s.run.Executing? && s.run.phase.Falling? && RunningOf(s.run.before).None?
    then SetContainer(s, None, Restored) else s
  }

  function RestoreRemove(s: System): System {
    if s.run.Executing? && s.run.phase.Restoring? then SetContainer(s, None, RestoreRemoved) else s
  }

  function RestoreLaunch(s: System, running: bool): System {
    if s.run.Executing? && s.run.phase.RestoreRemoved? && RunningOf(s.root.current).Some?
    then SetContainer(s, Some(Container(s.root.current.value.operationId, s.root.current.value.imageId, running)),
                      RestoreLaunched)
    else s
  }

  function RestoreProbe(s: System): System {
    if s.run.Executing? && s.run.phase.RestoreLaunched? && RunningOf(s.root.current).Some? &&
       ProbePasses(s, s.root.current.value.imageId)
    then At(s, Restored) else s
  }

  function FinishFall(s: System): System {
    if s.run.Executing? && s.run.phase.Restored? && !s.run.operation.kind.Recover?
    then s.(run := Committing(PlainReceipt(s.run.operation, Recovered), 0)) else s
  }

  predicate AtRecovery(s: System) {
    && s.run.Executing? && s.run.phase.Admitted? && s.run.operation.recovers.Some?
    && s.run.operation.recovers.value in s.root.journal
    && s.root.journal[s.run.operation.recovers.value].outcome.Blocked?
    && s.root.journal[s.run.operation.recovers.value].operationId == s.run.operation.recovers.value
  }

  /** The blocked release runs, and it was approved exactly as this recovery is. */
  predicate Adoptable(s: System)
    requires AtRecovery(s)
  {
    var o := s.run.operation;
    && s.root.container.Some? && s.root.container.value.running && s.run.release
    && s.root.container.value.operation == o.recovers.value
    && s.root.journal[o.recovers.value].selection == o.selection
    && s.root.container.value.image == ImageOf(o.selection)
  }

  function RecoverAdopt(s: System): System {
    if AtRecovery(s) && Adoptable(s) then At(s, Adopted) else s
  }

  function RecoverKeep(s: System): System {
    if AtRecovery(s) && !Adoptable(s) && RunningOf(s.root.current).Some? &&
       s.root.container.Some? && s.root.container.value.running &&
       Runs(s.root.container.value, s.root.current.value)
    then At(s, Restored) else s
  }

  function RecoverRestore(s: System): System {
    if AtRecovery(s) && !Adoptable(s) && RunningOf(s.root.current).Some? then At(s, Restoring) else s
  }

  function RecoverTearDown(s: System): System {
    if AtRecovery(s) && !Adoptable(s) && RunningOf(s.root.current).None?
    then SetContainer(s, None, Restored) else s
  }

  function RecoverReceipt(o: Operation, installed: Option<Snapshot>): Receipt {
    Receipt(o.id, o.selection, Succeeded, None, installed, None, true)
  }

  function FinishRecover(s: System, h: Host): System {
    if s.run.Executing? && s.run.operation.recovers.Some? &&
       (s.run.phase.Adopted? || s.run.phase.Restored?) && RootAuthority(s, s.run.operation, h).Ok?
    then
      var o := s.run.operation;
      var installed :=
        if s.run.phase.Restored? then None
        else Some(Installed(o.recovers.value, GenerationOf(s.run.before) + 1, o.selection,
                            s.run.registration, Pinned(o.selection.archive), ImageOf(o.selection)));
      s.(run := Committing(RecoverReceipt(o, installed), 0))
    else s
  }

  // ---------------------------------------------------------------- commit

  /** `publish`: write once, accept an identical rewrite, refuse any other. */
  function Publish(records: map<Id, Receipt>, id: Id, payload: Receipt): Result<map<Id, Receipt>> {
    if id !in records then Ok(records[id := payload])
    else if records[id] == payload then Ok(records)
    else Err(RecordConflicts)
  }

  function CommitJournal(r: Root, receipt: Receipt): Root {
    if receipt.operationId in r.journal then r
    else r.(journal := r.journal[receipt.operationId := receipt])
  }

  function CommitCurrent(r: Root, receipt: Receipt): Root {
    var accepted := AcceptedBy(receipt);
    if accepted.Some? && accepted.value.generation == GenerationOf(r.current) + 1
    then r.(current := accepted) else r
  }

  function CommitUnmark(r: Root, id: Id): Root {
    r.(markers := r.markers - {id})
  }

  /** One durable write of `commit`; a process may stop before any of them. */
  function CommitWrite(s: System): System {
    if !s.run.Committing? then s
    else
      var r := s.run.receipt;
      match s.run.write
      case 0 => s.(root := CommitJournal(s.root, r), run := Committing(r, 1))
      case 1 => s.(root := CommitCurrent(s.root, r), run := Committing(r, 2))
      case 2 =>
        var published := Publish(s.spool.receipts, r.operationId, r);
        if published.Ok? then s.(spool := s.spool.(receipts := published.value), run := Committing(r, 3))
        else s.(run := Idle)
      case _ => s.(root := CommitUnmark(s.root, r.operationId), run := Idle)
  }

  // ---------------------------------------------------------------- boot and the rest

  function BootBegin(s: System, h: Host): System {
    var authority := ReadInstalledAuthority(s.core, h.facts);
    if s.run.Idle? && authority.Ok? && s.root.current == Some(authority.value) && h.agrees &&
       authority.value.registration == h.registration &&
       (s.root.container.None? || Runs(s.root.container.value, authority.value))
    then s.(run := Booting(authority.value, 0)) else s
  }

  function BootRecheck(s: System, h: Host): System {
    if s.run.Booting? && s.run.stage == 0 && ReadInstalledAuthority(s.core, h.facts) == Ok(s.run.target)
    then s.(run := s.run.(stage := 1)) else s
  }

  function BootKeep(s: System): System {
    if s.run.Booting? && s.run.stage == 1 && s.run.target.Installed? && ProbePasses(s, s.run.target.imageId)
    then s.(run := Idle) else s
  }

  function BootRemove(s: System): System {
    if s.run.Booting? && s.run.stage == 1
    then s.(root := s.root.(container := None), run := s.run.(stage := 2)) else s
  }

  function BootLaunch(s: System, running: bool): System {
    if s.run.Booting? && s.run.stage == 2 && s.run.target.Installed?
    then s.(root := s.root.(container := Some(Container(s.run.target.operationId, s.run.target.imageId, running))),
            run := s.run.(stage := 3))
    else s
  }

  /** The probe after a boot: a failed one removes the container again. */
  function BootProbe(s: System, passes: bool): System {
    if s.run.Booting? && s.run.stage == 3
    then s.(root := if passes then s.root else s.root.(container := None), run := Idle) else s
  }

  /** One marker of `sweep_markers`: removed once core consumed the receipt. */
  function Sweep(s: System, id: Id): System {
    if s.run.Idle? && id in s.spool.receipts && id !in s.spool.requests
    then s.(spool := s.spool.(switches := s.spool.switches - {id})) else s
  }

  /** The root process stops, or gives up waiting for core. */
  function Crash(s: System): System { s.(run := Idle) }

  function ContainerStops(s: System): System {
    if s.root.container.None? then s
    else s.(root := s.root.(container := Some(s.root.container.value.(running := false))))
  }

  function ContainerGone(s: System): System { s.(root := s.root.(container := None)) }

  // ---------------------------------------------------------------- runs

  /** Core's transactions and request files. */
  datatype CoreStep =
    | DoRequest(request: Request, newId: Id, facts: Facts)
    | DoAcknowledge(id: Id)
    | DoPublishRequest(id: Id)
    | DoConsume(id: Id, facts: Facts)
    | DoUnlinkRequest(id: Id)
    | DoUpdateRegistration(proposed: Registration, eligible: bool)
    | DoProposeSourceRename(manifest: Digest, repository: nat, imageRepository: nat)
    | DoProvisionLegacy(proposed: Registration, expected: Fingerprint)
    | DoRestoreLegacy(proposed: Registration, expected: Fingerprint, expectedManaged: Fingerprint)
    | DoReject(manifest: Digest, shown: Option<Fingerprint>, facts: Facts)

  /** What the root process reads, decides and records. */
  datatype RootStep =
    | DoBegin(id: Id, host: Host)
    | DoRehearsed(previousImage: Option<ImageId>)
    | DoAnnounce
    | DoPoll
    | DoRecheck(host: Host)
    | DoMark
    | DoContradict
    | DoProbe
    | DoFinishDeploy(host: Host)
    | DoFinishRetire(archive: Option<Digest>, host: Host)
    | DoRaise
    | DoFallAuthorize(host: Host)
    | DoRestoreProbe
    | DoFinishFall
    | DoRecoverAdopt
    | DoRecoverKeep
    | DoRecoverRestore
    | DoFinishRecover(host: Host)
    | DoCommitWrite
    | DoBootBegin(host: Host)
    | DoBootRecheck(host: Host)
    | DoBootKeep
    | DoSweep(id: Id)
    | DoCrash

  /** What changes the container: root's effects, and the world outside. */
  datatype HostStep =
    | DoRemove
    | DoLaunch(running: bool)
    | DoRestart
    | DoFallTearDown
    | DoRestoreRemove
    | DoRestoreLaunch(running: bool)
    | DoRecoverTearDown
    | DoBootRemove
    | DoBootLaunch(running: bool)
    | DoBootProbe(passes: bool)
    | DoContainerStops
    | DoContainerGone

  datatype Step = ByCore(core: CoreStep) | ByRoot(root: RootStep) | OnHost(host: HostStep)

  function ApplyCore(s: System, step: CoreStep): System {
    match step
    case DoRequest(r, id, f) => RequestStep(s, r, id, f)
    case DoAcknowledge(id) => AcknowledgeStep(s, id)
    case DoPublishRequest(id) => PublishRequest(s, id)
    case DoConsume(id, f) => ConsumeStep(s, id, f)
    case DoUnlinkRequest(id) => UnlinkRequest(s, id)
    case DoUpdateRegistration(p, e) => WithChange(s, UpdateRegistration(s.core, p, e))
    case DoProposeSourceRename(m, r, i) => WithChange(s, ProposeSourceRename(s.core, m, r, i))
    case DoProvisionLegacy(p, e) => WithChange(s, ProvisionLegacy(s.core, p, e))
    case DoRestoreLegacy(p, e, em) => WithChange(s, RestoreUnacceptedLegacy(s.core, p, e, em))
    case DoReject(m, shown, f) => WithCore(s, Reject(s.core, m, shown, f))
  }

  function ApplyRoot(s: System, step: RootStep): System {
    match step
    case DoBegin(id, h) => Begin(s, id, h)
    case DoRehearsed(image) => Rehearsed(s, image)
    case DoAnnounce => Announce(s)
    case DoPoll => Poll(s)
    case DoRecheck(h) => Recheck(s, h)
    case DoMark => Mark(s)
    case DoContradict => Contradict(s)
    case DoProbe => Probe(s)
    case DoFinishDeploy(h) => FinishDeploy(s, h)
    case DoFinishRetire(archive, h) => FinishRetire(s, archive, h)
    case DoRaise => Raise(s)
    case DoFallAuthorize(h) => FallAuthorize(s, h)
    case DoRestoreProbe => RestoreProbe(s)
    case DoFinishFall => FinishFall(s)
    case DoRecoverAdopt => RecoverAdopt(s)
    case DoRecoverKeep => RecoverKeep(s)
    case DoRecoverRestore => RecoverRestore(s)
    case DoFinishRecover(h) => FinishRecover(s, h)
    case DoCommitWrite => CommitWrite(s)
    case DoBootBegin(h) => BootBegin(s, h)
    case DoBootRecheck(h) => BootRecheck(s, h)
    case DoBootKeep => BootKeep(s)
    case DoSweep(id) => Sweep(s, id)
    case DoCrash => Crash(s)
  }

  function ApplyHost(s: System, step: HostStep): System {
    match step
    case DoRemove => Remove(s)
    case DoLaunch(running) => Launch(s, running)
    case DoRestart => Restart(s)
    case DoFallTearDown => FallTearDown(s)
    case DoRestoreRemove => RestoreRemove(s)
    case DoRestoreLaunch(running) => RestoreLaunch(s, running)
    case DoRecoverTearDown => RecoverTearDown(s)
    case DoBootRemove => BootRemove(s)
    case DoBootLaunch(running) => BootLaunch(s, running)
    case DoBootProbe(passes) => BootProbe(s, passes)
    case DoContainerStops => ContainerStops(s)
    case DoContainerGone => ContainerGone(s)
  }

  function Apply(s: System, step: Step): System {
    match step
    case ByCore(c) => ApplyCore(s, c)
    case ByRoot(r) => ApplyRoot(s, r)
    case OnHost(h) => ApplyHost(s, h)
  }

  /** A fresh registration, nothing approved, nothing on the host. */
  function Start(registration: Registration): System {
    System(Core(registration, map[], None, None, map[], [], [], {}),
           Spool({}, map[], {}), Root(map[], None, {}, None), Idle, {})
  }

  /** The state after any interleaving of steps. */
  function Execution(s: System, steps: seq<Step>): System {
    if steps == [] then s else Apply(Execution(s, steps[..|steps| - 1]), steps[|steps| - 1])
  }
}
