/** The inductive invariant of the deployment protocol. */
module ProtocolInvariant {
  import opened Wrappers
  import opened DeploymentContracts
  import opened Ledger
  import opened LedgerInvariant
  import opened Protocol

  // ---------------------------------------------------------------- what a receipt may claim

  /** A receipt root can write for operation `o`, whatever the state. */
  predicate ReceiptShape(operations: map<Id, Row>, o: Operation, r: Receipt) {
    && ReceiptFits(operations, o, r)
    && (r.outcome != Succeeded ==> r.rehearsal.None? && r.installed.None? && r.retired.None?)
    && (r.outcome == Succeeded ==>
          match o.kind
          case Rehearse =>
            r.installed.None? && r.retired.None? && r.rehearsal.Some? && r.rehearsal.value.passed &&
            r.rehearsal.value.selection == o.selection
          case Retire =>
            r.rehearsal.None? && r.installed.None? && r.authorizationCommitted && r.retired.Some? &&
            RetiresFor(r.retired.value, o)
          case Recover =>
            r.rehearsal.None? && r.retired.None? && r.authorizationCommitted && o.recovers.Some? &&
            (r.installed.Some? ==> InstallsFor(r.installed.value, o.recovers.value, o.selection))
          case _ =>
            r.rehearsal.None? && r.retired.None? && r.authorizationCommitted && r.installed.Some? &&
            InstallsFor(r.installed.value, o.id, o.selection))
  }

  predicate InstallsFor(s: Snapshot, id: Id, selection: Selection) {
    && s.Installed? && s.operationId == id && s.selection == selection
    && s.generation == selection.generation + 1 && Sha256(s.registration) == selection.registration
    && s.image == Pinned(selection.archive) && s.imageId == ImageOf(selection)
  }

  predicate RetiresFor(s: Snapshot, o: Operation) {
    && s.Retired? && s.operationId == o.id && s.selection == o.selection
    && s.generation == o.selection.generation + 1 && Sha256(s.registration) == o.selection.registration
  }

  /** The container is absent or runs root's current generation. */
  predicate AtCurrent(r: Root) {
    r.container.None? || (r.current.Some? && Runs(r.container.value, r.current.value))
  }

  predicate AbsentOr(r: Root, image: ImageId, id: Id) {
    r.container.None? || StartedBy(r.container.value, image, id)
  }

  /** The receipt describes the host truthfully. A failed recovery claims nothing. */
  predicate ReceiptTrue(c: Core, root: Root, o: Operation, r: Receipt) {
    match r.outcome
    case Blocked => true
    case Failed => o.kind.Recover? || AtCurrent(root)
    case Recovered => AtCurrent(root)
    case Succeeded =>
      && (r.installed.Some? && r.installed.value.Installed? ==>
            AbsentOr(root, r.installed.value.imageId, r.installed.value.operationId))
      && (r.retired.Some? && r.retired.value.Retired? ==>
            root.container.None? && Current(c.history) == Some(r.retired.value.lastInstalled))
      && (r.installed.None? && r.retired.None? ==> AtCurrent(root))
  }

  // ---------------------------------------------------------------- the conjuncts

  predicate IsActive(c: Core, id: Id) { c.active == Some(id) && id in c.operations }

  predicate SwitchingNow(c: Core, id: Id) {
    IsActive(c, id) && c.operations[id].state.Switching?
  }

  /** Spool receipts copy the journal, and the journal answers known operations. */
  predicate RecordsOk(operations: map<Id, Row>, receipts: map<Id, Receipt>, journal: map<Id, Receipt>) {
    && (forall id | id in receipts :: id in journal && journal[id] == receipts[id])
    && (forall id | id in journal ::
          id in operations && ReceiptShape(operations, operations[id].operation, journal[id]))
  }

  /** Core settles an operation only by a receipt, and a blocked row by a blocked one. */
  predicate SettledOk(c: Core, receipts: map<Id, Receipt>, journal: map<Id, Receipt>) {
    && (forall id | id in c.operations && !Active(c.operations[id].state) :: id in receipts)
    && (c.blocked.Some? && c.blocked.value in journal ==> journal[c.blocked.value].outcome.Blocked?)
  }

  /** A journal marker means the switch was admitted; switch intents name switches. */
  predicate MarkersOk(c: Core, switches: set<Id>, markers: set<Id>, journal: map<Id, Receipt>) {
    && (forall id | id in markers ::
          id in c.operations && Switches(c.operations[id].operation.kind) &&
          (id in journal || SwitchingNow(c, id)))
    && (forall id | id in switches :: id in c.operations && !c.operations[id].operation.kind.Rehearse?)
    && (c.active.Some? && SwitchingNow(c, c.active.value) ==> c.active.value in switches)
  }

  /** Only an admitted operation can have succeeded. */
  predicate AdmittedOk(c: Core, journal: map<Id, Receipt>) {
    c.active.Some? && c.active.value in journal && c.active.value in c.operations ==>
      AdmittedIfSucceeded(c, c.active.value, journal[c.active.value])
  }

  predicate AdmittedIfSucceeded(c: Core, id: Id, r: Receipt)
    requires id in c.operations
  {
    r.outcome.Succeeded? && !c.operations[id].operation.kind.Rehearse? ==> SwitchingNow(c, id)
  }

  /** Every generation a settled receipt accepted is in the history, where it belongs. */
  predicate ConsumedOk(c: Core, journal: map<Id, Receipt>) {
    forall id | id in journal && id in c.operations && !Active(c.operations[id].state) &&
                AcceptedBy(journal[id]).Some? ::
      InHistory(c.history, AcceptedBy(journal[id]).value)
  }

  predicate InHistory(h: seq<Snapshot>, s: Snapshot) {
    1 <= s.generation <= |h| && h[s.generation - 1] == s
  }

  /** An unsettled receipt still has its request, so no sweep takes its marker. */
  predicate RequestsOk(c: Core, requests: set<Id>, journal: map<Id, Receipt>) {
    c.active.Some? && c.active.value in journal ==> c.active.value in requests
  }

  /** The generation a committed but unconsumed receipt installs. */
  function Pending(c: Core, journal: map<Id, Receipt>): Option<Snapshot> {
    if c.active.Some? && c.active.value in journal then AcceptedBy(journal[c.active.value]) else None
  }

  /** Root's record is core's latest generation, or exactly one committed ahead of it. */
  predicate CurrentOk(c: Core, receipts: map<Id, Receipt>, journal: map<Id, Receipt>, current: Option<Snapshot>) {
    var pending := Pending(c, journal);
    if pending.None? then current == Latest(c.history)
    else
      && SwitchingNow(c, c.active.value)
      && pending.value.generation == |c.history| + 1
      && (current == Latest(c.history) || current == pending)
      && (c.active.value in receipts ==> current == pending)
  }

  predicate TruthOk(c: Core, root: Root) {
    c.active.Some? && c.active.value in root.journal && c.active.value in c.operations ==>
      ReceiptTrue(c, root, c.operations[c.active.value].operation, root.journal[c.active.value])
  }

  /** A container that is not the current generation's belongs to a switch in flight. */
  predicate Candidate(c: Core, root: Root)
    requires root.container.Some?
  {
    var id := root.container.value.operation;
    && id in c.operations
    && (c.operations[id].operation.kind.Deploy? || c.operations[id].operation.kind.Rollback?)
    && root.container.value.image == ImageOf(c.operations[id].operation.selection)
    && (c.blocked == Some(id) || (SwitchingNow(c, id) && (id in root.markers || id in root.journal)))
  }

  predicate ContainerOk(c: Core, root: Root) {
    AtCurrent(root) || Candidate(c, root)
  }

  predicate Quiet(c: Core, id: Id, markers: set<Id>, journal: map<Id, Receipt>)
    requires id in c.operations
  {
    && !c.operations[id].operation.kind.Recover?
    && (if id in journal then journal[id].outcome.Failed? else id !in markers)
  }

  /** No operation that ended failed, or never wrote its marker, changed the container. */
  predicate TouchedOk(c: Core, markers: set<Id>, journal: map<Id, Receipt>, touched: set<Id>) {
    forall id | id in touched :: id in c.operations && !Quiet(c, id, markers, journal)
  }

  // ---------------------------------------------------------------- the running process

  predicate PhaseOk(c: Core, switches: set<Id>, root: Root, o: Operation, before: Option<Snapshot>, phase: Phase) {
    var marked := o.id in root.markers && Switches(o.kind);
    && (phase.Preparing? || !o.kind.Rehearse?)
    && (phase.Preparing? || o.id in switches)
    && (phase.Preparing? || phase.Announced? || SwitchingNow(c, o.id))
    && match phase
       case Preparing => true
       case Announced => true
       case Admitted => true
       case Authorised => Switches(o.kind) && !o.kind.Retire?
       case Marked(switched) =>
         marked && (switched ==> !o.kind.Retire? && AbsentOr(root, ImageOf(o.selection), o.id))
       case Removed => marked && root.container.None?
       case Launched => marked && !o.kind.Retire? && AbsentOr(root, ImageOf(o.selection), o.id)
       case Probed => marked && !o.kind.Retire? && AbsentOr(root, ImageOf(o.selection), o.id)
       case Falling => marked && before.Some?
       case Restoring => (o.kind.Recover? || marked) && RunningOf(before).Some?
       case RestoreRemoved => (o.kind.Recover? || marked) && RunningOf(before).Some? && root.container.None?
       case RestoreLaunched => (o.kind.Recover? || marked) && RunningOf(before).Some? && AtCurrent(root)
       case Restored => (o.kind.Recover? || marked) && AtCurrent(root)
       case Adopted =>
         && o.kind.Recover? && o.recovers.Some? && o.recovers.value in c.operations
         && c.operations[o.recovers.value].operation.selection == o.selection
         && !c.operations[o.recovers.value].operation.kind.Retire?
         && AbsentOr(root, ImageOf(o.selection), o.recovers.value)
  }

  predicate ExecutingOk(c: Core, spool: Spool, root: Root, run: Run)
    requires run.Executing?
  {
    var o := run.operation;
    && IsActive(c, o.id) && c.operations[o.id].operation == o
    && o.id !in root.journal && o.id in spool.requests
    && run.before == root.current
    && Sha256(run.registration) == o.selection.registration
    && PhaseOk(c, spool.switches, root, o, run.before, run.phase)
  }

  predicate CommittingOk(c: Core, spool: Spool, root: Root, run: Run, touched: set<Id>)
    requires run.Committing?
  {
    var r := run.receipt;
    var id := r.operationId;
    && id in c.operations
    && (run.write < 3 ==> IsActive(c, id) && id !in spool.receipts && id in spool.requests)
    && (if run.write == 0 then
          && id !in root.journal
          && ReceiptShape(c.operations, c.operations[id].operation, r)
          && ReceiptTrue(c, root, c.operations[id].operation, r)
          && AdmittedIfSucceeded(c, id, r)
          && (r.outcome.Failed? && id in touched ==> c.operations[id].operation.kind.Recover?)
        else id in root.journal && root.journal[id] == r)
    && (run.write == 2 && AcceptedBy(r).Some? ==> root.current == AcceptedBy(r))
    && (3 <= run.write ==> id in spool.receipts)
  }

  /** No committed receipt waits to become core's next generation. */
  predicate NothingPending(c: Core, journal: map<Id, Receipt>) {
    c.active.Some? && c.active.value in journal ==>
      journal[c.active.value].installed.None? && journal[c.active.value].retired.None?
  }

  predicate BootingOk(c: Core, root: Root, run: Run)
    requires run.Booting?
  {
    && root.current == Some(run.target) && AtCurrent(root) && NothingPending(c, root.journal)
    && (run.stage == 2 ==> root.container.None?)
  }

  predicate RunOk(c: Core, spool: Spool, root: Root, run: Run, touched: set<Id>) {
    match run
    case Idle => true
    case Executing(_, _, _, _, _) => ExecutingOk(c, spool, root, run)
    case Committing(_, _) => CommittingOk(c, spool, root, run, touched)
    case Booting(_, _) => BootingOk(c, root, run)
  }

  predicate Inv(s: System) {
    && CoreInv(s.core)
    && RecordsOk(s.core.operations, s.spool.receipts, s.root.journal)
    && SettledOk(s.core, s.spool.receipts, s.root.journal)
    && MarkersOk(s.core, s.spool.switches, s.root.markers, s.root.journal)
    && RequestsOk(s.core, s.spool.requests, s.root.journal)
    && AdmittedOk(s.core, s.root.journal)
    && ConsumedOk(s.core, s.root.journal)
    && CurrentOk(s.core, s.spool.receipts, s.root.journal, s.root.current)
    && TruthOk(s.core, s.root)
    && ContainerOk(s.core, s.root)
    && TouchedOk(s.core, s.root.markers, s.root.journal, s.touched)
    && RunOk(s.core, s.spool, s.root, s.run, s.touched)
  }

  lemma StartInv(registration: Registration)
    ensures Inv(Start(registration))
  {
  }
}
