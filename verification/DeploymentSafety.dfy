/** What the deployment protocol promises in every reachable state, and across runs. */
module DeploymentSafety {
  import opened Wrappers
  import opened DeploymentContracts
  import opened Ledger
  import opened LedgerInvariant
  import opened LedgerRegistrations
  import opened Protocol
  import opened ProtocolInvariant
  import opened ProtocolSteps
  import opened ProtocolCoreSteps
  import opened DeploymentRuns

  /** Every state some interleaving of core, root, boots, crashes and the outside reaches. */
  function Reached(registration: Registration, steps: seq<Step>): System {
    Execution(Start(registration), steps)
  }

  // ---------------------------------------------------------------- the second invariant

  lemma CoreStepKeepsBound(s: System, step: CoreStep)
    requires CoreInv(s.core) && Bound(s.core)
    ensures Bound(ApplyCore(s, step).core)
  {
    hide Bound, CoreInv;
    hide RequestOperation, Acknowledge, Consume, UpdateRegistration, ProposeSourceRename, ProvisionLegacy,
         RestoreUnacceptedLegacy, Reject;
    var c := s.core;
    match step
    case DoRequest(r, id, f) =>
      if RequestOperation(c, r, id, f).Ok? { RequestKeepsBound(c, r, id, f); }
    case DoAcknowledge(id) => AcknowledgeKeepsBound(c, id);
    case DoPublishRequest(id) =>
    case DoConsume(id, f) =>
      if id in s.spool.receipts && Consume(c, id, s.spool.receipts[id], f).Ok? {
        ConsumedOrUnchangedIsBound(c, id, s.spool.receipts[id], f);
      }
    case DoUnlinkRequest(id) =>
    case DoUpdateRegistration(p, e) =>
      if UpdateRegistration(c, p, e).Ok? { UpdateKeepsBound(c, p, e); }
    case DoProposeSourceRename(m, r, i) =>
      if ProposeSourceRename(c, m, r, i).Ok? { RenameKeepsBound(c, m, r, i); }
    case DoProvisionLegacy(p, e) => CutoverKeepsBound(c, p, e, e);
    case DoRestoreLegacy(p, e, em) => CutoverKeepsBound(c, p, e, em);
    case DoReject(m, shown, f) =>
      if Reject(c, m, shown, f).Ok? { RejectKeepsBound(c, m, shown, f); }
  }

  lemma ConsumedOrUnchangedIsBound(c: Core, id: Id, r: Receipt, f: Facts)
    requires CoreInv(c) && Bound(c) && Consume(c, id, r, f).Ok?
    ensures Bound(Consume(c, id, r, f).value)
  {
    hide CoreInv, Bound;
    if id in c.operations && Active(c.operations[id].state) {
      ConsumeKeepsBound(c, id, r, f);
    }
  }

  lemma {:induction false} ReachableBound(registration: Registration, steps: seq<Step>)
    ensures Bound(Reached(registration, steps).core)
    decreases |steps|
  {
    hide CoreInv, ApplyCore, ApplyRoot, ApplyHost;
    if steps != [] {
      var s := Reached(registration, steps[..|steps| - 1]);
      ReachableInv(registration, steps[..|steps| - 1]);
      ReachableBound(registration, steps[..|steps| - 1]);
      match steps[|steps| - 1]
      case ByCore(step) => CoreStepKeepsBound(s, step);
      case ByRoot(step) => RootStepIsLater(s, step);
      case OnHost(step) => HostStepIsLater(s, step);
    }
  }

  // ---------------------------------------------------------------- the gate

  /** While the gateway does not hold requests back for a pending installation, root's record
      is core's latest generation and the container is absent or is exactly that
      generation's, so after a retirement it is absent. In particular the gateway never
      opens on a container that is not the accepted generation. */
  lemma GateOpensOnlyOnAccepted(registration: Registration, steps: seq<Step>, requireInstalled: bool)
    requires AdmissionRefusal(Reached(registration, steps).core, requireInstalled) != Some(InstallationPending)
    ensures var s := Reached(registration, steps); var latest := Latest(s.core.history);
            && s.root.current == latest
            && (s.root.container.Some? ==> latest.Some? && Runs(s.root.container.value, latest.value))
            && (latest.None? || latest.value.Retired? ==> s.root.container.None?)
            && (AdmissionRefusal(s.core, requireInstalled).None? && requireInstalled ==>
                  latest.Some? && latest.value.Installed?)
  {
    hide CoreInv;
    ReachableInv(registration, steps);
    SettledExactly(Reached(registration, steps).core);
    SettledAgrees(Reached(registration, steps));
  }

  /** And it refuses for no other reason than a switch or a block in flight, a retirement, or
      a missing installation where one is required. */
  lemma GateRefusesExactly(registration: Registration, steps: seq<Step>, requireInstalled: bool)
    ensures var c := Reached(registration, steps).core;
            AdmissionRefusal(c, requireInstalled).None? <==>
              Settled(c) && !IsRetired(c.history) && (requireInstalled ==> Current(c.history).Some?)
  {
    hide CoreInv;
    ReachableInv(registration, steps);
    SettledExactly(Reached(registration, steps).core);
  }

  predicate Settled(c: Core) {
    c.blocked.None? && (c.active.Some? && c.active.value in c.operations ==>
                          c.operations[c.active.value].state.Queued?)
  }

  /** The unique indexes say the same as the rows the gateway's query looks at. */
  lemma SettledExactly(c: Core)
    requires CoreInv(c)
    ensures Settled(c) <==>
              !(exists id | id in c.operations ::
                  !c.operations[id].operation.kind.Rehearse? &&
                  (c.operations[id].state == Switching || c.operations[id].state == Ended(Blocked)))
  {
    hide HistoryShape, HistoryBacked, DeploysRehearsed, RegistrationFollows, InFlightCurrent, Keyed;
    if !Settled(c) {
      var id := if c.blocked.Some? then c.blocked.value else c.active.value;
      assert id in c.operations && !c.operations[id].operation.kind.Rehearse?;
    }
  }

  /** With nothing switching or blocked, core, root and the container agree. */
  lemma SettledAgrees(s: System)
    requires Inv(s) && Settled(s.core)
    ensures s.root.current == Latest(s.core.history) && AtCurrent(s.root)
  {
    hide HistoryShape, HistoryBacked, DeploysRehearsed, RegistrationFollows, RecordsOk, SettledOk, MarkersOk,
         RequestsOk, AdmittedOk, ConsumedOk, TruthOk, TouchedOk, RunOk, InFlightCurrent, Keyed;
  }

  // ---------------------------------------------------------------- lockstep

  /** Root's generation is core's or one ahead; it is ahead exactly while the one switching
      operation has an accepted receipt core has not consumed, and consuming it appends
      exactly root's record. */
  lemma GenerationsInLockstep(registration: Registration, steps: seq<Step>)
    ensures var s := Reached(registration, steps);
            var n := |s.core.history|; var m := GenerationOf(s.root.current);
            && n <= m <= n + 1
            && (m == n ==> s.root.current == Latest(s.core.history))
            && (m == n + 1 ==>
                  && s.core.active.Some?
                  && SwitchingNow(s.core, s.core.active.value)
                  && s.core.active.value in s.root.journal
                  && s.root.journal[s.core.active.value].outcome.Succeeded?
                  && s.root.current == AcceptedBy(s.root.journal[s.core.active.value]))
  {
    var s := Reached(registration, steps);
    ReachableInv(registration, steps);
    LatestGeneration(s.core);
  }

  lemma ConsumingAppendsRootsRecord(registration: Registration, steps: seq<Step>, id: Id, f: Facts)
    requires var s := Reached(registration, steps);
             && id in s.spool.receipts && s.core.active == Some(id)
             && Consume(s.core, id, s.spool.receipts[id], f).Ok?
    ensures var s := Reached(registration, steps); var c' := Consume(s.core, id, s.spool.receipts[id], f).value;
            && Latest(c'.history) == s.root.current
            && (if GenerationOf(s.root.current) == |s.core.history| then c'.history == s.core.history
                else c'.history == s.core.history + [s.root.current.value])
  {
    var s := Reached(registration, steps);
    ReachableInv(registration, steps);
    ConsumedMeetsRoot(s, id, f);
  }

  lemma ConsumedMeetsRoot(s: System, id: Id, f: Facts)
    requires Inv(s) && id in s.spool.receipts && s.core.active == Some(id)
    requires Consume(s.core, id, s.spool.receipts[id], f).Ok?
    ensures var c' := Consume(s.core, id, s.spool.receipts[id], f).value;
            && Latest(c'.history) == s.root.current
            && (if GenerationOf(s.root.current) == |s.core.history| then c'.history == s.core.history
                else c'.history == s.core.history + [s.root.current.value])
  {
    hide CoreInv, RecordsOk, SettledOk, MarkersOk, RequestsOk, AdmittedOk, ConsumedOk, TruthOk, ContainerOk,
         TouchedOk, RunOk, Consume, Consumed, ReadAuthority, HistoryShape;
    InFlightFacts(s.core);
    SpoolReceiptFits(s, id);
    var r := s.spool.receipts[id];
    ConsumeForm(s.core, id, r, f);
    ConsumedHistory(s, id, r, EffectiveReceipt(s.core, s.core.operations[id].operation, r, f));
    LatestGeneration(s.core);
  }

  // ---------------------------------------------------------------- receipts

  /** While an operation waits for core to consume its receipt, the receipt is true of the
      host, and what each operation may report is fixed by its kind. */
  lemma ReceiptsAreTrue(registration: Registration, steps: seq<Step>, id: Id)
    requires id in Reached(registration, steps).root.journal
    ensures var s := Reached(registration, steps); var r := s.root.journal[id];
            && id in s.core.operations
            && var o := s.core.operations[id].operation;
            && (o.kind.Recover? ==> !r.outcome.Blocked?)
            && (o.kind.Rehearse? ==> id !in s.touched)
            && (r.outcome.Failed? && !o.kind.Recover? ==> id !in s.touched)
            && (s.core.active == Some(id) ==>
                  && (r.outcome.Recovered? ==> AtCurrent(s.root))
                  && (r.outcome.Failed? && !o.kind.Recover? ==> AtCurrent(s.root))
                  && (r.outcome.Succeeded? && r.installed.Some? ==>
                        s.root.container.None? || Runs(s.root.container.value, r.installed.value))
                  && (r.outcome.Succeeded? && r.retired.Some? ==> s.root.container.None?)
                  && (r.outcome.Succeeded? && AcceptedBy(r).None? ==> AtCurrent(s.root)))
  {
    var s := Reached(registration, steps);
    ReachableInv(registration, steps);
    RehearsalsTouchNothing(registration, steps);
    ReceiptIsTrue(s, id);
  }

  lemma ReceiptIsTrue(s: System, id: Id)
    requires Inv(s) && id in s.root.journal
    ensures id in s.core.operations
    ensures var r := s.root.journal[id]; var o := s.core.operations[id].operation;
            && (o.kind.Recover? ==> !r.outcome.Blocked?)
            && (r.outcome.Failed? && !o.kind.Recover? ==> id !in s.touched)
            && (s.core.active == Some(id) ==>
                  && (r.outcome.Recovered? ==> AtCurrent(s.root))
                  && (r.outcome.Failed? && !o.kind.Recover? ==> AtCurrent(s.root))
                  && (r.outcome.Succeeded? && r.installed.Some? ==>
                        s.root.container.None? || Runs(s.root.container.value, r.installed.value))
                  && (r.outcome.Succeeded? && r.retired.Some? ==> s.root.container.None?)
                  && (r.outcome.Succeeded? && AcceptedBy(r).None? ==> AtCurrent(s.root)))
  {
    hide CoreInv, SettledOk, MarkersOk, RequestsOk, AdmittedOk, ConsumedOk, CurrentOk, ContainerOk, RunOk;
    assert RecordsOk(s.core.operations, s.spool.receipts, s.root.journal);
    assert ReceiptShape(s.core.operations, s.core.operations[id].operation, s.root.journal[id]);
  }

  /** Only a switch or a recovery changes the container, and it is recorded as having. */
  lemma ContainerChangesAreRecorded(s: System, step: Step)
    requires Apply(s, step).root.container != s.root.container
    ensures step.OnHost?
    ensures || (s.run.Executing? && s.run.operation.id in Apply(s, step).touched)
            || step.host.DoBootRemove? || step.host.DoBootLaunch? || step.host.DoBootProbe?
            || step.host.DoContainerStops? || step.host.DoContainerGone?
  {
    hide RootAuthority, ReadInstalledAuthority, Adoptable, Contradicts, ProbePasses, RequestOperation, Consume,
         UpdateRegistration, ProposeSourceRename, ProvisionLegacy, RestoreUnacceptedLegacy, Reject, Acknowledge;
  }

  lemma TouchedOnlyGrows(s: System, step: Step)
    requires Inv(s)
    ensures s.touched <= Apply(s, step).touched
    ensures forall id | id in Apply(s, step).touched && id !in s.touched ::
              s.run.Executing? && s.run.operation.id == id && !s.run.operation.kind.Rehearse?
  {
    hide CoreInv, RecordsOk, SettledOk, MarkersOk, RequestsOk, AdmittedOk, ConsumedOk, CurrentOk, TruthOk,
         ContainerOk, TouchedOk;
    hide RootAuthority, ReadInstalledAuthority, Adoptable, Contradicts, ProbePasses, RequestOperation, Consume,
         UpdateRegistration, ProposeSourceRename, ProvisionLegacy, RestoreUnacceptedLegacy, Reject, Acknowledge;
  }

  lemma {:induction false} RehearsalsTouchNothing(registration: Registration, steps: seq<Step>)
    ensures var s := Reached(registration, steps);
            forall id | id in s.touched && id in s.core.operations :: !s.core.operations[id].operation.kind.Rehearse?
    decreases |steps|
  {
    hide Inv, Apply;
    if steps != [] {
      var s := Reached(registration, steps[..|steps| - 1]);
      var step := steps[|steps| - 1];
      ReachableInv(registration, steps[..|steps| - 1]);
      RehearsalsTouchNothing(registration, steps[..|steps| - 1]);
      RehearsalsTouchNothingStep(s, step);
    }
  }

  lemma RehearsalsTouchNothingStep(s: System, step: Step)
    requires Inv(s)
    requires forall id | id in s.touched && id in s.core.operations :: !s.core.operations[id].operation.kind.Rehearse?
    ensures var s' := Apply(s, step);
            forall id | id in s'.touched && id in s'.core.operations :: !s'.core.operations[id].operation.kind.Rehearse?
  {
    hide Apply, CoreInv;
    TouchedOnlyGrows(s, step);
    StepIsLater(s, step);
    assert s.run.Executing? ==> ExecutingOk(s.core, s.spool, s.root, s.run);
  }

  /** At most one operation is active and at most one blocked; while one is blocked, the
      active one is a recovery naming it. */
  lemma OneAtATime(registration: Registration, steps: seq<Step>, a: Id, b: Id)
    requires var c := Reached(registration, steps).core;
             a in c.operations && b in c.operations
    ensures var c := Reached(registration, steps).core;
            && (Active(c.operations[a].state) && Active(c.operations[b].state) ==> a == b)
            && (c.operations[a].state == Ended(Blocked) && c.operations[b].state == Ended(Blocked) ==> a == b)
            && (Active(c.operations[a].state) && c.operations[b].state == Ended(Blocked) ==>
                  c.operations[a].operation.kind.Recover? && c.operations[a].operation.recovers == Some(b))
            && (Active(c.operations[a].state) && c.operations[a].operation.kind.Recover? ==>
                  exists x | x in c.operations ::
                    c.operations[a].operation.recovers == Some(x) && c.operations[x].state == Ended(Blocked))
  {
    ReachableInv(registration, steps);
    OneAtATimeIn(Reached(registration, steps).core, a);
  }

  lemma OneAtATimeIn(c: Core, a: Id)
    requires CoreInv(c) && a in c.operations
    ensures Indexed(c) && Exclusive(c)
    ensures Active(c.operations[a].state) && c.operations[a].operation.kind.Recover? ==>
              exists x | x in c.operations ::
                c.operations[a].operation.recovers == Some(x) && c.operations[x].state == Ended(Blocked)
  {
    if Active(c.operations[a].state) && c.operations[a].operation.kind.Recover? {
      assert c.blocked.value in c.operations;
    }
  }

  /** With no foreign container on the host, no switch ever meets a contradictory one. */
  lemma NoContradiction(registration: Registration, steps: seq<Step>)
    ensures var s := Reached(registration, steps);
            AtInspection(s) ==> !Contradicts(s)
  {
    ReachableInv(registration, steps);
    if AtInspection(Reached(registration, steps)) {
      RecognisedAtInspection(Reached(registration, steps));
    }
  }

  lemma RecognisedAtInspection(s: System)
    requires Inv(s) && AtInspection(s)
    ensures !Contradicts(s)
  {
    hide HistoryShape, HistoryBacked, DeploysRehearsed, RegistrationFollows, RecordsOk, SettledOk, RequestsOk,
         AdmittedOk, ConsumedOk, CurrentOk, TruthOk, TouchedOk, InFlightCurrent, Keyed;
  }

  /** A sweep takes a switch marker only after core settled the operation. */
  lemma SweptMarkersAreSettled(registration: Registration, steps: seq<Step>, id: Id)
    requires var s := Reached(registration, steps);
             id in s.spool.switches && id !in Sweep(s, id).spool.switches
    ensures var s := Reached(registration, steps);
            id in s.core.operations && !Active(s.core.operations[id].state)
  {
    ReachableInv(registration, steps);
  }

  // ---------------------------------------------------------------- registrations and history

  /** Once nothing switches or is blocked, the boot authority of a running installation is
      refused only for a revoked credential or an ineligible release. */
  lemma BootAuthorityHolds(registration: Registration, steps: seq<Step>, f: Facts)
    requires var c := Reached(registration, steps).core; Settled(c) && Current(c.history).Some?
    ensures var s := Reached(registration, steps);
            && ReadInstalledAuthority(s.core, f) ==
                 (if BootRefusal(f).Some? then Err(BootRefusal(f).value) else Ok(Current(s.core.history).value))
            && s.root.current == Current(s.core.history)
            && s.core.registration == Current(s.core.history).value.registration
  {
    ReachableInv(registration, steps);
    ReachableBound(registration, steps);
    var s := Reached(registration, steps);
    SettledAgrees(s);
    InFlightFacts(s.core);
    BootAuthorityNeverContradicts(s.core, f);
    InstalledIsManaged(s.core);
  }

  /** The accepted history: generations 1..n, each backed by its own succeeded operation
      approved against its predecessor; a retirement directly follows the install it stores. */
  lemma HistoryIsContiguous(registration: Registration, steps: seq<Step>, i: nat)
    requires i < |Reached(registration, steps).core.history|
    ensures var c := Reached(registration, steps).core; var row := c.history[i];
            && ValidSnapshot(row) && row.generation == i + 1
            && Managed(row.registration) && Sha256(row.registration) == row.selection.registration
            && row.operationId in c.operations
            && c.operations[row.operationId].state == Ended(Succeeded)
            && c.operations[row.operationId].operation.selection == row.selection
            && row.selection.generation == i
            && (row.Retired? ==> i > 0 && row.lastInstalled == c.history[i - 1] && c.history[i - 1].Installed?)
            && (i == |c.history| - 1 ==> c.registration == row.registration)
  {
    ReachableInv(registration, steps);
    ReachableBound(registration, steps);
    RowFacts(Reached(registration, steps).core, i);
  }

  lemma RowFacts(c: Core, i: nat)
    requires CoreInv(c) && Bound(c) && i < |c.history|
    ensures var row := c.history[i];
            && ValidSnapshot(row) && row.generation == i + 1
            && Managed(row.registration) && Sha256(row.registration) == row.selection.registration
            && row.operationId in c.operations
            && c.operations[row.operationId].state == Ended(Succeeded)
            && c.operations[row.operationId].operation.selection == row.selection
            && row.selection.generation == i
            && (row.Retired? ==> i > 0 && row.lastInstalled == c.history[i - 1] && c.history[i - 1].Installed?)
            && (i == |c.history| - 1 ==> c.registration == row.registration)
  {
    HistoryManaged(c);
    assert c.history[i].Retired? ==> FollowsInstall(c.history, i);
    assert BackedBy(c.history[i], c.operations[c.history[i].operationId]);
  }

  /** Each generation is a different operation's. */
  lemma GenerationsAreDistinct(registration: Registration, steps: seq<Step>, i: nat, j: nat)
    requires i < j < |Reached(registration, steps).core.history|
    ensures var h := Reached(registration, steps).core.history; h[i].operationId != h[j].operationId
  {
    HistoryIsContiguous(registration, steps, i);
    HistoryIsContiguous(registration, steps, j);
  }

  /** A rollback in flight targets the row before the latest, both of them installs. */
  lemma RollbackTargetsPredecessor(registration: Registration, steps: seq<Step>, id: Id)
    requires var c := Reached(registration, steps).core;
             c.active == Some(id) && id in c.operations && c.operations[id].operation.kind.Rollback?
    ensures var c := Reached(registration, steps).core; var n := |c.history|;
            && n >= 2 && c.history[n - 1].Installed? && c.history[n - 2].Installed?
            && c.operations[id].operation.selection.generation == n
            && c.operations[id].operation.selection.manifest == c.history[n - 2].selection.manifest
  {
    ReachableInv(registration, steps);
    RollbackAim(Reached(registration, steps).core, id);
  }

  lemma RollbackAim(c: Core, id: Id)
    requires CoreInv(c) && c.active == Some(id) && c.operations[id].operation.kind.Rollback?
    ensures var n := |c.history|;
            && n >= 2 && c.history[n - 1].Installed? && c.history[n - 2].Installed?
            && c.operations[id].operation.selection.generation == n
            && c.operations[id].operation.selection.manifest == c.history[n - 2].selection.manifest
  {
    hide HistoryShape, HistoryBacked, DeploysRehearsed, RegistrationFollows;
  }

  /** Every generation a deploy put into the history, a recovery's adoption included, was
      rehearsed with the same selection against exactly the generation it replaced. */
  lemma DeployedGenerationsWereRehearsed(registration: Registration, steps: seq<Step>, i: nat)
    requires var c := Reached(registration, steps).core;
             && i < |c.history| && c.history[i].operationId in c.operations
             && c.operations[c.history[i].operationId].operation.kind.Deploy?
    ensures var c := Reached(registration, steps).core;
            exists id | id in c.operations ::
              && c.operations[id].operation.kind.Rehearse?
              && c.operations[id].state == Ended(Succeeded)
              && c.operations[id].receipt.Some?
              && c.operations[id].receipt.value.selection == c.history[i].selection
              && c.history[i].selection.generation == i
  {
    var c := Reached(registration, steps).core;
    ReachableInv(registration, steps);
    assert BackedBy(c.history[i], c.operations[c.history[i].operationId]);
    var o := c.operations[c.history[i].operationId].operation;
    assert RehearsedAs(c.operations, o);
    assert c.operations[o.rehearsal.value].operation.kind.Rehearse?;
  }

  // ---------------------------------------------------------------- core's own transactions

  /** A published receipt of the active operation is consumed unless its release is no
      longer eligible: no other check can refuse it. */
  lemma ReceiptsAreConsumable(registration: Registration, steps: seq<Step>, id: Id, f: Facts)
    requires var s := Reached(registration, steps); id in s.spool.receipts && s.core.active == Some(id)
    ensures var s := Reached(registration, steps); var r := s.spool.receipts[id];
            Reconcile(s.core, id, r, f).Ok? <==>
              (r.outcome.Succeeded? ==>
                 && f.archive.Some?
                 && (if r.installed.Some? then f.archive.value == r.selection.archive
                     else Managed(s.core.registration)))
  {
    var s := Reached(registration, steps);
    ReachableInv(registration, steps);
    ReachableBound(registration, steps);
    InFlightFacts(s.core);
    PublishedReceiptFacts(s, id);
    ReleaseStillNamed(s.core, id);
    ReconcileExactly(s, id, f);
  }

  /** What the invariant says of a receipt core is about to consume. */
  predicate Consumable(s: System, id: Id) {
    && id in s.spool.receipts && s.core.active == Some(id) && id in s.core.operations
    && ReceiptShape(s.core.operations, s.core.operations[id].operation, s.spool.receipts[id])
    && AdmittedIfSucceeded(s.core, id, s.spool.receipts[id])
    && ReceiptTrue(s.core, s.root, s.core.operations[id].operation, s.spool.receipts[id])
  }

  lemma PublishedReceiptFacts(s: System, id: Id)
    requires Inv(s) && id in s.spool.receipts && s.core.active == Some(id)
    ensures Consumable(s, id)
  {
    hide SettledOk, MarkersOk, RequestsOk, ConsumedOk, CurrentOk, ContainerOk, TouchedOk, RunOk, ReceiptShape,
         ReceiptTrue;
  }

  lemma InsertAllowedNext(c: Core, s: Snapshot)
    requires HistoryShape(c.history) && HistoryBacked(c)
    requires s.generation == |c.history| + 1 && s.operationId in c.operations
    requires c.operations[s.operationId].state != Ended(Succeeded)
    ensures InsertAllowed(c.history, s)
  {
    forall i | 0 <= i < |c.history|
      ensures c.history[i].operationId != s.operationId && c.history[i].generation != s.generation
    {
      assert BackedBy(c.history[i], c.operations[c.history[i].operationId]);
    }
  }

  lemma AcceptedRowOk(s: System, id: Id)
    requires Consumable(s, id) && CoreInv(s.core) && s.spool.receipts[id].outcome.Succeeded?
    ensures var o := s.core.operations[id].operation; var r := s.spool.receipts[id];
            && AcceptedRow(s.core, o, r) == Ok(AcceptedBy(r))
            && (AcceptedBy(r).Some? ==> InsertAllowed(s.core.history, AcceptedBy(r).value))
            && (r.installed.Some? ==> r.installed.value.image == Pinned(r.selection.archive))
  {
    hide HistoryShape, HistoryBacked, DeploysRehearsed, RegistrationFollows;
    var o := s.core.operations[id].operation;
    var r := s.spool.receipts[id];
    if AcceptedBy(r).Some? {
      InsertAllowedNext(s.core, AcceptedBy(r).value);
    }
  }

  lemma ReconcileExactly(s: System, id: Id, f: Facts)
    requires Consumable(s, id) && CoreInv(s.core)
    requires ReleaseRegistration(s.core, s.core.operations[id].operation.kind).Ok? <==> Managed(s.core.registration)
    ensures var r := s.spool.receipts[id];
            Reconcile(s.core, id, r, f).Ok? <==>
              (r.outcome.Succeeded? ==>
                 && f.archive.Some?
                 && (if r.installed.Some? then f.archive.value == r.selection.archive
                     else Managed(s.core.registration)))
  {
    hide HistoryShape, HistoryBacked, DeploysRehearsed, RegistrationFollows, ReleaseRegistration, AcceptedRow,
         ReceiptTrue, InsertAllowed, ReadAuthority;
    if s.spool.receipts[id].outcome.Succeeded? {
      AcceptedRowOk(s, id);
    }
  }

  /** Asking twice under one request id is asking once. */
  lemma RequestsAreIdempotent(c: Core, r: Request, newId: Id, otherId: Id, f: Facts)
    requires CoreInv(c) && RequestOperation(c, r, newId, f).Ok?
    requires f.administratorCurrent
    ensures var (c', o) := RequestOperation(c, r, newId, f).value;
            RequestOperation(c', r, otherId, f) == Ok((c', o))
  {
    hide CoreInv, SelectionFor, ReadAuthority, ShownChange;
    RequestForm(c, r, newId, f);
    var (c', o) := RequestOperation(c, r, newId, f).value;
    if c' != c {
      var preview := if r.kind.Recover? then Some(BlockedOperation(c).value.selection.preview) else r.preview;
      SelectionBindsState(c, r.manifest, preview.value, r.kind, f);
      ShownIgnoresOperations(c, c', o.selection);
    }
  }

  lemma ShownIgnoresOperations(c: Core, c': Core, s: Selection)
    requires c'.history == c.history
    ensures ShownChange(c', s) == ShownChange(c, s)
  {
  }
}
