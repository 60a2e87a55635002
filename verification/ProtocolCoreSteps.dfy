/** Core's steps, and the runs that follow: the invariant holds in every reachable state. */
module ProtocolCoreSteps {
  import opened Wrappers
  import opened DeploymentContracts
  import opened Ledger
  import opened LedgerInvariant
  import opened Protocol
  import opened ProtocolInvariant
  import opened ProtocolSteps

  // ---------------------------------------------------------------- registrations

  lemma SameOperationsKeepsInv(s: System, c': Core)
    requires Inv(s) && CoreInv(c') && SameOperations(s.core, c')
    ensures Inv(s.(core := c'))
  {
    hide CoreInv, ReceiptShape;
  }

  lemma ChangeKeepsInv(s: System, step: CoreStep)
    requires Inv(s)
    requires step.DoUpdateRegistration? || step.DoProposeSourceRename? || step.DoProvisionLegacy? ||
             step.DoRestoreLegacy? || step.DoReject?
    ensures Inv(ApplyCore(s, step))
  {
    hide CoreInv, RecordsOk, SettledOk, MarkersOk, RequestsOk, AdmittedOk, ConsumedOk, CurrentOk, TruthOk,
         ContainerOk, TouchedOk, RunOk, UpdateRegistration, ProposeSourceRename, ProvisionLegacy,
         RestoreUnacceptedLegacy, Reject;
    var c := s.core;
    match step
    case DoUpdateRegistration(p, e) =>
      if UpdateRegistration(c, p, e).Ok? {
        UpdateRegistrationKeepsCoreInv(c, p, e);
        SameOperationsKeepsInv(s, UpdateRegistration(c, p, e).value.0);
      }
    case DoProposeSourceRename(m, r, i) =>
      if ProposeSourceRename(c, m, r, i).Ok? {
        ProposeSourceRenameKeepsCoreInv(c, m, r, i);
        SameOperationsKeepsInv(s, ProposeSourceRename(c, m, r, i).value.0);
      }
    case DoProvisionLegacy(p, e) =>
      if ProvisionLegacy(c, p, e).Ok? {
        ProvisionLegacyKeepsCoreInv(c, p, e);
        SameOperationsKeepsInv(s, ProvisionLegacy(c, p, e).value.0);
      }
    case DoRestoreLegacy(p, e, em) =>
      if RestoreUnacceptedLegacy(c, p, e, em).Ok? {
        RestoreLegacyKeepsCoreInv(c, p, e, em);
        SameOperationsKeepsInv(s, RestoreUnacceptedLegacy(c, p, e, em).value.0);
      }
    case DoReject(m, shown, f) =>
      if Reject(c, m, shown, f).Ok? {
        RejectKeepsCoreInv(c, m, shown, f);
        SameOperationsKeepsInv(s, Reject(c, m, shown, f).value);
      }
  }

  // ---------------------------------------------------------------- acknowledge and request

  /** Receipts keep their shape while operation documents stay what they were. */
  lemma RecordsKept(before: map<Id, Row>, after: map<Id, Row>, receipts: map<Id, Receipt>, journal: map<Id, Receipt>)
    requires RecordsOk(before, receipts, journal) && OperationsKept(before, after)
    ensures RecordsOk(after, receipts, journal)
  {
  }

  lemma ShapeKept(before: map<Id, Row>, after: map<Id, Row>, o: Operation, r: Receipt)
    requires OperationsKept(before, after)
    ensures ReceiptShape(before, o, r) ==> ReceiptShape(after, o, r)
  {
  }

  lemma AcknowledgeRunOk(s: System, id: Id)
    requires ProcessOk(s) && Indexed(s.core) && id in s.core.operations && s.core.operations[id].state.Queued?
    ensures RunOk(SetState(s.core, id, Switching, s.core.operations[id].receipt), s.spool, s.root, s.run, s.touched)
  {
    hide ReceiptShape, ReceiptTrue;
    if s.run.Committing? && s.run.receipt.operationId in s.core.operations {
      ShapeKept(s.core.operations, SetState(s.core, id, Switching, s.core.operations[id].receipt).operations,
                s.core.operations[s.run.receipt.operationId].operation, s.run.receipt);
      TruthKept(s.core, SetState(s.core, id, Switching, s.core.operations[id].receipt), s.root);
    }
  }

  lemma TruthKept(c: Core, c': Core, root: Root)
    requires c'.history == c.history
    ensures forall o, r :: ReceiptTrue(c, root, o, r) <==> ReceiptTrue(c', root, o, r)
  {
  }

  /** Admitting a queued switch moves no record and no file. */
  lemma AcknowledgedRecords(s: System, id: Id)
    requires Inv(s) && InFlight(s.core) && id in s.spool.switches && Acknowledge(s.core, id) != s.core
    ensures var c' := Acknowledge(s.core, id);
            && SettledOk(c', s.spool.receipts, s.root.journal)
            && MarkersOk(c', s.spool.switches, s.root.markers, s.root.journal)
            && RequestsOk(c', s.spool.requests, s.root.journal)
            && AdmittedOk(c', s.root.journal)
            && ConsumedOk(c', s.root.journal)
            && TouchedOk(c', s.root.markers, s.root.journal, s.touched)
  {
    hide CoreInv, RecordsOk, ReceiptTrue, RunOk, HistoryShape, Keyed, Exclusive, InFlightCurrent, CurrentOk, TruthOk,
         ContainerOk;
  }

  lemma AcknowledgedHost(s: System, id: Id)
    requires Inv(s) && InFlight(s.core) && Acknowledge(s.core, id) != s.core
    ensures var c' := Acknowledge(s.core, id);
            && CurrentOk(c', s.spool.receipts, s.root.journal, s.root.current)
            && TruthOk(c', s.root)
            && ContainerOk(c', s.root)
  {
    hide CoreInv, RecordsOk, ReceiptTrue, RunOk, HistoryShape, Keyed, Exclusive, InFlightCurrent, SettledOk,
         MarkersOk, RequestsOk, ConsumedOk, TouchedOk;
    TruthKept(s.core, Acknowledge(s.core, id), s.root);
  }

  lemma AcknowledgeStepKeepsInv(s: System, id: Id)
    requires Inv(s) && InFlight(s.core)
    ensures Inv(AcknowledgeStep(s, id))
  {
    hide CoreInv, RecordsOk, SettledOk, MarkersOk, RequestsOk, AdmittedOk, ConsumedOk, CurrentOk, TruthOk,
         ContainerOk, TouchedOk, RunOk, Keyed, Exclusive, InFlightCurrent, HistoryShape;
    var c' := Acknowledge(s.core, id);
    AcknowledgeKeepsCoreInv(s.core, id);
    if id in s.spool.switches && c' != s.core {
      RecordsKept(s.core.operations, c'.operations, s.spool.receipts, s.root.journal);
      AcknowledgedRecords(s, id);
      AcknowledgedHost(s, id);
      AcknowledgeRunOk(s, id);
    }
  }

  /** A new queued operation is unknown to every record so far. */
  lemma InsertKeepsInv(s: System, o: Operation)
    requires Inv(s) && CoreInv(Insert(s.core, o)) && s.core.active.None? && o.id !in s.core.operations
    ensures Inv(s.(core := Insert(s.core, o)))
  {
    hide CoreInv, ReceiptShape;
    assert o.id !in s.root.journal by {
      assert RecordsOk(s.core.operations, s.spool.receipts, s.root.journal);
    }
    RecordsKept(s.core.operations, Insert(s.core, o).operations, s.spool.receipts, s.root.journal);
  }

  lemma RequestStepKeepsInv(s: System, r: Request, newId: Id, f: Facts)
    requires Inv(s)
    ensures Inv(RequestStep(s, r, newId, f))
  {
    hide CoreInv, RecordsOk, SettledOk, MarkersOk, RequestsOk, AdmittedOk, ConsumedOk, CurrentOk, TruthOk,
         ContainerOk, TouchedOk, RunOk, RequestOperation;
    if RequestOperation(s.core, r, newId, f).Ok? {
      RequestKeepsCoreInv(s.core, r, newId, f);
      var (c', o) := RequestOperation(s.core, r, newId, f).value;
      if c' != s.core {
        InsertKeepsInv(s, o);
      }
    }
  }

  // ---------------------------------------------------------------- consume

  /** What consuming a receipt leaves in the tables, apart from the history. */
  lemma ConsumedOperations(c: Core, id: Id, e: Receipt)
    requires Indexed(c) && Exclusive(c) && c.active == Some(id)
    requires c.operations[id].operation.kind.Recover? ==> c.blocked != Some(id)
    ensures var c' := Consumed(c, id, e); var o := c.operations[id].operation;
            && c'.active.None? && c'.operations.Keys == c.operations.Keys
            && OperationsKept(c.operations, c'.operations)
            && (forall x | x in c.operations && Active(c.operations[x].state) :: x == id)
            && (c'.blocked == (if e.outcome.Blocked? then Some(id)
                               else if o.kind.Recover? && e.outcome.Succeeded? then None else c.blocked))
  {
    hide HistoryShape;
  }

  /** The history grows by exactly what root already made current. */
  lemma ConsumedHistory(s: System, id: Id, r: Receipt, e: Receipt)
    requires InFlight(s.core) && RecordsOk(s.core.operations, s.spool.receipts, s.root.journal)
    requires CurrentOk(s.core, s.spool.receipts, s.root.journal, s.root.current)
    requires s.core.active == Some(id) && id in s.spool.receipts && r == s.spool.receipts[id]
    requires e == r || (s.core.operations[id].operation.kind.Rehearse? &&
                        e == PlainReceipt(s.core.operations[id].operation, Failed))
    requires e.outcome == Succeeded ==> AcceptedRow(s.core, s.core.operations[id].operation, e).Ok?
    ensures var c' := Consumed(s.core, id, e);
            && s.root.current == Latest(c'.history)
            && (if AcceptedBy(r).Some? then c'.history == s.core.history + [AcceptedBy(r).value]
                else c'.history == s.core.history)
  {
    hide HistoryShape;
    assert ReceiptShape(s.core.operations, s.core.operations[id].operation, r);
  }

  lemma ConsumedIsInHistory(s: System, id: Id, e: Receipt)
    requires InFlight(s.core) && s.core.active == Some(id) && id in s.root.journal
    requires SettledOk(s.core, s.spool.receipts, s.root.journal) && ConsumedOk(s.core, s.root.journal)
    requires CurrentOk(s.core, s.spool.receipts, s.root.journal, s.root.current)
    requires s.core.operations[id].operation.kind.Recover? ==> s.core.blocked != Some(id)
    requires var h' := Consumed(s.core, id, e).history;
             if AcceptedBy(s.root.journal[id]).Some?
             then h' == s.core.history + [AcceptedBy(s.root.journal[id]).value] else h' == s.core.history
    ensures ConsumedOk(Consumed(s.core, id, e), s.root.journal)
  {
    hide Consumed, HistoryShape;
    ConsumedOperations(s.core, id, e);
    ConsumedKeepsOthers(s.core, id, e);
  }

  /** Settled rows other than the blocked one stay as they are. */
  lemma ConsumedKeepsOthers(c: Core, id: Id, e: Receipt)
    requires Indexed(c) && Exclusive(c) && c.active == Some(id)
    ensures forall x | x in c.operations && x != id && c.blocked != Some(x) ::
              x in Consumed(c, id, e).operations && Consumed(c, id, e).operations[x] == c.operations[x]
  {
  }

  /** Once the receipt is consumed, only a blocked switch keeps a container of its own. */
  lemma ConsumedContainer(s: System, id: Id, r: Receipt, e: Receipt)
    requires InFlight(s.core) && RecordsOk(s.core.operations, s.spool.receipts, s.root.journal)
    requires CurrentOk(s.core, s.spool.receipts, s.root.journal, s.root.current)
    requires TruthOk(s.core, s.root) && ContainerOk(s.core, s.root)
    requires s.core.active == Some(id) && id in s.spool.receipts && r == s.spool.receipts[id]
    requires e == r || (s.core.operations[id].operation.kind.Rehearse? &&
                        e == PlainReceipt(s.core.operations[id].operation, Failed))
    requires e.outcome.Blocked? ==> s.core.blocked.None?
    ensures ContainerOk(Consumed(s.core, id, e), s.root)
  {
    hide HistoryShape;
    var o := s.core.operations[id].operation;
    assert ReceiptShape(s.core.operations, o, r);
    ConsumedOperations(s.core, id, e);
    if !(r.outcome.Blocked? || (r.outcome.Failed? && o.kind.Recover?)) {
      assert AtCurrent(s.root);
    }
  }

  /** With its receipt consumed, nothing is active and every record agrees again. */
  lemma ConsumedRecords(s: System, id: Id, e: Receipt)
    requires InFlight(s.core) && Inv(s) && s.core.active == Some(id) && id in s.spool.receipts
    requires s.core.operations[id].operation.kind.Recover? ==> s.core.blocked != Some(id)
    requires e == s.spool.receipts[id] || e.outcome.Failed?
    ensures var c' := Consumed(s.core, id, e);
            && SettledOk(c', s.spool.receipts, s.root.journal)
            && MarkersOk(c', s.spool.switches, s.root.markers, s.root.journal)
            && RequestsOk(c', s.spool.requests, s.root.journal)
            && AdmittedOk(c', s.root.journal)
            && TruthOk(c', s.root)
            && TouchedOk(c', s.root.markers, s.root.journal, s.touched)
            && RunOk(c', s.spool, s.root, s.run, s.touched)
  {
    hide CoreInv, HistoryShape, Consumed, ReceiptShape, CurrentOk, ContainerOk, InFlightCurrent;
    assert Exclusive(s.core);
    ConsumedOperations(s.core, id, e);
  }

  lemma ConsumeStepKeepsInv(s: System, id: Id, f: Facts)
    requires Inv(s) && InFlight(s.core)
    ensures Inv(ConsumeStep(s, id, f))
  {
    hide CoreInv, ReadAuthority, Consume, RecordsOk, Consumed, SettledOk, MarkersOk, RequestsOk, AdmittedOk,
         ConsumedOk, CurrentOk, TruthOk, ContainerOk, TouchedOk, RunOk, AcceptedRow, ReceiptFits;
    if id in s.spool.receipts && id in s.core.operations && Active(s.core.operations[id].state) &&
       Consume(s.core, id, s.spool.receipts[id], f).Ok? {
      var o := s.core.operations[id].operation;
      var r := s.spool.receipts[id];
      var e := EffectiveReceipt(s.core, o, r, f);
      SpoolReceiptFits(s, id);
      ConsumeForm(s.core, id, r, f);
      BlockedOutcomeIsFree(s.core, id, r, f);
      ConsumeKeepsCoreInv(s.core, id, r, f);
      ConsumedOperations(s.core, id, e);
      ConsumedRecords(s, id, e);
      ConsumedHistory(s, id, r, e);
      ConsumedContainer(s, id, r, e);
      ConsumedIsInHistory(s, id, e);
      RecordsKept(s.core.operations, Consumed(s.core, id, e).operations, s.spool.receipts, s.root.journal);
      CurrentIsLatest(Consumed(s.core, id, e), s.spool.receipts, s.root.journal, s.root.current);
    } else {
      SettledConsumeIsNoop(s, id, f);
    }
  }

  lemma CurrentIsLatest(c: Core, receipts: map<Id, Receipt>, journal: map<Id, Receipt>, current: Option<Snapshot>)
    requires c.active.None? && current == Latest(c.history)
    ensures CurrentOk(c, receipts, journal, current)
  {
  }

  lemma SpoolReceiptFits(s: System, id: Id)
    requires RecordsOk(s.core.operations, s.spool.receipts, s.root.journal) && id in s.spool.receipts
    ensures id in s.root.journal && s.root.journal[id] == s.spool.receipts[id] && id in s.core.operations
    ensures ReceiptFits(s.core.operations, s.core.operations[id].operation, s.spool.receipts[id])
  {
  }

  lemma SettledConsumeIsNoop(s: System, id: Id, f: Facts)
    requires id !in s.spool.receipts || id !in s.core.operations || !Active(s.core.operations[id].state) ||
             Consume(s.core, id, s.spool.receipts[id], f).Err?
    ensures ConsumeStep(s, id, f) == s
  {
  }

  // ---------------------------------------------------------------- every run

  lemma CoreStepKeepsInv(s: System, step: CoreStep)
    requires Inv(s) && InFlight(s.core)
    ensures Inv(ApplyCore(s, step))
  {
    hide Inv, InFlight;
    match step {
      case DoRequest(r, id, f) => RequestStepKeepsInv(s, r, id, f);
      case DoAcknowledge(id) => AcknowledgeStepKeepsInv(s, id);
      case DoPublishRequest(id) => RequestFilesKeepInv(s, id);
      case DoConsume(id, f) => ConsumeStepKeepsInv(s, id, f);
      case DoUnlinkRequest(id) => RequestFilesKeepInv(s, id);
      case DoUpdateRegistration(_, _) => ChangeKeepsInv(s, step);
      case DoProposeSourceRename(_, _, _) => ChangeKeepsInv(s, step);
      case DoProvisionLegacy(_, _) => ChangeKeepsInv(s, step);
      case DoRestoreLegacy(_, _, _) => ChangeKeepsInv(s, step);
      case DoReject(_, _, _) => ChangeKeepsInv(s, step);
    }
  }

  lemma CommitWriteKeepsInv(s: System)
    requires Inv(s) && InFlight(s.core)
    ensures Inv(CommitWrite(s))
  {
    hide Inv, InFlight;
    if s.run.Committing? {
      if s.run.write == 0 {
        CommitJournalKeepsInv(s);
      } else if s.run.write == 1 {
        CommitCurrentKeepsInv(s);
      } else if s.run.write == 2 {
        CommitSpoolKeepsInv(s);
      } else {
        CommitUnmarkKeepsInv(s);
      }
    }
  }

  predicate Records(step: RootStep) {
    step.DoAnnounce? || step.DoMark? || step.DoCommitWrite? || step.DoSweep?
  }

  /** The process part of Inv after a step that writes nothing. */
  lemma DecisionRunOk(s: System, step: RootStep)
    requires Inv(s) && InFlight(s.core) && !Records(step)
    ensures ProcessOk(ApplyRoot(s, step))
  {
    hide CoreInv, InFlight, RecordsOk, SettledOk, MarkersOk, RequestsOk, AdmittedOk, ConsumedOk, CurrentOk, TruthOk,
         ContainerOk, TouchedOk, ProcessOk;
    hide Begin, Rehearsed, Poll, Recheck, Probe, FinishDeploy, FinishRetire, Raise, FallAuthorize, RestoreProbe,
         RecoverAdopt, RecoverKeep, RecoverRestore, FinishRecover, BootBegin, BootRecheck, BootKeep, Crash;
    ProcessOf(s);
    var anyHost := Host(Facts(0, None, None, false, false), s.core.registration, false, false);
    match step {
      case DoBegin(id, h) => BeginRunOk(s, id, h);
      case DoRehearsed(image) => RehearsedRunOk(s, image);
      case DoPoll => MovingRunOk(s, anyHost);
      case DoRecheck(h) => MovingRunOk(s, h);
      case DoContradict => ContradictRunOk(s);
      case DoProbe => MovingRunOk(s, anyHost);
      case DoFinishDeploy(h) => FinishDeployRunOk(s, h);
      case DoFinishRetire(archive, h) => FinishRetireRunOk(s, archive, h);
      case DoRaise => RaiseRunOk(s);
      case DoFallAuthorize(h) => MovingRunOk(s, h);
      case DoRestoreProbe => MovingRunOk(s, anyHost);
      case DoFinishFall => FinishFallRunOk(s);
      case DoRecoverAdopt => RecoveringRunOk(s);
      case DoRecoverKeep => RecoveringRunOk(s);
      case DoRecoverRestore => RecoveringRunOk(s);
      case DoFinishRecover(h) => FinishRecoverRunOk(s, h);
      case DoBootBegin(h) => BootBeginRunOk(s, h);
      case DoBootRecheck(h) => MovingRunOk(s, h);
      case DoBootKeep => MovingRunOk(s, anyHost);
      case DoCrash => MovingRunOk(s, anyHost);
    }
  }

  lemma ProcessOf(s: System)
    requires Inv(s)
    ensures ProcessOk(s) && HistoryBacked(s.core)
  {
  }

  lemma DecisionMovesOnlyTheProcess(s: System, step: RootStep)
    requires !Records(step)
    ensures ApplyRoot(s, step) == s.(run := ApplyRoot(s, step).run)
  {
    hide RootAuthority, ReadInstalledAuthority, Adoptable, Contradicts, ProbePasses;
  }

  lemma RootStepKeepsInv(s: System, step: RootStep)
    requires Inv(s) && InFlight(s.core)
    ensures Inv(ApplyRoot(s, step))
  {
    hide Inv, InFlight, ProcessOk;
    match step {
      case DoAnnounce => AnnounceKeepsInv(s);
      case DoMark => MarkKeepsInv(s);
      case DoCommitWrite => CommitWriteKeepsInv(s);
      case DoSweep(id) => SweepKeepsInv(s, id);
      case _ => DecisionKeepsInv(s, step);
    }
  }

  lemma DecisionKeepsInv(s: System, step: RootStep)
    requires Inv(s) && InFlight(s.core) && !Records(step)
    ensures Inv(ApplyRoot(s, step))
  {
    hide Inv, InFlight, RunOk, ApplyRoot;
    DecisionRunOk(s, step);
    DecisionMovesOnlyTheProcess(s, step);
    RunChangeKeepsInv(s, ApplyRoot(s, step).run);
  }

  lemma HostStepKeepsInv(s: System, step: HostStep)
    requires Inv(s) && InFlight(s.core)
    ensures Inv(ApplyHost(s, step))
  {
    hide Inv, InFlight;
    match step {
      case DoRemove => SwitchTouchesKeepInv(s, true);
      case DoLaunch(running) => SwitchTouchesKeepInv(s, running);
      case DoRestart => SwitchTouchesKeepInv(s, true);
      case DoFallTearDown => RestoreTouchesKeepInv(s, true);
      case DoRestoreRemove => RestoreTouchesKeepInv(s, true);
      case DoRestoreLaunch(running) => RestoreTouchesKeepInv(s, running);
      case DoRecoverTearDown => RecoverTearDownKeepsInv(s);
      case DoBootRemove => BootTouchesKeepInv(s, true);
      case DoBootLaunch(running) => BootTouchesKeepInv(s, running);
      case DoBootProbe(passes) => BootTouchesKeepInv(s, passes);
      case DoContainerStops => OutsideKeepsInv(s);
      case DoContainerGone => OutsideKeepsInv(s);
    }
  }

  /** Whatever step comes next, the invariant survives it. */
  lemma ApplyKeepsInv(s: System, step: Step)
    requires Inv(s)
    ensures Inv(Apply(s, step))
  {
    InFlightOf(s);
    hide Inv, InFlight, ApplyCore, ApplyRoot, ApplyHost;
    match step {
      case ByCore(c) => CoreStepKeepsInv(s, c);
      case ByRoot(r) => RootStepKeepsInv(s, r);
      case OnHost(h) => HostStepKeepsInv(s, h);
    }
  }

  lemma InFlightOf(s: System)
    requires Inv(s)
    ensures InFlight(s.core)
  {
    InFlightFacts(s.core);
  }

  /** The invariant holds after every interleaving of core, root, boots and crashes. */
  lemma {:induction false} ReachableInv(registration: Registration, steps: seq<Step>)
    ensures Inv(Execution(Start(registration), steps))
    decreases |steps|
  {
    hide Inv, Apply;
    if steps == [] {
      StartInv(registration);
    } else {
      ReachableInv(registration, steps[..|steps| - 1]);
      ApplyKeepsInv(Execution(Start(registration), steps[..|steps| - 1]), steps[|steps| - 1]);
    }
  }
}
