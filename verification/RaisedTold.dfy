/** The host as core is told of it: where a raising write left a journal receipt that the
    spool contradicts, the spool's receipt is the one every later step goes by. Up to that
    the protocol's own invariant holds on. */
module RaisedTold {
  import opened Wrappers
  import opened DeploymentContracts
  import opened Ledger
  import opened LedgerInvariant
  import opened Protocol
  import opened ProtocolInvariant
  import opened ProtocolSteps
  import opened ProtocolCoreSteps
  import opened DeploymentRuns
  import opened RaisedCommits
  import opened RaisedInvariant

  /** The journal with the spool's receipts over its own. */
  function AsTold(s: System): System { s.(root := s.root.(journal := s.root.journal + s.spool.receipts)) }

  function Stopped(s: System): System { s.(run := Idle) }

  /** Only a recovery's receipts ever differ while nothing is lost. */
  predicate OnlyRecoveriesDiffer(operations: map<Id, Row>, journal: map<Id, Receipt>, receipts: map<Id, Receipt>) {
    forall id | id in receipts ::
      && id in journal && id in operations
      && (receipts[id] == journal[id] || operations[id].operation.kind.Recover?)
  }

  predicate Differ(s: System) { OnlyRecoveriesDiffer(s.core.operations, s.root.journal, s.spool.receipts) }

  // ---------------------------------------------------------------- steps see only what is told

  lemma CoreSeesTold(s: System, step: CoreStep)
    ensures AsTold(ApplyCore(s, step)) == ApplyCore(AsTold(s), step)
    ensures Stopped(ApplyCore(s, step)) == ApplyCore(Stopped(s), step)
    ensures forall run: Run :: ApplyCore(s, step).(run := run) == ApplyCore(s.(run := run), step)
  {
    hide RequestOperation, Acknowledge, Consume, UpdateRegistration, ProposeSourceRename, ProvisionLegacy,
         RestoreUnacceptedLegacy, Reject;
  }

  lemma AuthoritySeesTold(s: System, o: Operation, h: Host)
    ensures RootAuthority(AsTold(s), o, h) == RootAuthority(s, o, h)
  {
    hide ReadAuthority;
  }

  /** The operation a recovery names is a switch, whose receipts do not differ. */
  lemma RecoverySeesTold(s: System)
    requires Differ(s) && Inv(AsTold(s))
    ensures AtRecovery(AsTold(s)) == AtRecovery(s)
    ensures AtRecovery(s) ==> Adoptable(AsTold(s)) == Adoptable(s)
  {
    hide HistoryShape, HistoryBacked, DeploysRehearsed, RegistrationFollows, InFlightCurrent, RecordsOk, SettledOk,
         MarkersOk, RequestsOk, AdmittedOk, ConsumedOk, CurrentOk, TruthOk, ContainerOk, TouchedOk, PhaseOk;
    if s.run.Executing? && s.run.operation.recovers.Some? {
      var o := s.run.operation;
      assert s.core.operations[o.id].operation == o && s.core.blocked == o.recovers;
    }
  }

  lemma BeginSeesTold(s: System, id: Id, h: Host)
    ensures AsTold(Begin(s, id, h)) == Begin(AsTold(s), id, h)
  {
    hide ReadAuthority;
  }

  /** What the invariant says of a commit in progress, in terms of the journal as it is. */
  predicate Underway(s: System) {
    s.run.Committing? ==>
      var r := s.run.receipt; var id := r.operationId;
      && id in s.core.operations
      && (s.run.write < 3 ==> id !in s.spool.receipts)
      && (s.run.write == 0 ==> id !in s.root.journal)
      && (1 <= s.run.write < 3 ==> id in s.root.journal && s.root.journal[id] == r)
  }

  lemma CommitUnderway(s: System)
    requires Inv(AsTold(s))
    ensures Underway(s)
  {
    hide CoreInv, RecordsOk, SettledOk, MarkersOk, RequestsOk, AdmittedOk, ConsumedOk, CurrentOk, TruthOk, ContainerOk,
         TouchedOk, ReceiptShape, ReceiptTrue;
    if s.run.Committing? {
      assert CommittingOk(s.core, s.spool, AsTold(s).root, s.run, s.touched);
    }
  }

  lemma WriteSeesTold(s: System)
    requires Differ(s) && Underway(s)
    ensures AsTold(CommitWrite(s)) == CommitWrite(AsTold(s)) && Differ(CommitWrite(s))
  {
    if s.run.Committing? {
      assert AsTold(CommitWrite(s)).root.journal == CommitWrite(AsTold(s)).root.journal;
    }
  }

  lemma CommitSeesTold(s: System)
    requires Differ(s) && Inv(AsTold(s))
    ensures AsTold(CommitWrite(s)) == CommitWrite(AsTold(s)) && Differ(CommitWrite(s))
  {
    hide Inv, Differ, Underway, CommitWrite;
    CommitUnderway(s);
    WriteSeesTold(s);
  }

  lemma SwitchingSeesTold(s: System, h: Host, archive: Option<Digest>, image: Option<ImageId>)
    ensures AsTold(Rehearsed(s, image)) == Rehearsed(AsTold(s), image) && AsTold(Poll(s)) == Poll(AsTold(s))
    ensures AsTold(Recheck(s, h)) == Recheck(AsTold(s), h) && AsTold(Probe(s)) == Probe(AsTold(s))
    ensures AsTold(FinishDeploy(s, h)) == FinishDeploy(AsTold(s), h)
    ensures AsTold(FinishRetire(s, archive, h)) == FinishRetire(AsTold(s), archive, h)
    ensures AsTold(Contradict(s)) == Contradict(AsTold(s))
  {
    hide RootAuthority;
    if s.run.Executing? {
      AuthoritySeesTold(s, s.run.operation, h);
    }
  }

  lemma FallingSeesTold(s: System, h: Host)
    ensures AsTold(Raise(s)) == Raise(AsTold(s)) && AsTold(FallAuthorize(s, h)) == FallAuthorize(AsTold(s), h)
    ensures AsTold(RestoreProbe(s)) == RestoreProbe(AsTold(s)) && AsTold(FinishFall(s)) == FinishFall(AsTold(s))
    ensures AsTold(Crash(s)) == Crash(AsTold(s)) && AsTold(FinishRecover(s, h)) == FinishRecover(AsTold(s), h)
  {
    hide RootAuthority;
    if s.run.Executing? {
      AuthoritySeesTold(s, s.run.operation, h);
    }
  }

  lemma RecoveringSeesTold(s: System)
    requires Differ(s) && Inv(AsTold(s))
    ensures AsTold(RecoverAdopt(s)) == RecoverAdopt(AsTold(s)) && AsTold(RecoverKeep(s)) == RecoverKeep(AsTold(s))
    ensures AsTold(RecoverRestore(s)) == RecoverRestore(AsTold(s))
    ensures AsTold(RecoverTearDown(s)) == RecoverTearDown(AsTold(s))
  {
    RecoverySeesTold(s);
    hide Inv, AtRecovery, Adoptable, Differ;
  }

  lemma RecordingSeesTold(s: System, id: Id)
    ensures AsTold(Announce(s)) == Announce(AsTold(s)) && AsTold(Mark(s)) == Mark(AsTold(s))
    ensures AsTold(Sweep(s, id)) == Sweep(AsTold(s), id)
  {
  }

  lemma BootingSeesTold(s: System, h: Host)
    ensures AsTold(BootBegin(s, h)) == BootBegin(AsTold(s), h) && AsTold(BootRecheck(s, h)) == BootRecheck(AsTold(s), h)
    ensures AsTold(BootKeep(s)) == BootKeep(AsTold(s))
  {
    hide ReadInstalledAuthority;
  }

  predicate UpToSwitch(step: RootStep) {
    || step.DoBegin? || step.DoRehearsed? || step.DoAnnounce? || step.DoPoll? || step.DoRecheck? || step.DoMark?
    || step.DoContradict? || step.DoProbe? || step.DoFinishDeploy? || step.DoFinishRetire? || step.DoSweep?
  }

  lemma SwitchSeesTold(s: System, step: RootStep)
    requires UpToSwitch(step)
    ensures AsTold(ApplyRoot(s, step)) == ApplyRoot(AsTold(s), step)
  {
    hide AsTold, Begin, Rehearsed, Poll, Recheck, Probe, FinishDeploy, FinishRetire, Contradict, Announce, Mark, Sweep;
    var anyHost := Host(Facts(0, None, None, false, false), s.core.registration, false, false);
    match step {
      case DoBegin(id, h) => BeginSeesTold(s, id, h);
      case DoRehearsed(image) => SwitchingSeesTold(s, anyHost, None, image);
      case DoAnnounce => RecordingSeesTold(s, 0);
      case DoPoll => SwitchingSeesTold(s, anyHost, None, None);
      case DoRecheck(h) => SwitchingSeesTold(s, h, None, None);
      case DoMark => RecordingSeesTold(s, 0);
      case DoContradict => SwitchingSeesTold(s, anyHost, None, None);
      case DoProbe => SwitchingSeesTold(s, anyHost, None, None);
      case DoFinishDeploy(h) => SwitchingSeesTold(s, h, None, None);
      case DoFinishRetire(archive, h) => SwitchingSeesTold(s, h, archive, None);
      case DoSweep(id) => RecordingSeesTold(s, id);
    }
  }

  lemma RootSeesTold(s: System, step: RootStep)
    requires Differ(s) && Inv(AsTold(s))
    ensures AsTold(ApplyRoot(s, step)) == ApplyRoot(AsTold(s), step)
  {
    hide Inv, Differ, AsTold, Begin, Raise, FallAuthorize, RestoreProbe, RecoverAdopt, RecoverKeep, RecoverRestore,
         FinishRecover, BootBegin, BootRecheck, BootKeep, Crash, FinishFall, CommitWrite;
    var anyHost := Host(Facts(0, None, None, false, false), s.core.registration, false, false);
    if UpToSwitch(step) {
      SwitchSeesTold(s, step);
      return;
    }
    match step {
      case DoRaise => FallingSeesTold(s, anyHost);
      case DoFallAuthorize(h) => FallingSeesTold(s, h);
      case DoRestoreProbe => FallingSeesTold(s, anyHost);
      case DoFinishFall => FallingSeesTold(s, anyHost);
      case DoRecoverAdopt => RecoveringSeesTold(s);
      case DoRecoverKeep => RecoveringSeesTold(s);
      case DoRecoverRestore => RecoveringSeesTold(s);
      case DoFinishRecover(h) => FallingSeesTold(s, h);
      case DoCommitWrite => CommitSeesTold(s);
      case DoBootBegin(h) => BootingSeesTold(s, h);
      case DoBootRecheck(h) => BootingSeesTold(s, h);
      case DoBootKeep => BootingSeesTold(s, anyHost);
      case DoCrash => FallingSeesTold(s, anyHost);
    }
  }

  lemma EffectsSeeTold(s: System, step: HostStep)
    requires !step.DoRecoverTearDown?
    ensures AsTold(ApplyHost(s, step)) == ApplyHost(AsTold(s), step)
  {
  }

  lemma HostSeesTold(s: System, step: HostStep)
    requires Differ(s) && Inv(AsTold(s))
    ensures AsTold(ApplyHost(s, step)) == ApplyHost(AsTold(s), step)
  {
    hide Inv, Differ, AsTold, RecoverTearDown;
    if step.DoRecoverTearDown? {
      RecoveringSeesTold(s);
    } else {
      EffectsSeeTold(s, step);
    }
  }

  lemma StepSeesTold(s: System, step: Step)
    requires Differ(s) && Inv(AsTold(s))
    ensures AsTold(Apply(s, step)) == Apply(AsTold(s), step)
  {
    hide Inv, Differ, AsTold, ApplyCore, ApplyRoot, ApplyHost;
    match step
    case ByCore(c) => CoreSeesTold(s, c);
    case ByRoot(r) => RootSeesTold(s, r);
    case OnHost(h) => HostSeesTold(s, h);
  }

  // ---------------------------------------------------------------- the receipts that differ

  lemma DifferKept(s: System, s': System)
    requires Differ(s) && OperationsKept(s.core.operations, s'.core.operations)
    requires s'.spool.receipts == s.spool.receipts && RecordsLater(s.root.journal, s'.root.journal)
    ensures Differ(s')
  {
  }

  lemma DecisionLeavesReceipts(s: System, step: RootStep)
    requires !step.DoCommitWrite?
    ensures ApplyRoot(s, step).spool.receipts == s.spool.receipts
  {
    hide RootAuthority, ReadInstalledAuthority, Adoptable, Contradicts, ProbePasses, AtRecovery;
  }

  lemma CommitIsApply(s: System)
    ensures ApplyRoot(s, DoCommitWrite) == CommitWrite(s)
  {
  }

  lemma StepKeepsDiffer(s: System, step: Step)
    requires Differ(s) && Inv(AsTold(s))
    ensures Differ(Apply(s, step))
  {
    hide Differ, AsTold, ApplyCore, ApplyRoot, ApplyHost, CoreLater;
    match step
    case ByCore(c) =>
      CoreKeepsDocuments(s, c);
      CoreStepLeavesRoot(s, c);
      DifferKept(s, ApplyCore(s, c));
    case ByRoot(r) =>
      if r.DoCommitWrite? {
        CommitSeesTold(s);
        CommitIsApply(s);
      } else {
        RootStepIsLater(s, r);
        DecisionLeavesReceipts(s, r);
        DifferKept(s, ApplyRoot(s, r));
      }
    case OnHost(h) =>
      HostLeavesRecords(s, h);
      DifferKept(s, ApplyHost(s, h));
  }

  lemma CoreKeepsDocuments(s: System, step: CoreStep)
    requires Inv(AsTold(s))
    ensures OperationsKept(s.core.operations, ApplyCore(s, step).core.operations)
  {
    hide Inv, ApplyCore;
    CoreStepIsLater(AsTold(s), step);
    CoreSeesTold(s, step);
  }
}
