/** What survives even where a raising write lets journal and spool disagree: core's tables
    stay consistent, receipts answer their own operations, and an operation without a spool
    receipt is still in flight. */
module RaisedInvariant {
  import opened Wrappers
  import opened DeploymentContracts
  import opened Ledger
  import opened LedgerInvariant
  import opened Protocol
  import opened ProtocolInvariant
  import opened ProtocolCoreSteps
  import opened RaisedCommits

  predicate Startable(operations: map<Id, Row>, id: Id) {
    id in operations && !operations[id].operation.kind.Retire?
  }

  /** A receipt core may consume, installing only what some deploy or rollback started. */
  predicate Fits(operations: map<Id, Row>, o: Operation, r: Receipt) {
    && ReceiptFits(operations, o, r)
    && (r.installed.Some? ==> Startable(operations, r.installed.value.operationId))
    && (r.retired.Some? ==> r.retired.value.Retired?)
  }

  predicate JournalSound(operations: map<Id, Row>, journal: map<Id, Receipt>) {
    forall id | id in journal :: id in operations && Fits(operations, operations[id].operation, journal[id])
  }

  predicate SpoolSound(operations: map<Id, Row>, journal: map<Id, Receipt>, receipts: map<Id, Receipt>) {
    forall id | id in receipts ::
      id in journal && id in operations && Fits(operations, operations[id].operation, receipts[id])
  }

  predicate SettledSound(c: Core, receipts: map<Id, Receipt>) {
    forall id | id in c.operations && !Active(c.operations[id].state) :: id in receipts
  }

  predicate MarkersSound(operations: map<Id, Row>, markers: set<Id>) {
    forall id | id in markers :: id in operations && Switches(operations[id].operation.kind)
  }

  predicate LabelsSound(operations: map<Id, Row>, current: Option<Snapshot>, container: Option<Container>) {
    && (container.Some? ==> Startable(operations, container.value.operation))
    && (current.Some? && current.value.Installed? ==> Startable(operations, current.value.operationId))
  }

  predicate PhaseSound(operations: map<Id, Row>, o: Operation, phase: Phase) {
    match phase
    case Preparing => true
    case Announced => true
    case Admitted => true
    case Authorised => o.kind.Deploy? || o.kind.Rollback?
    case Marked(switched) => Switches(o.kind) && (switched ==> !o.kind.Retire?)
    case Removed => Switches(o.kind)
    case Launched => o.kind.Deploy? || o.kind.Rollback?
    case Probed => o.kind.Deploy? || o.kind.Rollback?
    case Adopted =>
      && o.kind.Recover? && o.recovers.Some? && Startable(operations, o.recovers.value)
      && operations[o.recovers.value].operation.selection == o.selection
    case _ => Switches(o.kind) || o.kind.Recover?
  }

  predicate Known(operations: map<Id, Row>, o: Operation) {
    o.id in operations && operations[o.id].operation == o
  }

  /** An execution is of an operation in flight, or it is the handler of a raised commit. */
  predicate ExecutingSound(c: Core, journal: map<Id, Receipt>, o: Operation, phase: Phase) {
    && Known(c.operations, o)
    && (if o.id in journal then o.kind.Retire? && FallingBack(phase) else IsActive(c, o.id))
    && PhaseSound(c.operations, o, phase)
  }

  predicate CommittingSound(c: Core, journal: map<Id, Receipt>, receipts: map<Id, Receipt>, r: Receipt, write: nat) {
    && r.operationId in c.operations && Fits(c.operations, c.operations[r.operationId].operation, r)
    && (write >= 1 ==> r.operationId in journal)
    && (r.outcome.Succeeded? ==>
          && (write == 0 ==> r.operationId !in journal)
          && (write >= 1 ==> r.operationId in journal && journal[r.operationId] == r)
          && (write < 3 ==> IsActive(c, r.operationId) && r.operationId !in receipts)
          && (write >= 3 ==> r.operationId in receipts && receipts[r.operationId] == r))
  }

  predicate RunSound(c: Core, journal: map<Id, Receipt>, current: Option<Snapshot>, receipts: map<Id, Receipt>,
                     run: Run)
  {
    match run
    case Idle => true
    case Executing(o, _, _, _, phase) => ExecutingSound(c, journal, o, phase)
    case Committing(r, write) => CommittingSound(c, journal, receipts, r, write)
    case Booting(target, _) => current == Some(target)
  }

  /** What a commit inside the try block still has at hand. */
  predicate TryingSound(operations: map<Id, Row>, run: Run, trying: Option<Run>) {
    trying.Some? ==>
      && trying.value.Executing? && run.Committing?
      && trying.value.operation.id == run.receipt.operationId && Known(operations, trying.value.operation)
      && (trying.value.operation.kind.Recover? || trying.value.operation.kind.Retire?)
      && run.receipt.outcome.Succeeded? && run.write <= 3
      && (trying.value.operation.kind.Retire? ==> !FallingBack(trying.value.phase) && trying.value.before.Some?)
  }

  predicate RecordsSound(c: Core, root: Root, receipts: map<Id, Receipt>) {
    && JournalSound(c.operations, root.journal)
    && SpoolSound(c.operations, root.journal, receipts)
    && SettledSound(c, receipts)
    && MarkersSound(c.operations, root.markers)
    && LabelsSound(c.operations, root.current, root.container)
  }

  predicate Sound(x: Watched) {
    && CoreInv(x.sys.core)
    && RecordsSound(x.sys.core, x.sys.root, x.sys.spool.receipts)
    && RunSound(x.sys.core, x.sys.root.journal, x.sys.root.current, x.sys.spool.receipts, x.sys.run)
    && TryingSound(x.sys.core.operations, x.sys.run, x.trying)
  }

  lemma BegunSound(registration: Registration)
    ensures Sound(Begun(registration))
  {
  }

  // ---------------------------------------------------------------- core's steps

  lemma FitsKept(before: map<Id, Row>, after: map<Id, Row>, o: Operation, r: Receipt)
    requires OperationsKept(before, after) && Fits(before, o, r)
    ensures Fits(after, o, r)
  {
  }

  /** A core step keeps documents, settles only what has a spool receipt, and leaves an
      operation without one in flight. */
  predicate CoreMoves(c: Core, c': Core, receipts: map<Id, Receipt>) {
    && OperationsKept(c.operations, c'.operations)
    && SettledSound(c', receipts)
    && (forall id | id in c.operations && IsActive(c, id) && id !in receipts :: IsActive(c', id))
  }

  lemma RecordsStaySound(c: Core, c': Core, root: Root, receipts: map<Id, Receipt>)
    requires RecordsSound(c, root, receipts) && CoreMoves(c, c', receipts)
    ensures RecordsSound(c', root, receipts)
  {
    hide Fits;
    forall id | id in root.journal
      ensures id in c'.operations && Fits(c'.operations, c'.operations[id].operation, root.journal[id])
    {
      FitsKept(c.operations, c'.operations, c.operations[id].operation, root.journal[id]);
    }
    forall id | id in receipts
      ensures id in c'.operations && Fits(c'.operations, c'.operations[id].operation, receipts[id])
    {
      FitsKept(c.operations, c'.operations, c.operations[id].operation, receipts[id]);
    }
  }

  lemma CoreMoveKeepsSound(x: Watched, c': Core)
    requires Sound(x) && CoreInv(c') && CoreMoves(x.sys.core, c', x.sys.spool.receipts)
    ensures Sound(x.(sys := x.sys.(core := c')))
  {
    hide CoreInv, RecordsSound, Fits;
    RecordsStaySound(x.sys.core, c', x.sys.root, x.sys.spool.receipts);
    if x.sys.run.Committing? {
      var r := x.sys.run.receipt;
      FitsKept(x.sys.core.operations, c'.operations, x.sys.core.operations[r.operationId].operation, r);
    }
    if x.sys.run.Executing? && x.sys.run.operation.id !in x.sys.root.journal {
      NoReceiptWithoutJournal(x.sys, x.sys.run.operation.id);
    }
  }

  lemma NoReceiptWithoutJournal(s: System, id: Id)
    requires RecordsSound(s.core, s.root, s.spool.receipts) && id !in s.root.journal
    ensures id !in s.spool.receipts
  {
  }

  lemma NothingMoves(c: Core, c': Core, receipts: map<Id, Receipt>)
    requires SettledSound(c, receipts) && SameOperations(c, c')
    ensures CoreMoves(c, c', receipts)
  {
  }

  lemma RequestMoves(c: Core, r: Request, newId: Id, f: Facts, receipts: map<Id, Receipt>)
    requires CoreInv(c) && SettledSound(c, receipts) && RequestOperation(c, r, newId, f).Ok?
    ensures CoreMoves(c, RequestOperation(c, r, newId, f).value.0, receipts)
  {
    hide CoreInv, RequestOperation;
    RequestKeepsCoreInv(c, r, newId, f);
  }

  lemma AcknowledgeMoves(c: Core, id: Id, receipts: map<Id, Receipt>)
    requires CoreInv(c) && SettledSound(c, receipts)
    ensures CoreMoves(c, Acknowledge(c, id), receipts)
  {
    hide HistoryShape, HistoryBacked, DeploysRehearsed, RegistrationFollows, Exclusive, InFlightCurrent;
  }

  lemma ConsumeMoves(c: Core, id: Id, f: Facts, receipts: map<Id, Receipt>)
    requires CoreInv(c) && SettledSound(c, receipts) && id in receipts && Consume(c, id, receipts[id], f).Ok?
    ensures CoreMoves(c, Consume(c, id, receipts[id], f).value, receipts)
  {
    hide Consume, EffectiveReceipt, HistoryShape, HistoryBacked, DeploysRehearsed, RegistrationFollows;
    if id in c.operations && Active(c.operations[id].state) {
      ConsumeForm(c, id, receipts[id], f);
    } else {
      SettledIsLeftAlone(c, id, receipts[id], f);
    }
  }

  lemma SettledIsLeftAlone(c: Core, id: Id, r: Receipt, f: Facts)
    requires id !in c.operations || !Active(c.operations[id].state)
    ensures Consume(c, id, r, f) == Ok(c)
  {
  }

  lemma ConsumeKeepsTables(c: Core, root: Root, id: Id, f: Facts, receipts: map<Id, Receipt>)
    requires CoreInv(c) && RecordsSound(c, root, receipts) && id in receipts && Consume(c, id, receipts[id], f).Ok?
    ensures CoreInv(Consume(c, id, receipts[id], f).value)
  {
    hide CoreInv, Consume;
    if Active(c.operations[id].state) {
      ConsumeKeepsCoreInv(c, id, receipts[id], f);
    } else {
      SettledIsLeftAlone(c, id, receipts[id], f);
    }
  }

  lemma SoundParts(x: Watched)
    requires Sound(x)
    ensures CoreInv(x.sys.core) && RecordsSound(x.sys.core, x.sys.root, x.sys.spool.receipts)
    ensures SettledSound(x.sys.core, x.sys.spool.receipts)
  {
  }

  lemma CoreStepKeepsSound(x: Watched, step: CoreStep)
    requires Sound(x)
    ensures Sound(Act(x, Does(ByCore(step))))
  {
    hide Sound, CoreInv, RecordsSound, SettledSound, CoreMoves, SameOperations, RequestOperation, Acknowledge, Consume,
         UpdateRegistration, ProposeSourceRename, ProvisionLegacy, RestoreUnacceptedLegacy, Reject;
    SoundParts(x);
    var c, receipts := x.sys.core, x.sys.spool.receipts;
    TryingSurvives(x, step);
    match step
    case DoRequest(r, id, f) =>
      if RequestOperation(c, r, id, f).Ok? {
        RequestKeepsCoreInv(c, r, id, f);
        RequestMoves(c, r, id, f, receipts);
        CoreMoveKeepsSound(x, RequestOperation(c, r, id, f).value.0);
      }
    case DoAcknowledge(id) =>
      AcknowledgeKeepsCoreInv(c, id);
      AcknowledgeMoves(c, id, receipts);
      CoreMoveKeepsSound(x, Acknowledge(c, id));
    case DoPublishRequest(id) => RequestFilesKeepSound(x, PublishRequest(x.sys, id).spool.requests);
    case DoConsume(id, f) =>
      if id in receipts && Consume(c, id, receipts[id], f).Ok? {
        ConsumeKeepsTables(c, x.sys.root, id, f, receipts);
        ConsumeMoves(c, id, f, receipts);
        CoreMoveKeepsSound(x, Consume(c, id, receipts[id], f).value);
      }
    case DoUnlinkRequest(id) => RequestFilesKeepSound(x, UnlinkRequest(x.sys, id).spool.requests);
    case DoUpdateRegistration(p, e) =>
      if UpdateRegistration(c, p, e).Ok? {
        UpdateRegistrationKeepsCoreInv(c, p, e);
        NothingMoves(c, UpdateRegistration(c, p, e).value.0, receipts);
        CoreMoveKeepsSound(x, UpdateRegistration(c, p, e).value.0);
      }
    case DoProposeSourceRename(m, r, i) =>
      if ProposeSourceRename(c, m, r, i).Ok? {
        ProposeSourceRenameKeepsCoreInv(c, m, r, i);
        NothingMoves(c, ProposeSourceRename(c, m, r, i).value.0, receipts);
        CoreMoveKeepsSound(x, ProposeSourceRename(c, m, r, i).value.0);
      }
    case DoProvisionLegacy(p, e) =>
      if ProvisionLegacy(c, p, e).Ok? {
        ProvisionLegacyKeepsCoreInv(c, p, e);
        NothingMoves(c, ProvisionLegacy(c, p, e).value.0, receipts);
        CoreMoveKeepsSound(x, ProvisionLegacy(c, p, e).value.0);
      }
    case DoRestoreLegacy(p, e, em) =>
      if RestoreUnacceptedLegacy(c, p, e, em).Ok? {
        RestoreLegacyKeepsCoreInv(c, p, e, em);
        NothingMoves(c, RestoreUnacceptedLegacy(c, p, e, em).value.0, receipts);
        CoreMoveKeepsSound(x, RestoreUnacceptedLegacy(c, p, e, em).value.0);
      }
    case DoReject(m, shown, f) =>
      if Reject(c, m, shown, f).Ok? {
        RejectKeepsCoreInv(c, m, shown, f);
        NothingMoves(c, Reject(c, m, shown, f).value, receipts);
        CoreMoveKeepsSound(x, Reject(c, m, shown, f).value);
      }
  }

  /** A core step leaves root's process, and so what it has at hand, alone. */
  lemma TryingSurvives(x: Watched, step: CoreStep)
    ensures ApplyCore(x.sys, step).run == x.sys.run
    ensures TryingAfter(x, ByCore(step)) == if x.sys.run.Committing? then x.trying else None
    ensures Sound(x) ==> TryingAfter(x, ByCore(step)) == x.trying
  {
    hide CoreInv, RecordsSound, RequestOperation, Acknowledge, Consume, UpdateRegistration, ProposeSourceRename,
         ProvisionLegacy, RestoreUnacceptedLegacy, Reject;
  }

  lemma RequestFilesKeepSound(x: Watched, requests: set<Id>)
    requires Sound(x)
    ensures Sound(x.(sys := x.sys.(spool := x.sys.spool.(requests := requests))))
  {
    hide CoreInv, RecordsSound;
  }

  // ---------------------------------------------------------------- root's decisions

  predicate ProcessSound(x: Watched) {
    && RunSound(x.sys.core, x.sys.root.journal, x.sys.root.current, x.sys.spool.receipts, x.sys.run)
    && TryingSound(x.sys.core.operations, x.sys.run, x.trying)
  }

  lemma ProcessKeepsSound(x: Watched, run: Run, trying: Option<Run>)
    requires Sound(x) && ProcessSound(Watched(x.sys.(run := run), trying))
    ensures Sound(Watched(x.sys.(run := run), trying))
  {
    hide CoreInv, RecordsSound, RunSound, TryingSound;
  }

  lemma PlainFits(operations: map<Id, Row>, o: Operation, outcome: Outcome)
    requires outcome.Recovered? || outcome.Blocked? ==> Switches(o.kind)
    ensures Fits(operations, o, PlainReceipt(o, outcome))
  {
  }

  /** The process part after a decision, whatever is at hand. */
  predicate NextSound(s: System, run: Run) { RunSound(s.core, s.root.journal, s.root.current, s.spool.receipts, run) }

  predicate Tables(s: System) {
    && Keyed(s.core) && Indexed(s.core)
    && RecordsSound(s.core, s.root, s.spool.receipts) && NextSound(s, s.run)
  }

  lemma TablesOf(x: Watched)
    requires Sound(x)
    ensures Tables(x.sys)
  {
  }

  lemma BeginSound(s: System, id: Id, h: Host)
    requires Tables(s)
    ensures NextSound(s, Begin(s, id, h).run)
  {
    hide RootAuthority, LabelsSound;
    if s.run.Idle? && id in s.core.operations && id !in s.root.journal {
      PlainFits(s.core.operations, s.core.operations[id].operation, if id in s.root.markers then Blocked else Failed);
    }
  }

  lemma RaiseSound(s: System)
    requires Tables(s)
    ensures NextSound(s, Raise(s).run)
  {
    hide JournalSound, SpoolSound, LabelsSound, SettledSound;
    if s.run.Executing? {
      var o := s.run.operation;
      PlainFits(s.core.operations, o, Failed);
      if Switches(o.kind) {
        PlainFits(s.core.operations, o, Blocked);
      }
    }
  }

  lemma RehearsedSound(s: System, image: Option<ImageId>)
    requires Tables(s)
    ensures NextSound(s, Rehearsed(s, image).run)
  {
    hide LabelsSound, MarkersSound;
    if s.run.Executing? && s.run.operation.id !in s.root.journal {
      NoReceiptWithoutJournal(s, s.run.operation.id);
    }
  }

  lemma FinishDeploySound(s: System, h: Host)
    requires Tables(s)
    ensures NextSound(s, FinishDeploy(s, h).run)
  {
    hide RootAuthority, LabelsSound, MarkersSound;
    if s.run.Executing? && s.run.operation.id !in s.root.journal {
      NoReceiptWithoutJournal(s, s.run.operation.id);
    }
  }

  lemma FinishRetireSound(s: System, archive: Option<Digest>, h: Host)
    requires Tables(s)
    ensures var run := FinishRetire(s, archive, h).run;
            NextSound(s, run) && (run != s.run ==> TryingSound(s.core.operations, run, Some(s.run)))
  {
    hide RootAuthority, LabelsSound, MarkersSound;
    if s.run.Executing? && s.run.operation.id !in s.root.journal {
      NoReceiptWithoutJournal(s, s.run.operation.id);
    }
  }

  lemma FinishRecoverSound(s: System, h: Host)
    requires Tables(s)
    ensures var run := FinishRecover(s, h).run;
            NextSound(s, run) && (run != s.run ==> TryingSound(s.core.operations, run, Some(s.run)))
  {
    hide RootAuthority, LabelsSound, MarkersSound;
    if s.run.Executing? && s.run.operation.id !in s.root.journal {
      NoReceiptWithoutJournal(s, s.run.operation.id);
    }
  }

  lemma PlainEndsSound(s: System)
    requires Tables(s)
    ensures NextSound(s, Contradict(s).run) && NextSound(s, FinishFall(s).run)
  {
    hide LabelsSound, JournalSound, SpoolSound, SettledSound, MarkersSound, Contradicts;
    if s.run.Executing? && Switches(s.run.operation.kind) {
      PlainFits(s.core.operations, s.run.operation, Blocked);
      PlainFits(s.core.operations, s.run.operation, Recovered);
    }
  }

  lemma AdoptSound(s: System)
    requires Tables(s)
    ensures NextSound(s, RecoverAdopt(s).run)
  {
    hide MarkersSound, SpoolSound, SettledSound;
  }

  lemma RecoveringSound(s: System)
    requires Tables(s)
    ensures NextSound(s, RecoverKeep(s).run) && NextSound(s, RecoverRestore(s).run)
  {
    hide RecordsSound, Adoptable;
  }

  lemma MovingSound(s: System, h: Host)
    requires Tables(s)
    ensures NextSound(s, Poll(s).run) && NextSound(s, Recheck(s, h).run) && NextSound(s, Probe(s).run)
    ensures NextSound(s, FallAuthorize(s, h).run) && NextSound(s, RestoreProbe(s).run) && NextSound(s, Crash(s).run)
  {
    hide Keyed, Indexed, RecordsSound, RootAuthority, ProbePasses;
  }

  lemma BootingSound(s: System, h: Host)
    requires Tables(s)
    ensures NextSound(s, BootBegin(s, h).run) && NextSound(s, BootRecheck(s, h).run) && NextSound(s, BootKeep(s).run)
  {
    hide Keyed, Indexed, RecordsSound, ReadInstalledAuthority, ProbePasses;
  }

  lemma DecisionSound(s: System, step: RootStep)
    requires Tables(s) && !ProtocolCoreSteps.Records(step)
    ensures NextSound(s, ApplyRoot(s, step).run)
  {
    hide Tables, NextSound, Begin, Rehearsed, Poll, Recheck, Probe, FinishDeploy, FinishRetire, Raise, FallAuthorize,
         RestoreProbe, RecoverAdopt, RecoverKeep, RecoverRestore, FinishRecover, BootBegin, BootRecheck, BootKeep,
         Crash, Contradict, FinishFall;
    var anyHost := Host(Facts(0, None, None, false, false), s.core.registration, false, false);
    match step {
      case DoBegin(id, h) => BeginSound(s, id, h);
      case DoRehearsed(image) => RehearsedSound(s, image);
      case DoPoll => MovingSound(s, anyHost);
      case DoRecheck(h) => MovingSound(s, h);
      case DoContradict => PlainEndsSound(s);
      case DoProbe => MovingSound(s, anyHost);
      case DoFinishDeploy(h) => FinishDeploySound(s, h);
      case DoFinishRetire(archive, h) => FinishRetireSound(s, archive, h);
      case DoRaise => RaiseSound(s);
      case DoFallAuthorize(h) => MovingSound(s, h);
      case DoRestoreProbe => MovingSound(s, anyHost);
      case DoFinishFall => PlainEndsSound(s);
      case DoRecoverAdopt => AdoptSound(s);
      case DoRecoverKeep => RecoveringSound(s);
      case DoRecoverRestore => RecoveringSound(s);
      case DoFinishRecover(h) => FinishRecoverSound(s, h);
      case DoBootBegin(h) => BootingSound(s, h);
      case DoBootRecheck(h) => BootingSound(s, h);
      case DoBootKeep => BootingSound(s, anyHost);
      case DoCrash => MovingSound(s, anyHost);
    }
  }

  /** A commit in progress is not moved by any decision but a stop. */
  lemma CommittingStays(s: System, step: Step)
    requires s.run.Committing? && Apply(s, step).run.Committing? && !step.ByRoot?
    ensures Apply(s, step).run == s.run
  {
    hide RequestOperation, Acknowledge, Consume, UpdateRegistration, ProposeSourceRename, ProvisionLegacy,
         RestoreUnacceptedLegacy, Reject;
  }

  lemma CommittingDecision(s: System, step: RootStep)
    requires s.run.Committing? && ApplyRoot(s, step).run.Committing? && !step.DoCommitWrite?
    ensures ApplyRoot(s, step).run == s.run
  {
    hide RootAuthority, ReadInstalledAuthority;
  }

  lemma TryingDecision(x: Watched, step: RootStep)
    requires Sound(x) && !ProtocolCoreSteps.Records(step)
    ensures TryingSound(x.sys.core.operations, ApplyRoot(x.sys, step).run, TryingAfter(x, ByRoot(step)))
  {
    hide CoreInv, RecordsSound, RunSound, FinishRetire, FinishRecover, Known, ApplyRoot;
    TablesOf(x);
    if x.sys.run.Committing? && ApplyRoot(x.sys, step).run.Committing? {
      CommittingDecision(x.sys, step);
    }
    if x.sys.run.Executing? && CommitsInside(ByRoot(step)) && ApplyRoot(x.sys, step).run.Committing? {
      FinishTrying(x.sys, step);
    }
  }

  lemma FinishTrying(s: System, step: RootStep)
    requires Tables(s) && CommitsInside(ByRoot(step)) && s.run.Executing? && ApplyRoot(s, step).run.Committing?
    ensures TryingSound(s.core.operations, ApplyRoot(s, step).run, Some(s.run))
  {
    hide Tables, FinishRetire, FinishRecover, TryingSound;
    if step.DoFinishRetire? {
      FinishRetireSound(s, step.archive, step.host);
    } else {
      FinishRecoverSound(s, step.host);
    }
  }

  lemma DecisionKeepsSound(x: Watched, step: RootStep)
    requires Sound(x) && !ProtocolCoreSteps.Records(step)
    ensures Sound(Act(x, Does(ByRoot(step))))
  {
    hide Sound, ApplyRoot, TryingSound, TryingAfter, RunSound;
    TablesOf(x);
    DecisionSound(x.sys, step);
    TryingDecision(x, step);
    DecisionMovesOnlyTheProcess(x.sys, step);
    ProcessKeepsSound(x, ApplyRoot(x.sys, step).run, TryingAfter(x, ByRoot(step)));
  }

  // ---------------------------------------------------------------- root's writes

  lemma AnnounceKeepsSound(x: Watched)
    requires Sound(x)
    ensures Sound(Act(x, Does(ByRoot(DoAnnounce))))
  {
    hide CoreInv, RecordsSound;
  }

  lemma MarkKeepsSound(x: Watched)
    requires Sound(x)
    ensures Sound(Act(x, Does(ByRoot(DoMark))))
  {
    hide CoreInv, JournalSound, SpoolSound, SettledSound, LabelsSound, Contradicts;
  }

  lemma SweepKeepsSound(x: Watched, id: Id)
    requires Sound(x)
    ensures Sound(Act(x, Does(ByRoot(DoSweep(id)))))
  {
    hide CoreInv, RecordsSound;
  }

  lemma CommitKeepsSound(x: Watched)
    requires Sound(x)
    ensures Sound(Act(x, Does(ByRoot(DoCommitWrite))))
  {
    hide CoreInv, Fits, Known, LabelsSound;
    CommitKeepsLabels(x.sys);
  }

  lemma CommitKeepsLabels(s: System)
    requires LabelsSound(s.core.operations, s.root.current, s.root.container)
    requires s.run.Committing? ==> CommittingSound(s.core, s.root.journal, s.spool.receipts, s.run.receipt, s.run.write)
    ensures LabelsSound(s.core.operations, CommitWrite(s).root.current, CommitWrite(s).root.container)
  {
  }

  // ---------------------------------------------------------------- host effects

  /** Whatever a step does to the container, its label stays one a switch started. */
  lemma HostKeepsLabels(x: Watched, step: HostStep)
    requires Sound(x)
    ensures LabelsSound(x.sys.core.operations, x.sys.root.current, ApplyHost(x.sys, step).root.container)
  {
    hide CoreInv, JournalSound, SpoolSound, SettledSound, MarkersSound, Adoptable, TryingSound;
  }

  lemma HostLeavesRecords(s: System, step: HostStep)
    ensures var s' := ApplyHost(s, step);
            && s'.core == s.core && s'.spool == s.spool && s'.root == s.root.(container := s'.root.container)
            && (s'.run.Committing? ==> s'.run == s.run)
  {
    hide Adoptable;
  }

  lemma SwitchEffectsSound(s: System, running: bool)
    requires Tables(s)
    ensures NextSound(s, Remove(s).run) && NextSound(s, Launch(s, running).run) && NextSound(s, Restart(s).run)
  {
    hide RecordsSound, Indexed, Keyed, Startable;
  }

  lemma RestoreEffectsSound(s: System, running: bool)
    requires Tables(s)
    ensures NextSound(s, FallTearDown(s).run) && NextSound(s, RestoreRemove(s).run)
    ensures NextSound(s, RestoreLaunch(s, running).run) && NextSound(s, RecoverTearDown(s).run)
  {
    hide RecordsSound, Indexed, Adoptable, Startable;
  }

  lemma OtherEffectsSound(s: System, flag: bool)
    requires Tables(s)
    ensures NextSound(s, BootRemove(s).run) && NextSound(s, BootLaunch(s, flag).run)
    ensures NextSound(s, BootProbe(s, flag).run)
    ensures NextSound(s, ContainerStops(s).run) && NextSound(s, ContainerGone(s).run)
  {
    hide RecordsSound, Indexed, Keyed, Startable;
  }

  lemma HostMovesProcess(s: System, step: HostStep)
    requires Tables(s)
    ensures NextSound(s, ApplyHost(s, step).run)
  {
    hide Tables, NextSound, Remove, Launch, Restart, FallTearDown, RestoreRemove, RestoreLaunch, RecoverTearDown,
         BootRemove, BootLaunch, BootProbe, ContainerStops, ContainerGone;
    match step {
      case DoRemove => SwitchEffectsSound(s, true);
      case DoLaunch(running) => SwitchEffectsSound(s, running);
      case DoRestart => SwitchEffectsSound(s, true);
      case DoFallTearDown => RestoreEffectsSound(s, true);
      case DoRestoreRemove => RestoreEffectsSound(s, true);
      case DoRestoreLaunch(running) => RestoreEffectsSound(s, running);
      case DoRecoverTearDown => RestoreEffectsSound(s, true);
      case DoBootRemove => OtherEffectsSound(s, true);
      case DoBootLaunch(running) => OtherEffectsSound(s, running);
      case DoBootProbe(passes) => OtherEffectsSound(s, passes);
      case DoContainerStops => OtherEffectsSound(s, true);
      case DoContainerGone => OtherEffectsSound(s, true);
    }
  }

  lemma HostStepKeepsSound(x: Watched, step: HostStep)
    requires Sound(x)
    ensures Sound(Act(x, Does(OnHost(step))))
  {
    hide CoreInv, JournalSound, SpoolSound, SettledSound, MarkersSound, LabelsSound, Tables, ApplyHost, Known;
    TablesOf(x);
    HostKeepsLabels(x, step);
    HostMovesProcess(x.sys, step);
    HostLeavesRecords(x.sys, step);
  }

  // ---------------------------------------------------------------- every run

  lemma WriteRaisesKeepsSound(x: Watched)
    requires Sound(x)
    ensures Sound(Act(x, WriteRaises))
  {
    hide CoreInv, JournalSound, SpoolSound, LabelsSound, SettledSound;
    if x.trying.Some? && x.sys.run.Committing? {
      var o := x.trying.value.operation;
      PlainFits(x.sys.core.operations, o, Failed);
    }
  }

  lemma ActKeepsSound(x: Watched, e: Event)
    requires Sound(x)
    ensures Sound(Act(x, e))
  {
    hide Sound, Act;
    match e
    case WriteRaises => WriteRaisesKeepsSound(x);
    case Does(ByCore(step)) => CoreStepKeepsSound(x, step);
    case Does(OnHost(step)) => HostStepKeepsSound(x, step);
    case Does(ByRoot(step)) =>
      if step.DoAnnounce? {
        AnnounceKeepsSound(x);
      } else if step.DoMark? {
        MarkKeepsSound(x);
      } else if step.DoCommitWrite? {
        CommitKeepsSound(x);
      } else if step.DoSweep? {
        SweepKeepsSound(x, step.id);
      } else {
        DecisionKeepsSound(x, step);
      }
  }

  lemma {:induction false} HistorySound(x: Watched, events: seq<Event>)
    requires Sound(x)
    ensures Sound(History(x, events))
    decreases |events|
  {
    hide Sound, Act;
    if events != [] {
      HistorySound(x, events[..|events| - 1]);
      ActKeepsSound(History(x, events[..|events| - 1]), events[|events| - 1]);
    }
  }
}
