/** How far a raising write can take the system while no retirement's write of the current
    record raises: the protocol's invariant holds of what core is told, or the handler is
    answering, or core and root have parted for good. */
module RaisedModes {
  import opened Wrappers
  import opened DeploymentContracts
  import opened Ledger
  import opened LedgerInvariant
  import opened Protocol
  import opened ProtocolInvariant
  import opened ProtocolSteps
  import opened ProtocolCoreSteps
  import opened DeploymentRuns
  import opened DeploymentSafety
  import opened RaisedCommits
  import opened RaisedInvariant
  import opened RaisedDeadEnds
  import opened RaisedTold

  // ---------------------------------------------------------------- the modes

  /** A retirement still has its marker and the installation it would fall back to. */
  predicate CanFallBack(markers: set<Id>, e: Run)
    requires e.Executing?
  {
    e.operation.kind.Retire? ==> e.operation.id in markers && RunningOf(e.before).Some?
  }

  /** What a commit inside the try block could still go back to. */
  predicate Retrying(s: System, trying: Option<Run>) {
    trying.Some? && trying.value.Executing? && s.run.Committing? ==>
      && CanFallBack(s.root.markers, trying.value)
      && (s.run.write == 0 ==> Inv(AsTold(s).(run := trying.value)))
      && (s.run.write <= 1 ==> s.root.current == Latest(s.core.history))
  }

  predicate Faithful(x: Watched) { Inv(AsTold(x.sys)) && Differ(x.sys) && Retrying(x.sys, x.trying) }

  /** Root has recorded a generation core has yet to consume. */
  predicate Ahead(s: System, id: Id) {
    id in s.root.journal && AcceptedBy(s.root.journal[id]).Some? && s.root.current == AcceptedBy(s.root.journal[id])
  }

  predicate Answers(s: System, q: Receipt) {
    && q.operationId in s.core.operations && q.operationId in s.root.journal
    && var o := s.core.operations[q.operationId].operation;
    && s.root.journal[q.operationId].outcome.Succeeded?
    && ((o.kind.Recover? && q == PlainReceipt(o, Failed)) || (o.kind.Retire? && q == PlainReceipt(o, Blocked)))
    && (o.kind.Retire? && IsActive(s.core, o.id) ==> Ahead(s, o.id))
  }

  /** The handler at work for an operation whose journal receipt is a success. */
  predicate Handling(s: System) {
    match s.run
    case Executing(o, _, before, _, phase) =>
      && o.kind.Retire? && phase.Falling? && RunningOf(before).Some?
      && o.id in s.root.journal && s.root.journal[o.id].outcome.Succeeded?
      && Known(s.core.operations, o) && (IsActive(s.core, o.id) ==> Ahead(s, o.id))
    case Committing(q, w) => Answers(s, q) && w <= 3
    case _ => false
  }

  predicate Handler(x: Watched) {
    Inv(Stopped(AsTold(x.sys))) && Differ(x.sys) && x.trying.None? && Handling(x.sys)
  }

  /** Core is about to hear that a generation root recorded never happened. */
  predicate Lost(s: System) {
    && s.core.active.Some? && SwitchingNow(s.core, s.core.active.value) && s.core.active.value in s.spool.receipts
    && Differing(s)
    && var r := s.spool.receipts[s.core.active.value];
    && !r.outcome.Succeeded? && (s.core.blocked.None? ==> r.outcome.Blocked?)
    && (s.run.Idle? || (s.run.Committing? && s.run.write >= 3 && !s.run.receipt.outcome.Succeeded?))
  }

  predicate Parted(x: Watched) {
    Lost(x.sys) || (x.sys.core.blocked.Some? && Differing(x.sys) && DeadEnd(x, x.sys.core.blocked.value))
  }

  predicate Mode(x: Watched) { Sound(x) && (Faithful(x) || Handler(x) || Parted(x)) }

  // ---------------------------------------------------------------- what core's steps leave

  /** No core step puts an operation it already knew back in flight, and the history waits
      for the one that is. */
  lemma InFlightWaits(s: System, step: CoreStep)
    requires CoreInv(s.core)
    ensures var c' := ApplyCore(s, step).core;
            && (c'.active == s.core.active || c'.active.None? || c'.active.value !in s.core.operations)
            && (c'.active == s.core.active && c'.active.Some? ==> c'.history == s.core.history)
  {
    hide CoreInv, ApplyCore, Acknowledge, Consume;
    var c, c' := s.core, ApplyCore(s, step).core;
    CoreStepKinds(s, step);
    if !SameOperations(c, c') && step.DoAcknowledge? {
      AcknowledgeMovesState(c, step.id);
    }
    if !SameOperations(c, c') && step.DoConsume? {
      ConsumeMayEnd(c, step.id, s.spool.receipts[step.id], step.facts);
    }
  }

  lemma ConsumeMayEnd(c: Core, id: Id, r: Receipt, f: Facts)
    requires CoreInv(c) && Consume(c, id, r, f).Ok?
    ensures var c' := Consume(c, id, r, f).value;
            (c' == c) || (c.active == Some(id) && c'.active.None?)
  {
    hide Consume, EffectiveReceipt, HistoryShape, HistoryBacked, DeploysRehearsed, RegistrationFollows;
    if id in c.operations && Active(c.operations[id].state) {
      ConsumeForm(c, id, r, f);
    } else {
      SettledConsume(c, id, r, f);
    }
  }

  // ---------------------------------------------------------------- steps of a faithful system

  lemma RetryingAfterCore(x: Watched, step: CoreStep)
    requires Sound(x) && Faithful(x)
    ensures Retrying(ApplyCore(x.sys, step), x.trying)
  {
    hide CoreInv, RecordsSound, Differ, Inv, ApplyCore, AsTold, Fits, Known;
    CoreStepLeavesRoot(x.sys, step);
    if x.trying.Some? && x.sys.run.Committing? {
      var e := x.trying.value;
      if x.sys.run.write == 0 {
        ApplyKeepsInv(AsTold(x.sys).(run := e), ByCore(step));
        CoreSeesTold(x.sys, step);
        CoreSeesTold(AsTold(x.sys), step);
      }
      if x.sys.run.write <= 1 {
        CommittingStaysActive(x, step);
        InFlightWaits(x.sys, step);
      }
    }
  }

  lemma CommittingStaysActive(x: Watched, step: CoreStep)
    requires Sound(x) && x.trying.Some? && x.sys.run.Committing? && x.sys.run.write < 3
    ensures x.sys.core.active == Some(x.sys.run.receipt.operationId)
    ensures ApplyCore(x.sys, step).core.active == x.sys.core.active
  {
    hide CoreInv, RecordsSound, ApplyCore, Fits, Known;
    CoreStepKeepsSound(x, step);
    CoreStepLeavesRoot(x.sys, step);
  }

  lemma RetryingAfterDecision(x: Watched, step: RootStep)
    requires Sound(x) && Faithful(x)
    ensures Retrying(ApplyRoot(x.sys, step), TryingAfter(x, ByRoot(step)))
  {
    hide CoreInv, RecordsSound, Differ, Inv, AsTold, Fits, Known, ApplyRoot, FinishRetire, FinishRecover, CommitWrite,
         CanFallBack;
    var s, s' := x.sys, ApplyRoot(x.sys, step);
    if s'.run.Committing? {
      if s.run.Executing? && CommitsInside(ByRoot(step)) {
        FinishingCanFallBack(s, step);
      }
      if s.run.Committing? {
        if step.DoCommitWrite? {
          WriteCanFallBack(x);
        } else {
          CommittingUnmoved(s, step);
        }
      }
    }
  }

  /** At the end of the try block: authority was just granted. */
  lemma FinishingCanFallBack(s: System, step: RootStep)
    requires Inv(AsTold(s)) && s.run.Executing? && CommitsInside(ByRoot(step)) && ApplyRoot(s, step).run.Committing?
    ensures ApplyRoot(s, step) == s.(run := ApplyRoot(s, step).run)
    ensures AsTold(ApplyRoot(s, step)).(run := s.run) == AsTold(s)
    ensures s.root.current == Latest(s.core.history) && CanFallBack(s.root.markers, s.run)
  {
    hide CoreInv, RecordsOk, SettledOk, MarkersOk, RequestsOk, AdmittedOk, ConsumedOk, CurrentOk, TruthOk, ContainerOk,
         TouchedOk, ReadAuthority;
    var o := s.run.operation;
    var h := step.host;
    assert ExecutingOk(s.core, s.spool, AsTold(s).root, s.run);
    AuthorityForm(s.core, o.id, h.facts);
    if o.kind.Retire? {
      RetirementNeedsRunning(s.core, o.id, h.facts);
    }
  }

  lemma RetirementNeedsRunning(c: Core, id: Id, f: Facts)
    requires ReadAuthority(c, id, f).Ok? && c.operations[id].operation.kind.Retire?
    ensures RunningOf(Latest(c.history)).Some?
  {
  }

  lemma CommittingUnmoved(s: System, step: RootStep)
    requires s.run.Committing? && ApplyRoot(s, step).run.Committing? && !step.DoCommitWrite?
    ensures ApplyRoot(s, step) == s
  {
    hide RootAuthority, ReadInstalledAuthority, Adoptable, Contradicts, ProbePasses, AtRecovery;
  }

  lemma WriteCanFallBack(x: Watched)
    requires Sound(x) && Faithful(x) && x.sys.run.Committing?
    ensures Retrying(ApplyRoot(x.sys, DoCommitWrite), TryingAfter(x, ByRoot(DoCommitWrite)))
  {
    hide Inv, RecordsSound, Differ, CoreInv;
  }

  lemma RetryingAfterEffect(x: Watched, step: HostStep)
    requires Sound(x) && Faithful(x)
    ensures Retrying(ApplyHost(x.sys, step), TryingAfter(x, OnHost(step)))
  {
    hide CoreInv, RecordsSound, Differ, Inv, AsTold, Fits, Known, ApplyHost;
    var s := x.sys;
    HostLeavesRecords(s, step);
    if s.run.Committing? {
      var trying := TryingAfter(x, OnHost(step));
      if trying.Some? && s.run.write == 0 {
        CommittingEffect(s, step, trying.value);
        OutsideKeepsInv(AsTold(s).(run := trying.value));
      }
    }
    CommittingOnly(x, step);
  }

  /** While root commits, only the outside changes the container. */
  lemma CommittingEffect(s: System, step: HostStep, e: Run)
    requires s.run.Committing?
    ensures ApplyHost(s, step) == s
         || (ApplyHost(s, step) == ContainerStops(s) &&
             AsTold(ApplyHost(s, step)).(run := e) == ContainerStops(AsTold(s).(run := e)))
         || (ApplyHost(s, step) == ContainerGone(s) &&
             AsTold(ApplyHost(s, step)).(run := e) == ContainerGone(AsTold(s).(run := e)))
  {
    hide Adoptable;
  }

  lemma CommittingOnly(x: Watched, step: HostStep)
    ensures ApplyHost(x.sys, step).run.Committing? ==> x.sys.run.Committing?
    ensures x.sys.run.Committing? ==> ApplyHost(x.sys, step).run == x.sys.run
    ensures TryingAfter(x, OnHost(step)).Some? ==> TryingAfter(x, OnHost(step)) == x.trying && x.sys.run.Committing?
  {
    hide Adoptable;
  }

  lemma FaithfulStep(x: Watched, step: Step)
    requires Sound(x) && Faithful(x)
    ensures Faithful(Act(x, Does(step)))
  {
    hide Sound, Inv, Differ, AsTold, Retrying, ApplyCore, ApplyRoot, ApplyHost;
    StepSeesTold(x.sys, step);
    StepKeepsDiffer(x.sys, step);
    ApplyKeepsInv(AsTold(x.sys), step);
    match step
    case ByCore(c) =>
      TryingSurvives(x, c);
      RetryingAfterCore(x, c);
    case ByRoot(r) => RetryingAfterDecision(x, r);
    case OnHost(h) => RetryingAfterEffect(x, h);
  }

  // ---------------------------------------------------------------- the handler

  lemma AnswersKept(s: System, s': System, q: Receipt)
    requires Answers(s, q) && OperationsKept(s.core.operations, s'.core.operations)
    requires s'.root.current == s.root.current && q.operationId in s'.root.journal
    requires s'.root.journal[q.operationId] == s.root.journal[q.operationId]
    requires IsActive(s'.core, q.operationId) ==> IsActive(s.core, q.operationId)
    ensures Answers(s', q)
  {
  }

  lemma HandlerCore(x: Watched, step: CoreStep)
    requires Sound(x) && Handler(x)
    ensures Handler(Act(x, Does(ByCore(step))))
  {
    hide Sound, Inv, CoreInv, Differ, AsTold, ApplyCore, Answers;
    var s, s' := x.sys, ApplyCore(x.sys, step);
    SoundParts(x);
    CoreSeesTold(s, step);
    CoreSeesTold(AsTold(s), step);
    ApplyKeepsInv(Stopped(AsTold(s)), ByCore(step));
    CoreStepLeavesRoot(s, step);
    HandlerKeepsDocuments(x, step);
    DifferKept(s, s');
    InFlightWaits(s, step);
    TryingSurvives(x, step);
    if s.run.Committing? {
      AnswersKnown(s, s.run.receipt);
      AnswersKept(s, s', s.run.receipt);
    }
  }

  lemma AnswersKnown(s: System, q: Receipt)
    requires Answers(s, q)
    ensures q.operationId in s.core.operations && q.operationId in s.root.journal
  {
  }

  lemma HandlerKeepsDocuments(x: Watched, step: CoreStep)
    requires Handler(x)
    ensures OperationsKept(x.sys.core.operations, ApplyCore(x.sys, step).core.operations)
  {
    hide Inv, Differ, Handling, ApplyCore;
    CoreSeesTold(x.sys, step);
    CoreStepIsLater(Stopped(AsTold(x.sys)), step);
    CoreSeesTold(AsTold(x.sys), step);
  }

  /** The fallback's authority is refused: core settled the operation, or root is ahead. */
  lemma HandlerRefused(s: System, h: Host)
    requires Inv(Stopped(AsTold(s))) && Differ(s) && Handling(s) && s.run.Executing?
    ensures RootAuthority(s, s.run.operation, h).Err?
  {
    hide HistoryBacked, DeploysRehearsed, RegistrationFollows, InFlightCurrent, SettledOk, MarkersOk, RequestsOk,
         AdmittedOk, ConsumedOk, TruthOk, ContainerOk, TouchedOk;
    if RootAuthority(s, s.run.operation, h).Ok? {
      AuthorityForm(s.core, s.run.operation.id, h.facts);
      AheadDiffers(s, s.run.operation.id);
    }
  }

  lemma AheadDiffers(s: System, id: Id)
    requires Inv(Stopped(AsTold(s))) && Differ(s) && IsActive(s.core, id) && Ahead(s, id)
    requires !s.core.operations[id].operation.kind.Recover?
    ensures Differing(s) && SwitchingNow(s.core, id)
  {
    hide Keyed, Indexed, Exclusive, HistoryBacked, DeploysRehearsed, RegistrationFollows, InFlightCurrent, SettledOk,
         MarkersOk, RequestsOk, AdmittedOk, ConsumedOk, TruthOk, ContainerOk, TouchedOk, RecordsOk;
    LatestGeneration(s.core);
    assert AsTold(s).root.journal[id] == s.root.journal[id];
  }

  /** From falling, the handler can only give the answer it was left with. */
  lemma FallingMoves(s: System, step: RootStep)
    requires Handling(s) && s.run.Executing? && s.run.operation.recovers.None?
    requires step.DoFallAuthorize? ==> RootAuthority(s, s.run.operation, step.host).Err?
    ensures ApplyRoot(s, step) == s || ApplyRoot(s, step) == Crash(s)
         || ApplyRoot(s, step) == s.(run := Committing(PlainReceipt(s.run.operation, Blocked), 0))
  {
    hide RootAuthority, ReadInstalledAuthority, Adoptable, Contradicts, ProbePasses;
  }

  lemma HandlerOperation(x: Watched)
    requires Sound(x) && Handling(x.sys) && x.sys.run.Executing?
    ensures x.sys.run.operation.recovers.None?
  {
    hide RecordsSound, HistoryShape, HistoryBacked, DeploysRehearsed, RegistrationFollows;
  }

  lemma HandlerFalls(x: Watched, step: RootStep)
    requires Sound(x) && Handler(x) && x.sys.run.Executing?
    ensures Handler(Act(x, Does(ByRoot(step)))) || Faithful(Act(x, Does(ByRoot(step))))
  {
    hide Sound, Inv, OnlyRecoveriesDiffer, RootAuthority, ApplyRoot, FallingBack;
    var s := x.sys;
    HandlerOperation(x);
    if step.DoFallAuthorize? {
      HandlerRefused(s, step.host);
    }
    FallingMoves(s, step);
    FallingIsOutside(step, x);
    assert AsTold(Crash(s)) == Stopped(AsTold(s));
  }

  lemma FallingIsOutside(step: RootStep, x: Watched)
    requires Handling(x.sys) && x.sys.run.Executing? && x.trying.None?
    ensures CommitsInside(ByRoot(step)) ==> !ApplyRoot(x.sys, step).run.Committing?
    ensures TryingAfter(x, ByRoot(step)).None?
  {
    hide RootAuthority, ReadInstalledAuthority, Adoptable, Contradicts, ProbePasses;
  }

  // ---------------------------------------------------------------- the handler's own commit

  lemma CommittingDecides(s: System, step: RootStep)
    requires s.run.Committing? && !step.DoCommitWrite?
    ensures ApplyRoot(s, step) == s || ApplyRoot(s, step) == Crash(s)
  {
    hide RootAuthority, ReadInstalledAuthority, Adoptable, Contradicts, ProbePasses;
  }

  /** The first two writes find the journal receipt there and nothing to install. */
  lemma AnswerWritesNothing(s: System)
    requires s.run.Committing? && Answers(s, s.run.receipt) && s.run.write <= 1
    ensures CommitWrite(s) == s.(run := Committing(s.run.receipt, s.run.write + 1))
  {
  }

  lemma MovedHandlerStays(x: Watched, write: nat)
    requires Handler(x) && x.sys.run.Committing? && write <= 3
    ensures Handler(x.(sys := x.sys.(run := Committing(x.sys.run.receipt, write))))
    ensures Faithful(x.(sys := Crash(x.sys)))
  {
    hide Inv, OnlyRecoveriesDiffer;
    var s := x.sys.(run := Committing(x.sys.run.receipt, write));
    assert Stopped(AsTold(s)) == Stopped(AsTold(x.sys));
    assert AsTold(Crash(x.sys)) == Stopped(AsTold(x.sys));
  }

  /** A spool receipt that is already there is kept, or the answer conflicts with it. */
  lemma AnswerFindsReceipt(s: System)
    requires s.run.Committing? && s.run.write == 2 && s.run.receipt.operationId in s.spool.receipts
    ensures CommitWrite(s) == s.(run := Committing(s.run.receipt, 3)) || CommitWrite(s) == Crash(s)
  {
  }

  /** Taking the marker away is the last write of the receipt core was given. */
  lemma AnswerUnmarks(x: Watched)
    requires Handler(x) && x.sys.run.Committing? && x.sys.run.write == 3
    ensures Faithful(Watched(CommitWrite(x.sys), None))
  {
    hide CoreInv, RecordsOk, SettledOk, RequestsOk, AdmittedOk, ConsumedOk, CurrentOk, OnlyRecoveriesDiffer;
    var s := x.sys;
    var id := s.run.receipt.operationId;
    assert AsTold(CommitWrite(s)).root == CommitUnmark(AsTold(s).root, id);
  }

  /** A failed recovery's receipt, published for the operation in flight. */
  predicate Published(c: Core, before: map<Id, Receipt>, after: map<Id, Receipt>, id: Id, q: Receipt) {
    && IsActive(c, id) && id in before && after == before[id := q]
    && c.operations[id].operation.kind.Recover? && q == PlainReceipt(c.operations[id].operation, Failed)
  }

  lemma PublishedRecords(s: System, before: map<Id, Receipt>, after: map<Id, Receipt>, id: Id, q: Receipt)
    requires Keyed(s.core) && Published(s.core, before, after, id, q)
    requires RecordsOk(s.core.operations, s.spool.receipts, before)
    ensures RecordsOk(s.core.operations, s.spool.receipts[id := q], after)
  {
    hide ReceiptShape;
    PlainShape(s.core.operations, s.core.operations[id].operation);
  }

  lemma PlainShape(operations: map<Id, Row>, o: Operation)
    ensures ReceiptShape(operations, o, PlainReceipt(o, Failed))
  {
  }

  lemma PublishedSettles(s: System, before: map<Id, Receipt>, after: map<Id, Receipt>, id: Id, q: Receipt)
    requires Indexed(s.core) && Published(s.core, before, after, id, q)
    requires SettledOk(s.core, s.spool.receipts, before)
    ensures SettledOk(s.core, s.spool.receipts[id := q], after)
  {
  }

  lemma PublishedFiles(s: System, before: map<Id, Receipt>, after: map<Id, Receipt>, id: Id, q: Receipt)
    requires Indexed(s.core) && Published(s.core, before, after, id, q)
    requires MarkersOk(s.core, s.spool.switches, s.root.markers, before) && RequestsOk(s.core, s.spool.requests, before)
    requires AdmittedOk(s.core, before) && ConsumedOk(s.core, before)
    requires TouchedOk(s.core, s.root.markers, before, s.touched)
    ensures MarkersOk(s.core, s.spool.switches, s.root.markers, after) && RequestsOk(s.core, s.spool.requests, after)
    ensures AdmittedOk(s.core, after) && ConsumedOk(s.core, after)
    ensures TouchedOk(s.core, s.root.markers, after, s.touched)
  {
  }

  lemma PublishedHost(s: System, before: map<Id, Receipt>, after: map<Id, Receipt>, id: Id, q: Receipt)
    requires Published(s.core, before, after, id, q) && s.root.current == Latest(s.core.history)
    requires ContainerOk(s.core, s.root.(journal := before))
    ensures CurrentOk(s.core, s.spool.receipts[id := q], after, s.root.current)
    ensures TruthOk(s.core, s.root.(journal := after)) && ContainerOk(s.core, s.root.(journal := after))
  {
  }

  /** A spool without a receipt means the operation is still in flight. */
  lemma UnpublishedIsActive(s: System, id: Id)
    requires CoreInv(s.core) && SettledSound(s.core, s.spool.receipts)
    requires id in s.core.operations && id !in s.spool.receipts
    ensures IsActive(s.core, id)
  {
    hide HistoryShape, HistoryBacked, DeploysRehearsed, RegistrationFollows, InFlightCurrent, Exclusive, Keyed;
  }

  /** The answer is a receipt core can be told, as long as root's record is core's. */
  lemma PublishedAnswerIsTold(s: System, s': System)
    requires Inv(Stopped(AsTold(s))) && Differ(s) && s.run.Committing? && s.run.write == 2
    requires var id := s.run.receipt.operationId;
             && Answers(s, s.run.receipt) && id !in s.spool.receipts && s.core.operations[id].operation.kind.Recover?
             && IsActive(s.core, id)
    requires s.root.current == Latest(s.core.history) && s' == CommitWrite(s)
    ensures Inv(AsTold(s')) && Differ(s')
  {
    hide HistoryShape, HistoryBacked, DeploysRehearsed, RegistrationFollows, InFlightCurrent, Exclusive, RecordsOk,
         SettledOk, MarkersOk, RequestsOk, AdmittedOk, ConsumedOk, CurrentOk, TruthOk, ContainerOk, TouchedOk, Keyed,
         Indexed, OnlyRecoveriesDiffer;
    var q, id := s.run.receipt, s.run.receipt.operationId;
    var before, after := s.root.journal + s.spool.receipts, AsTold(s').root.journal;
    assert s'.spool.receipts == s.spool.receipts[id := q];
    assert after == before[id := q];
    PublishedRecords(s, before, after, id, q);
    PublishedSettles(s, before, after, id, q);
    PublishedFiles(s, before, after, id, q);
    PublishedHost(s, before, after, id, q);
    PublishedDiffers(s, s');
  }

  lemma PublishedDiffers(s: System, s': System)
    requires Differ(s) && s.run.Committing? && s.run.write == 2 && Answers(s, s.run.receipt)
    requires s.core.operations[s.run.receipt.operationId].operation.kind.Recover? && s' == CommitWrite(s)
    ensures Differ(s')
  {
  }

  // ---------------------------------------------------------------- an answer that loses the generation

  lemma AnswerAdmitted(s: System)
    requires Inv(Stopped(AsTold(s))) && s.run.Committing? && Answers(s, s.run.receipt)
    requires s.run.receipt.operationId !in s.spool.receipts && IsActive(s.core, s.run.receipt.operationId)
    ensures SwitchingNow(s.core, s.run.receipt.operationId)
    ensures s.core.operations[s.run.receipt.operationId].operation.kind.Recover? ==> s.core.blocked.Some?
  {
    hide HistoryShape, HistoryBacked, DeploysRehearsed, RegistrationFollows, InFlightCurrent, RecordsOk, SettledOk,
         MarkersOk, RequestsOk, ConsumedOk, CurrentOk, TruthOk, ContainerOk, TouchedOk, Keyed;
    assert AsTold(s).root.journal[s.run.receipt.operationId] == s.root.journal[s.run.receipt.operationId];
  }

  lemma AnswerLoses(x: Watched)
    requires Sound(x) && Handler(x) && x.sys.run.Committing? && x.sys.run.write == 2
    requires x.sys.run.receipt.operationId !in x.sys.spool.receipts && Differing(x.sys)
    ensures Lost(CommitWrite(x.sys))
  {
    hide Inv, CoreInv, Differ, RecordsSound, Fits;
    var s := x.sys;
    SoundParts(x);
    UnpublishedIsActive(s, s.run.receipt.operationId);
    AnswerAdmitted(s);
  }

  lemma AnswerPublishes(x: Watched)
    requires Sound(x) && Handler(x) && x.sys.run.Committing? && x.sys.run.write == 2
    requires x.sys.run.receipt.operationId !in x.sys.spool.receipts
    ensures Faithful(Watched(CommitWrite(x.sys), None)) || Lost(CommitWrite(x.sys))
  {
    hide Sound, Inv, Differ, CommitWrite, Lost;
    var s := x.sys;
    var id := s.run.receipt.operationId;
    SoundParts(x);
    UnpublishedIsActive(s, id);
    if Differing(s) {
      AnswerLoses(x);
    } else if s.core.operations[id].operation.kind.Recover? {
      PublishedAnswerIsTold(s, CommitWrite(s));
    } else {
      AheadDiffers(s, id);
      assert false;
    }
  }

  lemma HandlerWrites(x: Watched)
    requires Sound(x) && Handler(x) && x.sys.run.Committing?
    ensures var y := Watched(CommitWrite(x.sys), None); Handler(y) || Faithful(y) || Lost(y.sys)
  {
    hide Sound, Inv, Differ, Answers, Handler, Faithful, Lost, CommitWrite;
    HandlerParts(x);
    var s := x.sys;
    if s.run.write <= 1 {
      AnswerWritesNothing(s);
      MovedHandlerStays(x, s.run.write + 1);
    } else if s.run.write == 2 {
      if s.run.receipt.operationId in s.spool.receipts {
        AnswerFindsReceipt(s);
        MovedHandlerStays(x, 3);
        assert x.(sys := Crash(s)) == Watched(Crash(s), None);
      } else {
        AnswerPublishes(x);
      }
    } else {
      AnswerUnmarks(x);
    }
  }

  lemma HandlerParts(x: Watched)
    requires Handler(x)
    ensures x.trying.None? && Handling(x.sys)
  {
  }

  lemma HandlerCommits(x: Watched, step: RootStep)
    requires Sound(x) && Handler(x) && x.sys.run.Committing?
    ensures var y := Act(x, Does(ByRoot(step))); Handler(y) || Faithful(y) || Lost(y.sys)
  {
    hide Sound, Handler, Faithful, Lost, ApplyRoot, CommitWrite;
    HandlerParts(x);
    CommitIsApply(x.sys);
    NothingAtHand(x, ByRoot(step));
    if step.DoCommitWrite? {
      HandlerWrites(x);
    } else {
      CommittingDecides(x.sys, step);
      MovedHandlerStays(x, 0);
      assert x.(sys := Crash(x.sys)) == Watched(Crash(x.sys), None);
    }
  }

  lemma NothingAtHand(x: Watched, step: Step)
    requires x.trying.None? && x.sys.run.Committing?
    ensures TryingAfter(x, step).None?
  {
    hide Apply;
  }

  lemma HandlerEffect(x: Watched, step: HostStep)
    requires Sound(x) && Handler(x)
    ensures Handler(Act(x, Does(OnHost(step))))
  {
    hide Sound, Inv, OnlyRecoveriesDiffer, CoreInv, ApplyHost;
    var s := x.sys;
    HandlerMovesOutside(s, step);
    OutsideKeepsInv(Stopped(AsTold(s)));
    assert AsTold(ContainerStops(s)).(run := Idle) == ContainerStops(Stopped(AsTold(s)));
    assert AsTold(ContainerGone(s)).(run := Idle) == ContainerGone(Stopped(AsTold(s)));
    HandlingOutside(x, step);
  }

  lemma HandlerMovesOutside(s: System, step: HostStep)
    requires Handling(s)
    ensures ApplyHost(s, step) == s || ApplyHost(s, step) == ContainerStops(s) || ApplyHost(s, step) == ContainerGone(s)
  {
    hide Adoptable, Answers;
  }

  lemma HandlingOutside(x: Watched, step: HostStep)
    requires Handling(x.sys) && x.trying.None?
    ensures Handling(ContainerStops(x.sys)) && Handling(ContainerGone(x.sys))
    ensures TryingAfter(x, OnHost(step)).None?
  {
    hide Adoptable;
  }
}
