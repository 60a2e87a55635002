/** What a raising write of a retirement's or recovery's commit leaves in the records: when
    journal and spool can come to disagree, and when core and root end with different
    generations. The handler's answer is whatever its own steps come to. */
module RaisedRecords {
  import opened Wrappers
  import opened DeploymentContracts
  import opened Ledger
  import opened LedgerInvariant
  import opened Protocol
  import opened ProtocolInvariant
  import opened ProtocolSteps
  import opened ProtocolCoreSteps
  import opened DeploymentRuns
  import opened DeploymentSafety
  import opened DeploymentReplay
  import opened DeploymentRecovery
  import opened RaisedCommits
  import opened RaisedInvariant
  import opened RaisedDeadEnds
  import opened RaisedTold
  import opened RaisedModes
  import opened RaisedContainer

  // ---------------------------------------------------------------- journal and spool

  /** The spool's receipt is the journal's, and nothing under way will change that. */
  predicate Agreeing(s: System, id: Id) {
    if id in s.spool.receipts then id in s.root.journal && s.root.journal[id] == s.spool.receipts[id]
    else
      match s.run
      case Executing(o, _, _, _, _) => o.id == id ==> id !in s.root.journal
      case Committing(q, w) =>
        q.operationId == id ==>
          if w == 0 then id !in s.root.journal else id in s.root.journal && s.root.journal[id] == q
      case _ => true
  }

  lemma AgreeingCore(s: System, id: Id, step: CoreStep)
    requires Agreeing(s, id)
    ensures Agreeing(ApplyCore(s, step), id)
  {
    hide ApplyCore;
    CoreStepLeavesRoot(s, step);
  }

  lemma AgreeingHost(s: System, id: Id, step: HostStep)
    requires Agreeing(s, id)
    ensures Agreeing(ApplyHost(s, step), id)
  {
    hide Adoptable;
  }

  lemma AgreeingDecision(s: System, id: Id, step: RootStep)
    requires Agreeing(s, id) && !step.DoBegin? && !step.DoCommitWrite?
    ensures Agreeing(ApplyRoot(s, step), id)
  {
    hide RootAuthority, ReadInstalledAuthority, Adoptable, Contradicts, ProbePasses;
  }

  lemma AgreeingBegin(x: Watched, id: Id, other: Id, h: Host)
    requires Sound(x) && Agreeing(x.sys, id)
    ensures Agreeing(Begin(x.sys, other, h), id)
  {
    hide CoreInv, SpoolSound, SettledSound, MarkersSound, LabelsSound, RunSound, TryingSound, RootAuthority;
    if other in x.sys.core.operations {
      KeyedId(x, other);
    }
  }

  lemma KeyedId(x: Watched, id: Id)
    requires Sound(x) && id in x.sys.core.operations
    ensures x.sys.core.operations[id].operation.id == id
  {
    hide RecordsSound, RunSound, TryingSound;
  }

  lemma AgreeingWrite(s: System, id: Id)
    requires Agreeing(s, id)
    ensures Agreeing(CommitWrite(s), id)
  {
  }

  lemma AgreeingStep(x: Watched, id: Id, step: Step)
    requires Sound(x) && Agreeing(x.sys, id)
    ensures Agreeing(Apply(x.sys, step), id)
  {
    hide Sound, Agreeing, ApplyCore, ApplyRoot, ApplyHost;
    match step
    case ByCore(c) => AgreeingCore(x.sys, id, c);
    case OnHost(h) => AgreeingHost(x.sys, id, h);
    case ByRoot(r) =>
      RootByName(x.sys, r);
      if r.DoBegin? {
        AgreeingBegin(x, id, r.id, r.host);
      } else if r.DoCommitWrite? {
        AgreeingWrite(x.sys, id);
      } else {
        AgreeingDecision(x.sys, id, r);
      }
  }

  lemma RootByName(s: System, step: RootStep)
    ensures step.DoBegin? ==> ApplyRoot(s, step) == Begin(s, step.id, step.host)
    ensures step.DoCommitWrite? ==> ApplyRoot(s, step) == CommitWrite(s)
  {
  }

  lemma {:induction false} AgreeingAlong(x: Watched, id: Id, steps: seq<Step>)
    requires Sound(x) && Agreeing(x.sys, id)
    ensures Sound(History(x, Plainly(steps))) && Agreeing(History(x, Plainly(steps)).sys, id)
    decreases |steps|
  {
    hide Sound, Agreeing, Apply;
    if steps != [] {
      var k := |steps| - 1;
      assert Plainly(steps)[..k] == Plainly(steps[..k]);
      AgreeingAlong(x, id, steps[..k]);
      ActKeepsSound(History(x, Plainly(steps[..k])), Does(steps[k]));
      AgreeingStep(History(x, Plainly(steps[..k])), id, steps[k]);
    }
  }

  lemma RaisedAgrees(x: Watched)
    requires Sound(x) && x.trying.Some? && x.sys.run.Committing? && (x.sys.run.write == 0 || x.sys.run.write == 3)
    ensures Agreeing(Act(x, WriteRaises).sys, x.sys.run.receipt.operationId)
  {
    hide CoreInv, MarkersSound, LabelsSound, SettledSound, Fits;
  }

  // ---------------------------------------------------------------- the contrary receipt

  /** The handler gives up on the fallback, if it came to that, and commits its answer. */
  function GivesUp(s: System): seq<Step> {
    (if s.run.Executing? then [ByRoot(DoRaise)] else []) + seq(3, i => ByRoot(DoCommitWrite))
  }

  predicate Contrary(s: System, id: Id) {
    && id in s.root.journal && id in s.spool.receipts && s.root.journal[id] != s.spool.receipts[id]
  }

  lemma ContraryCommits(s: System)
    requires s.run.Committing? && s.run.write == 0 && !s.run.receipt.outcome.Succeeded?
    requires s.run.receipt.operationId in s.root.journal && s.run.receipt.operationId !in s.spool.receipts
    requires s.root.journal[s.run.receipt.operationId].outcome.Succeeded?
    ensures Contrary(Execution(s, seq(3, i => ByRoot(DoCommitWrite))), s.run.receipt.operationId)
  {
    hide Execution, Apply, CommitWrite;
    var steps := seq(3, i => ByRoot(DoCommitWrite));
    var s1, s2 := s.(run := Committing(s.run.receipt, 1)), s.(run := Committing(s.run.receipt, 2));
    WriteIsApply(s);
    WriteIsApply(s1);
    WriteIsApply(s2);
    ContraryWrites(s, s1, s2);
    ThreeSteps(s, steps, s1, s2, CommitWrite(s2));
  }

  lemma ContraryWrites(s: System, s1: System, s2: System)
    requires s.run.Committing? && s.run.write == 0 && !s.run.receipt.outcome.Succeeded?
    requires s.run.receipt.operationId in s.root.journal && s.run.receipt.operationId !in s.spool.receipts
    requires s.root.journal[s.run.receipt.operationId].outcome.Succeeded?
    requires s1 == s.(run := Committing(s.run.receipt, 1)) && s2 == s.(run := Committing(s.run.receipt, 2))
    ensures CommitWrite(s) == s1 && CommitWrite(s1) == s2
    ensures Contrary(CommitWrite(s2), s.run.receipt.operationId)
  {
  }

  lemma ThreeSteps(s: System, x: seq<Step>, s1: System, s2: System, s3: System)
    requires |x| == 3 && Apply(s, x[0]) == s1 && Apply(s1, x[1]) == s2 && Apply(s2, x[2]) == s3
    ensures Execution(s, x) == s3
  {
    hide Apply;
    assert x[..1][..0] == [] && x[..2][..1] == x[..1] && x[..3] == x;
    assert Execution(s, x[..1]) == s1;
    assert Execution(s, x[..2]) == s2;
  }

  /** The handler's state after a write in the middle: falling, or already answering. */
  predicate GivingUp(s: System, id: Id) {
    && id in s.root.journal && id !in s.spool.receipts && s.root.journal[id].outcome.Succeeded?
    && match s.run
       case Executing(o, _, _, _, phase) => o.id == id && phase.Falling? && !o.kind.Recover?
       case Committing(q, w) => q.operationId == id && !q.outcome.Succeeded? && w == 0
       case _ => false
  }

  lemma RaisedGivesUp(x: Watched)
    requires Sound(x) && x.trying.Some? && x.sys.run.Committing? && 1 <= x.sys.run.write <= 2
    ensures GivingUp(Act(x, WriteRaises).sys, x.sys.run.receipt.operationId)
  {
    hide CoreInv, MarkersSound, LabelsSound, SettledSound, Fits;
  }

  lemma GivingUpContradicts(s: System, id: Id)
    requires GivingUp(s, id)
    ensures Contrary(Execution(s, GivesUp(s)), id)
  {
    hide Execution, Apply;
    var writes: seq<Step> := seq(3, i => ByRoot(DoCommitWrite));
    if s.run.Executing? {
      var t := s.(run := Committing(PlainReceipt(s.run.operation, Blocked), 0));
      OneStep(s, ByRoot(DoRaise));
      RaiseFalling(s);
      ContraryCommits(t);
      ExecutionAppendsTo(s, [ByRoot(DoRaise)], writes, t);
    } else {
      ContraryCommits(s);
      assert GivesUp(s) == writes;
    }
  }

  lemma RaiseFalling(s: System)
    requires s.run.Executing? && s.run.phase.Falling? && !s.run.operation.kind.Recover?
    ensures Apply(s, ByRoot(DoRaise)) == s.(run := Committing(PlainReceipt(s.run.operation, Blocked), 0))
  {
  }

  /** In every run: when a write of a retirement's or recovery's commit raises, journal and
      spool can come to hold different receipts for it exactly if the write is the one of
      the current record or of the spool receipt. */
  lemma AnsweredAgreesExactly(registration: Registration, events: seq<Event>)
    requires var x := History(Begun(registration), events); x.trying.Some? && x.sys.run.Committing?
    ensures var x := History(Begun(registration), events); var id := x.sys.run.receipt.operationId;
            (exists more :: Contrary(History(Begun(registration), events + [WriteRaises] + Plainly(more)).sys, id))
            <==> x.sys.run.write == 1 || x.sys.run.write == 2
  {
    hide Sound, Act, History, Contrary, Agreeing;
    var t := Begun(registration);
    var x := History(t, events);
    var id := x.sys.run.receipt.operationId;
    BegunSound(registration);
    HistorySound(t, events);
    ActKeepsSound(x, WriteRaises);
    var y := Act(x, WriteRaises);
    OneRaise(x);
    HistoryAppends(t, events, [WriteRaises]);
    TryingWrites(x);
    if 1 <= x.sys.run.write <= 2 {
      RaisedGivesUp(x);
      GivingUpContradicts(y.sys, id);
      PlainHistory(y, GivesUp(y.sys));
      HistoryAppends(t, events + [WriteRaises], Plainly(GivesUp(y.sys)));
      assert Contrary(History(t, events + [WriteRaises] + Plainly(GivesUp(y.sys))).sys, id);
    } else {
      RaisedAgrees(x);
      forall more ensures !Contrary(History(t, events + [WriteRaises] + Plainly(more)).sys, id) {
        AgreeingAlong(y, id, more);
        HistoryAppends(t, events + [WriteRaises], Plainly(more));
        AgreeingIsNotContrary(History(y, Plainly(more)).sys, id);
      }
    }
  }

  lemma AgreeingIsNotContrary(s: System, id: Id)
    requires Agreeing(s, id)
    ensures !Contrary(s, id)
  {
  }

  lemma TryingWrites(x: Watched)
    requires Sound(x) && x.trying.Some?
    ensures x.sys.run.Committing? && x.sys.run.write <= 3
  {
    hide CoreInv, RecordsSound, RunSound;
  }

  lemma OneRaise(x: Watched)
    ensures History(x, [WriteRaises]) == Act(x, WriteRaises)
  {
    hide Act;
    assert [WriteRaises][..0] == [];
    assert History(x, []) == x;
  }

  // ---------------------------------------------------------------- until core hears of it

  /** A retirement or recovery with a success in the journal, whose write `k` raised. */
  datatype Raised = Raised(receipt: Receipt, k: nat, history: seq<Snapshot>)

  /** Root's record with every write of the commit done, and as the raising write left it. */
  function Wanted(w: Raised): Option<Snapshot> {
    if AcceptedBy(w.receipt).Some? then AcceptedBy(w.receipt) else Latest(w.history)
  }

  function Left(w: Raised): Option<Snapshot> { if w.k == 1 then Latest(w.history) else Wanted(w) }

  predicate Against(q: Receipt, w: Raised) { q.operationId == w.receipt.operationId && !q.outcome.Succeeded? }

  predicate Proper(w: Raised, o: Operation) {
    && 1 <= w.k <= 3 && w.receipt.outcome.Succeeded? && w.receipt.operationId == o.id
    && (o.kind.Retire? ==> w.receipt.installed.None?)
    && (o.kind.Recover? ==> w.receipt.retired.None?) && (o.kind.Retire? || o.kind.Recover?)
    && GenerationOf(Latest(w.history)) == |w.history|
    && (AcceptedBy(w.receipt).Some? ==> AcceptedBy(w.receipt).value.generation == |w.history| + 1)
  }

  /** The spool has a receipt: the record is what goes with it. */
  predicate Heard(s: System, w: Raised)
    requires w.receipt.operationId in s.spool.receipts
  {
    var heard := s.spool.receipts[w.receipt.operationId];
    && (s.run.Executing? ==> FallingBack(s.run.phase) && s.run.operation.id == w.receipt.operationId &&
                             s.run.operation.kind.Retire? && s.run.operation.recovers.None?)
    && !s.run.Booting?
    && (|| (heard == w.receipt && s.root.current == Wanted(w) &&
            (s.run.Committing? ==> s.run.receipt == w.receipt || Against(s.run.receipt, w)))
        || (Against(heard, w) && s.root.current == Left(w) && w.k < 3 &&
            (s.run.Committing? ==> Against(s.run.receipt, w)) && !s.run.Executing?))
  }

  /** The spool has none: a stop, a replay of the journal or the handler is under way. */
  predicate Unheard(s: System, w: Raised) {
    && w.k < 3
    && match s.run
       case Idle => s.root.current == Left(w) || s.root.current == Wanted(w)
       case Executing(o, _, _, _, phase) =>
         && o.id == w.receipt.operationId && FallingBack(phase) && o.kind.Retire? && o.recovers.None?
         && s.root.current == Left(w)
       case Committing(q, write) =>
         && write <= 2
         && (|| (Against(q, w) && s.root.current == Left(w))
             || (q == w.receipt && write >= 1 && (s.root.current == Left(w) || s.root.current == Wanted(w)) &&
                 (write == 2 ==> s.root.current == Wanted(w))))
       case Booting(_, _) => false
  }

  predicate Waiting(s: System, w: Raised) {
    var id := w.receipt.operationId;
    && s.core.active == Some(id) && SwitchingNow(s.core, id) && s.core.history == w.history
    && Proper(w, s.core.operations[id].operation) && s.core.operations[id].operation.id == id
    && id in s.root.journal && s.root.journal[id] == w.receipt
    && (if id in s.spool.receipts then Heard(s, w) else Unheard(s, w))
  }

  lemma WaitingCore(x: Watched, w: Raised, step: CoreStep)
    requires Sound(x) && Waiting(x.sys, w)
    ensures var s' := ApplyCore(x.sys, step);
            Waiting(s', w) || (s'.core.active != x.sys.core.active && w.receipt.operationId in s'.core.operations)
  {
    hide Sound, CoreInv, ApplyCore, Consume, Heard, Unheard, Proper;
    SoundParts(x);
    LostCoreMoves(x.sys, step);
    CoreStepLeavesRoot(x.sys, step);
    if !SameOperations(x.sys.core, ApplyCore(x.sys, step).core) {
      var f := step.facts;
      ConsumeEnds(x.sys.core, step.id, x.sys.spool.receipts[step.id], f);
    } else {
      WaitingStays(x.sys, ApplyCore(x.sys, step), w);
    }
  }

  lemma ConsumeEnds(c: Core, id: Id, r: Receipt, f: Facts)
    requires CoreInv(c) && c.active == Some(id) && Consume(c, id, r, f).Ok?
    ensures Consume(c, id, r, f).value.active.None? && id in Consume(c, id, r, f).value.operations
  {
    hide Consume, EffectiveReceipt, HistoryShape, HistoryBacked, DeploysRehearsed, RegistrationFollows;
    ConsumeForm(c, id, r, f);
  }

  /** Nothing but the registration, the offers and request files changed. */
  lemma WaitingStays(s: System, s': System, w: Raised)
    requires Waiting(s, w) && SameOperations(s.core, s'.core)
    requires s'.root == s.root && s'.run == s.run && s'.spool.receipts == s.spool.receipts
    ensures Waiting(s', w)
  {
    hide Proper;
  }

  lemma WaitingBegin(x: Watched, w: Raised, id: Id, h: Host)
    requires Sound(x) && Waiting(x.sys, w)
    ensures Waiting(Begin(x.sys, id, h), w)
  {
    hide CoreInv, RunSound, TryingSound, RootAuthority, MarkersSound, LabelsSound, Fits, Proper;
    if id in x.sys.core.operations && id !in x.sys.spool.receipts {
      UnpublishedIsActive(x.sys, id);
    }
  }

  lemma WaitingWrite(s: System, w: Raised)
    requires Waiting(s, w)
    ensures Waiting(CommitWrite(s), w)
  {
  }

  lemma WaitingDecision(s: System, w: Raised, step: RootStep)
    requires Waiting(s, w) && !step.DoBegin? && !step.DoCommitWrite? && !step.DoBootBegin?
    ensures Waiting(ApplyRoot(s, step), w)
  {
    hide RootAuthority, ReadInstalledAuthority, Adoptable, Contradicts, ProbePasses, Proper, Wanted;
  }

  lemma WaitingBoot(s: System, w: Raised, h: Host)
    requires Waiting(s, w)
    ensures BootBegin(s, h) == s
  {
    hide Heard, Unheard, Proper;
  }

  lemma WaitingHost(s: System, w: Raised, step: HostStep)
    requires Waiting(s, w)
    ensures Waiting(ApplyHost(s, step), w)
  {
    hide Proper, Adoptable, Wanted;
  }

  lemma WaitingStep(x: Watched, w: Raised, step: Step)
    requires Sound(x) && Waiting(x.sys, w)
    ensures var s' := Apply(x.sys, step);
            Waiting(s', w) || (s'.core.active != x.sys.core.active && w.receipt.operationId in s'.core.operations)
  {
    hide Sound, Waiting, ApplyCore, ApplyRoot, ApplyHost;
    match step
    case ByCore(c) => WaitingCore(x, w, c);
    case OnHost(h) => WaitingHost(x.sys, w, h);
    case ByRoot(r) =>
      RootByName(x.sys, r);
      BootByName(x.sys, r);
      if r.DoBegin? {
        WaitingBegin(x, w, r.id, r.host);
      } else if r.DoCommitWrite? {
        WaitingWrite(x.sys, w);
      } else if r.DoBootBegin? {
        WaitingBoot(x.sys, w, r.host);
      } else {
        WaitingDecision(x.sys, w, r);
      }
  }

  lemma BootByName(s: System, step: RootStep)
    ensures step.DoBootBegin? ==> ApplyRoot(s, step) == BootBegin(s, step.host)
  {
  }

  /** The operation is waiting still, or core has heard and it will never be active again. */
  predicate WaitsOrEnded(x: Watched, w: Raised) {
    && Sound(x) && w.receipt.operationId in x.sys.core.operations
    && (x.sys.core.active == Some(w.receipt.operationId) ==> Waiting(x.sys, w))
  }

  lemma WaitsOrEndedStep(x: Watched, w: Raised, step: Step)
    requires WaitsOrEnded(x, w)
    ensures WaitsOrEnded(Act(x, Does(step)), w)
  {
    hide Sound, Waiting, ApplyCore, ApplyRoot, ApplyHost;
    ActKeepsSound(x, Does(step));
    SoundParts(x);
    var id := w.receipt.operationId;
    if x.sys.core.active == Some(id) {
      WaitingStep(x, w, step);
      WaitingKnows(Apply(x.sys, step), w);
    } else {
      match step
      case ByCore(c) =>
        InFlightWaits(x.sys, c);
        CoreStepKeepsDocuments(x, c);
      case ByRoot(r) => RootStepIsLater(x.sys, r);
      case OnHost(h) => HostStepIsLater(x.sys, h);
    }
  }

  lemma WaitingKnows(s: System, w: Raised)
    ensures Waiting(s, w) ==> w.receipt.operationId in s.core.operations
  {
    hide Proper, Heard, Unheard;
  }

  lemma CoreStepKeepsDocuments(x: Watched, step: CoreStep)
    requires Sound(x)
    ensures OperationsKept(x.sys.core.operations, ApplyCore(x.sys, step).core.operations)
  {
    hide Sound, CoreInv, RecordsSound, SettledSound, ApplyCore, Acknowledge, Consume;
    SoundParts(x);
    var c, c' := x.sys.core, ApplyCore(x.sys, step).core;
    CoreStepKinds(x.sys, step);
    if !SameOperations(c, c') && step.DoAcknowledge? {
      AcknowledgeMoves(c, step.id, x.sys.spool.receipts);
    }
    if !SameOperations(c, c') && step.DoConsume? {
      ConsumeMoves(c, step.id, step.facts, x.sys.spool.receipts);
    }
  }

  lemma {:induction false} WaitsAlong(x: Watched, w: Raised, steps: seq<Step>)
    requires WaitsOrEnded(x, w)
    ensures WaitsOrEnded(History(x, Plainly(steps)), w)
    decreases |steps|
  {
    hide WaitsOrEnded, Act;
    if steps != [] {
      var k := |steps| - 1;
      assert Plainly(steps)[..k] == Plainly(steps[..k]);
      WaitsAlong(x, w, steps[..k]);
      WaitsOrEndedStep(History(x, Plainly(steps[..k])), w, steps[k]);
    }
  }

  // ---------------------------------------------------------------- what core then holds

  /** While such a commit is unheard of, the system is still a faithful one. */
  lemma TryingIsFaithful(x: Watched)
    requires Mode(x) && x.trying.Some? && x.sys.run.Committing?
    requires x.sys.core.active == Some(x.sys.run.receipt.operationId)
    ensures Faithful(x)
  {
    hide CoreInv, RecordsSound, Inv, Differ, Retrying, Handling, Fits;
  }

  lemma CommitFacts(x: Watched)
    requires Sound(x) && Faithful(x) && x.trying.Some? && x.sys.run.Committing? && 1 <= x.sys.run.write
    requires x.sys.core.active == Some(x.sys.run.receipt.operationId)
    ensures var s := x.sys; var r := s.run.receipt; var w := Raised(r, s.run.write, s.core.history);
            && SwitchingNow(s.core, r.operationId) && Proper(w, s.core.operations[r.operationId].operation)
            && r.operationId in s.root.journal && s.root.journal[r.operationId] == r
            && s.root.current == Left(w)
            && (r.operationId in s.spool.receipts <==> s.run.write == 3)
            && (s.run.write == 3 ==> s.spool.receipts[r.operationId] == r)
  {
    hide HistoryBacked, DeploysRehearsed, RegistrationFollows, InFlightCurrent, Exclusive, RecordsSound, SettledOk,
         MarkersOk, RequestsOk, ConsumedOk, TruthOk, ContainerOk, TouchedOk, Fits;
    var s := x.sys;
    var id := s.run.receipt.operationId;
    LatestGeneration(s.core);
    assert CommittingOk(s.core, s.spool, AsTold(s).root, s.run, s.touched);
    assert ReceiptShape(s.core.operations, s.core.operations[id].operation, AsTold(s).root.journal[id]);
  }

  lemma RaisedWaits(x: Watched)
    requires Sound(x) && Faithful(x) && x.trying.Some? && x.sys.run.Committing? && 1 <= x.sys.run.write
    requires x.sys.core.active == Some(x.sys.run.receipt.operationId)
    ensures WaitsOrEnded(Act(x, WriteRaises), Raised(x.sys.run.receipt, x.sys.run.write, x.sys.core.history))
  {
    hide CoreInv, RecordsSound, Faithful, Proper, Wanted, Fits, Act;
    ActKeepsSound(x, WriteRaises);
    CommitFacts(x);
    RetirementHasMarker(x);
    AnswerBegins(x);
    KeyedId(x, x.sys.run.receipt.operationId);
  }

  lemma RetirementHasMarker(x: Watched)
    requires Sound(x) && Faithful(x) && x.trying.Some? && x.sys.run.Committing?
    ensures x.trying.value.Executing? && CanFallBack(x.sys.root.markers, x.trying.value)
  {
    hide CoreInv, RecordsSound, Inv, Differ;
  }

  /** Where the handler starts once the journal has its receipt. */
  lemma AnswerBegins(x: Watched)
    requires Sound(x) && x.trying.Some? && x.sys.run.Committing? && x.sys.run.write >= 1
    requires x.trying.value.Executing? && CanFallBack(x.sys.root.markers, x.trying.value)
    ensures var y := Act(x, WriteRaises).sys; var id := x.sys.run.receipt.operationId;
            && y == x.sys.(run := y.run)
            && (if y.run.Executing? then
                  && y.run.operation.id == id && FallingBack(y.run.phase) && y.run.operation.kind.Retire?
                  && y.run.operation.recovers.None?
                else
                  y.run.Committing? && y.run.write == 0 && y.run.receipt.operationId == id &&
                  !y.run.receipt.outcome.Succeeded?)
  {
    hide HistoryShape, HistoryBacked, DeploysRehearsed, RegistrationFollows, InFlightCurrent, RecordsSound, RunSound;
  }

  lemma HeardThen(z: System, w: Raised, f: Facts)
    requires CoreInv(z.core) && Waiting(z, w) && w.receipt.operationId in z.spool.receipts
    requires Consume(z.core, w.receipt.operationId, z.spool.receipts[w.receipt.operationId], f).Ok?
    ensures var heard := z.spool.receipts[w.receipt.operationId];
            z.root.current == Latest(Consume(z.core, w.receipt.operationId, heard, f).value.history) <==>
              !(w.k == 2 && AcceptedBy(w.receipt).Some? && heard != w.receipt)
  {
    hide Consume, HistoryShape, HistoryBacked, DeploysRehearsed, RegistrationFollows, InFlightCurrent;
    var id := w.receipt.operationId;
    var heard := z.spool.receipts[id];
    ConsumeForm(z.core, id, heard, f);
    ConsumedLatestRow(z.core, id, heard);
  }

  lemma ConsumedLatestRow(c: Core, id: Id, e: Receipt)
    requires c.active == Some(id) && id in c.operations
    requires c.blocked.Some? ==> c.blocked.value in c.operations
    ensures var row := ConsumedRow(c, c.operations[id].operation, e);
            Latest(Consumed(c, id, e).history) == if row.Some? then row else Latest(c.history)
  {
  }

  /** Write number `k` of a retirement's or recovery's commit raises. Whatever follows, when
      core has consumed the receipt the spool came to hold, core's latest generation is root's
      record, except exactly when the record had been written, the spool receipt had not, and
      the handler's receipt is the one core was given. */
  lemma RecordSurvivesExactly(registration: Registration, events: seq<Event>, more: seq<Step>, f: Facts)
    requires AllSpared(Begun(registration), events)
    requires var x := History(Begun(registration), events);
             && x.trying.Some? && x.sys.run.Committing? && x.sys.core.active == Some(x.sys.run.receipt.operationId)
    requires var id := History(Begun(registration), events).sys.run.receipt.operationId;
             var z := History(Begun(registration), events + [WriteRaises] + Plainly(more)).sys;
             z.core.active == Some(id) && id in z.spool.receipts && Consume(z.core, id, z.spool.receipts[id], f).Ok?
    ensures var x := History(Begun(registration), events).sys; var r := x.run.receipt;
            var z := History(Begun(registration), events + [WriteRaises] + Plainly(more)).sys;
            var heard := z.spool.receipts[r.operationId];
            z.root.current == Latest(Consume(z.core, r.operationId, heard, f).value.history) <==>
              !(x.run.write == 2 && AcceptedBy(r).Some? && heard != r)
  {
    hide Sound, Faithful, Mode, AllSpared, History, Act, Consume, WaitsOrEnded;
    var t := Begun(registration);
    var x := History(t, events);
    BegunMode(registration);
    HistoryMode(t, events);
    ModeIsSound(x);
    TryingIsFaithful(x);
    OneRaise(x);
    HistoryAppends(t, events, [WriteRaises]);
    HistoryAppends(t, events + [WriteRaises], Plainly(more));
    var y := Act(x, WriteRaises);
    var z := History(y, Plainly(more));
    if x.sys.run.write == 0 {
      RaisedBeforeJournal(x);
      ActKeepsSound(x, WriteRaises);
      FaithfulAlong(y, more);
      FaithfulMeetsRoot(z, x.sys.run.receipt.operationId, f);
    } else {
      RaisedWaits(x);
      var w := Raised(x.sys.run.receipt, x.sys.run.write, x.sys.core.history);
      WaitsAlong(y, w, more);
      WaitsParts(z, w);
      HeardThen(z.sys, w, f);
    }
  }

  lemma ModeIsSound(x: Watched)
    requires Mode(x)
    ensures Sound(x)
  {
  }

  lemma WaitsParts(x: Watched, w: Raised)
    requires WaitsOrEnded(x, w) && x.sys.core.active == Some(w.receipt.operationId)
    ensures CoreInv(x.sys.core) && Waiting(x.sys, w)
  {
    hide Waiting;
  }

  lemma {:induction false} FaithfulAlong(x: Watched, steps: seq<Step>)
    requires Sound(x) && Faithful(x)
    ensures Sound(History(x, Plainly(steps))) && Faithful(History(x, Plainly(steps)))
    decreases |steps|
  {
    hide Sound, Faithful, Act;
    if steps != [] {
      var k := |steps| - 1;
      assert Plainly(steps)[..k] == Plainly(steps[..k]);
      FaithfulAlong(x, steps[..k]);
      ActKeepsSound(History(x, Plainly(steps[..k])), Does(steps[k]));
      FaithfulStep(History(x, Plainly(steps[..k])), steps[k]);
    }
  }

  lemma FaithfulMeetsRoot(x: Watched, id: Id, f: Facts)
    requires Faithful(x) && id in x.sys.spool.receipts && x.sys.core.active == Some(id)
    requires Consume(x.sys.core, id, x.sys.spool.receipts[id], f).Ok?
    ensures Latest(Consume(x.sys.core, id, x.sys.spool.receipts[id], f).value.history) == x.sys.root.current
  {
    hide Inv, Consume, Differ, Retrying;
    ConsumedMeetsRoot(AsTold(x.sys), id, f);
  }
}
