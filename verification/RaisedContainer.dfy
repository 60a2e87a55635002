/** Which raising writes keep the gateway's promise about the container: every one but a
    retirement's write of the current record. */
module RaisedContainer {
  import opened Wrappers
  import opened DeploymentContracts
  import opened Ledger
  import opened LedgerInvariant
  import opened Protocol
  import opened ProtocolInvariant
  import opened ProtocolSteps
  import opened ProtocolCoreSteps
  import opened DeploymentRuns
  import opened DeploymentSafety
  import opened RaisedCommits
  import opened RaisedInvariant
  import opened RaisedDeadEnds
  import opened RaisedTold
  import opened RaisedModes

  // ---------------------------------------------------------------- a write raises

  /** Before the journal has the receipt, the handler does what it does for any exception. */
  lemma RaisedBeforeJournal(x: Watched)
    requires Sound(x) && Faithful(x) && x.trying.Some? && x.sys.run.Committing? && x.sys.run.write == 0
    ensures Faithful(Act(x, WriteRaises))
  {
    hide CoreInv, RecordsSound, OnlyRecoveriesDiffer, Inv, RunSound;
    var s, e := x.sys, x.trying.value;
    var t := s.(run := e);
    assert AsTold(t) == AsTold(s).(run := e);
    ApplyKeepsInv(AsTold(t), ByRoot(DoRaise));
    RaiseMovesProcess(t);
    RaiseMovesProcess(AsTold(t));
    assert AsTold(Answering(s, e)) == Raise(AsTold(t));
  }

  lemma RaiseMovesProcess(s: System)
    ensures Apply(s, ByRoot(DoRaise)) == Raise(s) && Raise(s) == s.(run := Raise(s).run)
    ensures Raise(AsTold(s)).run == Raise(s).run
  {
  }

  lemma RecoveryAnswered(x: Watched)
    requires Sound(x) && Faithful(x) && x.trying.Some? && x.sys.run.Committing? && x.sys.run.write >= 1
    requires x.trying.value.operation.kind.Recover?
    ensures Handler(Act(x, WriteRaises))
  {
    hide CoreInv, RecordsSound, OnlyRecoveriesDiffer, Inv, Fits;
    var y := Act(x, WriteRaises);
    assert Stopped(AsTold(y.sys)) == Stopped(AsTold(x.sys));
    RunChangeKeepsInv(AsTold(x.sys), Idle);
  }

  lemma RetirementAnswered(x: Watched)
    requires Sound(x) && Faithful(x) && x.trying.Some? && x.sys.run.Committing? && x.sys.run.write >= 2
    requires x.trying.value.operation.kind.Retire?
    ensures Handler(Act(x, WriteRaises))
  {
    hide CoreInv, RecordsSound, OnlyRecoveriesDiffer, Inv, Fits;
    var y := Act(x, WriteRaises);
    assert Stopped(AsTold(y.sys)) == Stopped(AsTold(x.sys));
    RunChangeKeepsInv(AsTold(x.sys), Idle);
    if IsActive(x.sys.core, x.sys.run.receipt.operationId) {
      RetirementIsAhead(x);
    }
  }

  /** Two writes done, root's record is the retirement. */
  lemma RetirementIsAhead(x: Watched)
    requires Sound(x) && Faithful(x) && x.trying.Some? && x.sys.run.Committing? && x.sys.run.write >= 2
    requires x.trying.value.operation.kind.Retire? && IsActive(x.sys.core, x.sys.run.receipt.operationId)
    ensures Ahead(x.sys, x.sys.run.receipt.operationId)
  {
    hide HistoryShape, HistoryBacked, DeploysRehearsed, RegistrationFollows, InFlightCurrent, Exclusive, RecordsSound,
         SettledOk, MarkersOk, RequestsOk, AdmittedOk, ConsumedOk, TruthOk, ContainerOk, TouchedOk, Fits;
    var s := x.sys;
    var id := s.run.receipt.operationId;
    assert CommittingOk(s.core, s.spool, AsTold(s).root, s.run, s.touched);
    assert ReceiptShape(s.core.operations, s.core.operations[id].operation, AsTold(s).root.journal[id]);
    assert id in s.root.journal && s.root.journal[id] == s.run.receipt;
  }

  // ---------------------------------------------------------------- once core and root have parted

  lemma LostCoreMoves(s: System, step: CoreStep)
    requires CoreInv(s.core) && s.core.active.Some? && SwitchingNow(s.core, s.core.active.value)
    ensures || SameOperations(s.core, ApplyCore(s, step).core)
            || (step.DoConsume? && s.core.active == Some(step.id) && step.id in s.spool.receipts &&
                Consume(s.core, step.id, s.spool.receipts[step.id], step.facts).Ok? &&
                ApplyCore(s, step).core == Consume(s.core, step.id, s.spool.receipts[step.id], step.facts).value)
  {
    hide CoreInv, ApplyCore, Acknowledge, Consume;
    CoreStepKinds(s, step);
    if step.DoAcknowledge? {
      AcknowledgesNothing(s.core, step.id);
    }
    if step.DoConsume? && step.id in s.spool.receipts &&
       Consume(s.core, step.id, s.spool.receipts[step.id], step.facts).Ok?
    {
      ConsumeMayEnd(s.core, step.id, s.spool.receipts[step.id], step.facts);
    }
  }

  lemma AcknowledgesNothing(c: Core, id: Id)
    requires CoreInv(c) && c.active.Some? && SwitchingNow(c, c.active.value)
    ensures Acknowledge(c, id) == c
  {
    hide HistoryShape, HistoryBacked, DeploysRehearsed, RegistrationFollows;
  }

  /** Told of a failure, core ends the operation, blocks or stays blocked, and appends nothing. */
  lemma LostIsConsumed(c: Core, id: Id, r: Receipt, f: Facts)
    requires CoreInv(c) && c.active == Some(id) && Consume(c, id, r, f).Ok?
    requires !r.outcome.Succeeded? && (c.blocked.None? ==> r.outcome.Blocked?)
    ensures var c' := Consume(c, id, r, f).value;
            c'.active.None? && c'.blocked.Some? && c'.history == c.history
  {
    hide HistoryShape, HistoryBacked, DeploysRehearsed, RegistrationFollows, InFlightCurrent;
  }

  lemma LostCore(x: Watched, step: CoreStep)
    requires Sound(x) && Lost(x.sys)
    ensures Parted(Act(x, Does(ByCore(step))))
  {
    hide Sound, CoreInv, Consume, ApplyCore, DeadEnd;
    var s := x.sys;
    var y := Act(x, Does(ByCore(step)));
    SoundParts(x);
    CoreStepKeepsSound(x, step);
    LostCoreMoves(s, step);
    CoreStepLeavesRoot(s, step);
    if !SameOperations(s.core, y.sys.core) {
      LostIsConsumed(s.core, step.id, s.spool.receipts[step.id], step.facts);
      DeadEndBegins(y);
    }
  }

  /** Nothing is left for root to begin: the one operation in flight has its receipt. */
  lemma LostBegins(x: Watched, id: Id, h: Host)
    requires Sound(x) && Lost(x.sys)
    ensures Begin(x.sys, id, h) == x.sys
  {
    hide CoreInv, Fits, RunSound, TryingSound, RootAuthority;
    if id in x.sys.core.operations && id !in x.sys.spool.receipts {
      UnpublishedIsActive(x.sys, id);
    }
  }

  lemma LostDecides(s: System, step: RootStep)
    requires Lost(s) && !step.DoBegin?
    ensures var s' := ApplyRoot(s, step);
            && s'.core == s.core && s'.root.current == s.root.current && s'.spool.receipts == s.spool.receipts
            && (s'.run == s.run || s'.run.Idle?)
  {
    hide RootAuthority, Adoptable, Contradicts, ProbePasses, ReadInstalledAuthority;
    if step.DoBootBegin? {
      var nothing := Selection(0, 0, Sha256(s.core.registration), 0, 0, 0, 0);
      DifferingRefuses(s, Operation(0, 0, Rehearse, nothing, 0, 0, None, None), step.host);
    }
  }

  lemma LostRoot(x: Watched, step: RootStep)
    requires Sound(x) && Lost(x.sys)
    ensures Parted(Act(x, Does(ByRoot(step))))
  {
    hide Sound, Begin, DeadEnd;
    if step.DoBegin? {
      LostBegins(x, step.id, step.host);
    } else {
      hide ApplyRoot;
      LostDecides(x.sys, step);
    }
  }

  lemma LostHost(x: Watched, step: HostStep)
    requires Lost(x.sys)
    ensures Parted(Act(x, Does(OnHost(step))))
  {
    hide DeadEnd, ApplyHost;
    HostLeavesRecords(x.sys, step);
    LostProcess(x.sys, step);
  }

  lemma LostProcess(s: System, step: HostStep)
    requires Lost(s)
    ensures ApplyHost(s, step).run == s.run
  {
    hide Adoptable;
  }

  lemma LostHasNothingAtHand(x: Watched)
    requires Sound(x) && Lost(x.sys)
    ensures Act(x, WriteRaises) == x
  {
    hide CoreInv, RecordsSound, RunSound;
  }

  lemma LostStays(x: Watched, e: Event)
    requires Sound(x) && Lost(x.sys)
    ensures Parted(Act(x, e))
  {
    hide Sound, Lost, Act, DeadEnd;
    match e
    case WriteRaises => LostHasNothingAtHand(x);
    case Does(ByCore(step)) => LostCore(x, step);
    case Does(ByRoot(step)) => LostRoot(x, step);
    case Does(OnHost(step)) => LostHost(x, step);
  }

  lemma PartedStays(x: Watched, e: Event)
    requires Sound(x) && Parted(x)
    ensures Parted(Act(x, e))
  {
    hide Sound, Lost, Act, DeadEnd;
    if Lost(x.sys) {
      LostStays(x, e);
    } else {
      var b := x.sys.core.blocked.value;
      ActInDeadEnd(x, b, e);
      assert DeadEnd(Act(x, e), b);
    }
  }

  // ---------------------------------------------------------------- every run

  /** The one raising write this leaves out: a retirement's write of the current record. */
  predicate Spared(x: Watched, e: Event) {
    e.WriteRaises? && x.trying.Some? && x.trying.value.Executing? && x.trying.value.operation.kind.Retire? ==>
      !(x.sys.run.Committing? && x.sys.run.write == 1)
  }

  predicate AllSpared(x: Watched, events: seq<Event>) {
    forall i | 0 <= i < |events| :: Spared(History(x, events[..i]), events[i])
  }

  lemma HandlerStays(x: Watched, e: Event)
    requires Sound(x) && Handler(x)
    ensures var y := Act(x, e); Handler(y) || Faithful(y) || Lost(y.sys)
  {
    hide Sound, Faithful, Lost, Inv, Differ, Answers;
    match e
    case WriteRaises =>
    case Does(ByCore(step)) => HandlerCore(x, step);
    case Does(OnHost(step)) => HandlerEffect(x, step);
    case Does(ByRoot(step)) =>
      if x.sys.run.Committing? {
        HandlerCommits(x, step);
      } else {
        HandlerFalls(x, step);
      }
  }

  lemma FaithfulStays(x: Watched, e: Event)
    requires Sound(x) && Faithful(x) && Spared(x, e)
    ensures Faithful(Act(x, e)) || Handler(Act(x, e))
  {
    hide Faithful, Handler, RecordsSound, CoreInv, RunSound;
    match e
    case Does(step) => FaithfulStep(x, step);
    case WriteRaises =>
      if x.trying.Some? && x.sys.run.Committing? {
        if x.sys.run.write == 0 {
          RaisedBeforeJournal(x);
        } else if x.trying.value.operation.kind.Recover? {
          RecoveryAnswered(x);
        } else {
          RetirementAnswered(x);
        }
      }
  }

  lemma ActKeepsMode(x: Watched, e: Event)
    requires Mode(x) && Spared(x, e)
    ensures Mode(Act(x, e))
  {
    hide Sound, Faithful, Handler, Lost, Act, DeadEnd;
    ActKeepsSound(x, e);
    if Faithful(x) {
      FaithfulStays(x, e);
    } else if Handler(x) {
      HandlerStays(x, e);
    } else {
      PartedStays(x, e);
    }
  }

  lemma BegunMode(registration: Registration)
    ensures Mode(Begun(registration))
  {
    hide Sound, Inv;
    BegunSound(registration);
    StartInv(registration);
    assert AsTold(Start(registration)) == Start(registration);
  }

  lemma {:induction false} HistoryMode(x: Watched, events: seq<Event>)
    requires Mode(x) && AllSpared(x, events)
    ensures Mode(History(x, events))
    decreases |events|
  {
    hide Mode, Act, Spared;
    if events != [] {
      var k := |events| - 1;
      forall i | 0 <= i < k ensures Spared(History(x, events[..k][..i]), events[..k][i]) {
        assert events[..k][..i] == events[..i];
      }
      HistoryMode(x, events[..k]);
      ActKeepsMode(History(x, events[..k]), events[k]);
    }
  }

  lemma ModeAgrees(x: Watched)
    requires Mode(x) && Settled(x.sys.core)
    ensures x.sys.root.current == Latest(x.sys.core.history) && AtCurrent(x.sys.root)
  {
    hide Sound, Inv, Differ, Retrying, Handling;
    if Faithful(x) {
      SettledAgrees(AsTold(x.sys));
    } else if Handler(x) {
      SettledAgrees(Stopped(AsTold(x.sys)));
    } else {
      hide DeadEnd;
      assert false;
    }
  }

  /** The gateway's promise over every run of the extended system in which no retirement's
      write of the current record raises: whatever else raises, is answered, stopped and
      replayed, root's record is core's latest generation whenever nothing is pending, and
      the container is absent or that generation's. */
  lemma GateSurvivesRaises(registration: Registration, events: seq<Event>, requireInstalled: bool)
    requires AllSpared(Begun(registration), events)
    requires var c := History(Begun(registration), events).sys.core;
             AdmissionRefusal(c, requireInstalled) != Some(InstallationPending)
    ensures var s := History(Begun(registration), events).sys; var latest := Latest(s.core.history);
            && s.root.current == latest
            && (s.root.container.Some? ==> latest.Some? && Runs(s.root.container.value, latest.value))
            && (latest.None? || latest.value.Retired? ==> s.root.container.None?)
  {
    hide Sound, CoreInv, Mode;
    var x := History(Begun(registration), events);
    BegunMode(registration);
    HistoryMode(Begun(registration), events);
    BegunSound(registration);
    HistorySound(Begun(registration), events);
    SoundParts(x);
    SettledExactly(x.sys.core);
    ModeAgrees(x);
  }
}
