/** Two dead ends a raising write can leave behind, which no later step of core, root or the
    host undoes: a blocked operation whose journal receipt is not blocked, and a record of
    root's that differs from core's latest generation while an operation is blocked. */
module RaisedDeadEnds {
  import opened Wrappers
  import opened DeploymentContracts
  import opened Ledger
  import opened LedgerInvariant
  import opened Protocol
  import opened ProtocolInvariant
  import opened ProtocolCoreSteps
  import opened DeploymentRuns
  import opened RaisedCommits
  import opened RaisedInvariant

  /** Root has no blocked receipt to recover from. */
  predicate Unrecoverable(s: System, b: Id) { b in s.root.journal && !s.root.journal[b].outcome.Blocked? }

  predicate Differing(s: System) { s.root.current != Latest(s.core.history) }

  /** No receipt of the operation in flight is a success. */
  predicate Unsuccessful(s: System) {
    s.core.active.Some? ==>
      && (s.core.active.value in s.root.journal ==> !s.root.journal[s.core.active.value].outcome.Succeeded?)
      && (s.core.active.value in s.spool.receipts ==> !s.spool.receipts[s.core.active.value].outcome.Succeeded?)
  }

  /** Nothing the process is doing can still succeed. */
  predicate Futile(s: System, b: Id) {
    && (s.run.Executing? && s.run.operation.id !in s.root.journal ==>
          && Unrecoverable(s, b)
          && (s.run.phase.Preparing? || s.run.phase.Announced? || s.run.phase.Admitted?))
    && (s.run.Committing? && s.run.receipt.outcome.Succeeded? ==> s.run.write >= 3)
  }

  predicate DeadEnd(x: Watched, b: Id) {
    && Sound(x) && x.sys.core.blocked == Some(b)
    && (Unrecoverable(x.sys, b) || Differing(x.sys))
    && Unsuccessful(x.sys) && Futile(x.sys, b)
  }

  /** With nothing in flight either difference is a dead end already. */
  lemma DeadEndBegins(x: Watched)
    requires Sound(x) && x.sys.core.blocked.Some? && x.sys.core.active.None?
    requires Unrecoverable(x.sys, x.sys.core.blocked.value) || Differing(x.sys)
    ensures DeadEnd(x, x.sys.core.blocked.value)
  {
    hide CoreInv, RecordsSound;
  }

  /** What a dead end keeps, whichever of the two it is. */
  predicate Same(s: System, s': System, b: Id) {
    && s'.core.blocked == Some(b) && s'.core.history == s.core.history && s'.root.current == s.root.current
    && (Unrecoverable(s, b) ==> Unrecoverable(s', b))
    && Unsuccessful(s') && Futile(s', b)
  }

  lemma SameStays(x: Watched, x': Watched, b: Id)
    requires DeadEnd(x, b) && Sound(x') && Same(x.sys, x'.sys, b)
    ensures DeadEnd(x', b)
  {
    hide Sound, Unsuccessful, Futile;
  }

  // ---------------------------------------------------------------- core

  /** The operation in flight beside a block is a recovery, and its failure settles nothing. */
  lemma ConsumeInDeadEnd(x: Watched, b: Id, id: Id, f: Facts)
    requires DeadEnd(x, b) && id in x.sys.spool.receipts && Consume(x.sys.core, id, x.sys.spool.receipts[id], f).Ok?
    ensures var c' := Consume(x.sys.core, id, x.sys.spool.receipts[id], f).value;
            && c'.blocked == Some(b) && c'.history == x.sys.core.history
            && (c'.active == x.sys.core.active || c'.active.None?)
  {
    hide Consume, HistoryShape, HistoryBacked, DeploysRehearsed, RegistrationFollows, MarkersSound, LabelsSound;
    hide RunSound, TryingSound, SettledSound;
    var c, r := x.sys.core, x.sys.spool.receipts[id];
    if Active(c.operations[id].state) {
      ConsumeForm(c, id, r, f);
      FailureSettlesOnly(c, id, r, f);
    } else {
      SettledIsLeftAlone(c, id, r, f);
    }
  }

  lemma FailureSettlesOnly(c: Core, id: Id, r: Receipt, f: Facts)
    requires CoreInv(c) && c.blocked.Some? && id in c.operations && Active(c.operations[id].state)
    requires ReceiptFits(c.operations, c.operations[id].operation, r) && !r.outcome.Succeeded?
    ensures EffectiveReceipt(c, c.operations[id].operation, r, f) == r
    ensures var c' := Consumed(c, id, r);
            c'.blocked == c.blocked && c'.history == c.history && c'.active.None?
  {
    hide HistoryShape, HistoryBacked, DeploysRehearsed, RegistrationFollows, AcceptedRow;
  }

  lemma CoreInDeadEnd(x: Watched, b: Id, step: CoreStep)
    requires DeadEnd(x, b)
    ensures Same(x.sys, ApplyCore(x.sys, step), b)
  {
    hide CoreInv, RecordsSound, RunSound, TryingSound, ApplyCore, Acknowledge, Consume;
    var c, c' := x.sys.core, ApplyCore(x.sys, step).core;
    CoreStepLeavesRoot(x.sys, step);
    CoreStepKinds(x.sys, step);
    if !SameOperations(c, c') {
      if step.DoRequest? {
        FreshIsUnknown(x, step.newId);
      } else if step.DoAcknowledge? {
        AcknowledgeMovesState(c, step.id);
      } else {
        ConsumeInDeadEnd(x, b, step.id, step.facts);
      }
    }
  }

  lemma FreshIsUnknown(x: Watched, id: Id)
    requires Sound(x) && id !in x.sys.core.operations
    ensures id !in x.sys.root.journal && id !in x.sys.spool.receipts
  {
    hide CoreInv, RunSound, TryingSound, MarkersSound, LabelsSound;
  }

  lemma AcknowledgeMovesState(c: Core, id: Id)
    requires CoreInv(c)
    ensures var c' := Acknowledge(c, id);
            c'.blocked == c.blocked && c'.active == c.active && c'.history == c.history
  {
    hide HistoryShape, HistoryBacked, DeploysRehearsed, RegistrationFollows;
  }

  // ---------------------------------------------------------------- root and the host

  /** Root accepts no authority while its record differs. */
  lemma DifferingRefuses(s: System, o: Operation, h: Host)
    requires Differing(s)
    ensures RootAuthority(s, o, h).Err? && BootBegin(s, h) == s
  {
    if ReadAuthority(s.core, o.id, h.facts).Ok? {
      AuthorityForm(s.core, o.id, h.facts);
    }
  }

  /** The recovery being executed finds nothing to recover from. */
  lemma NothingToRecover(x: Watched, b: Id)
    requires DeadEnd(x, b)
    ensures !AtRecovery(x.sys)
  {
    hide HistoryShape, HistoryBacked, DeploysRehearsed, RegistrationFollows, InFlightCurrent, RecordsSound;
  }

  predicate Moving(step: RootStep) {
    !ProtocolCoreSteps.Records(step) && !step.DoBegin?
  }

  /** All an execution can be in a dead end: a recovery that has not started recovering, or
      the handler of a retirement whose commit raised. */
  predicate Course(s: System) {
    s.run.Executing? ==>
      if s.run.operation.id in s.root.journal then
        s.run.operation.kind.Retire? && s.run.operation.recovers.None? && FallingBack(s.run.phase)
      else
        && s.run.operation.kind.Recover? && !AtRecovery(s)
        && (s.run.phase.Preparing? || s.run.phase.Announced? || s.run.phase.Admitted?)
  }

  lemma CourseInDeadEnd(x: Watched, b: Id)
    requires DeadEnd(x, b)
    ensures Course(x.sys) && Futile(x.sys, b)
  {
    hide HistoryShape, HistoryBacked, DeploysRehearsed, RegistrationFollows, InFlightCurrent, RecordsSound;
    NothingToRecover(x, b);
  }

  lemma SwitchingInDeadEnd(s: System, b: Id, h: Host, archive: Option<Digest>, image: Option<ImageId>)
    requires Course(s) && Futile(s, b)
    ensures Futile(Rehearsed(s, image), b) && Futile(Poll(s), b) && Futile(Recheck(s, h), b) && Futile(Probe(s), b)
    ensures Futile(FinishDeploy(s, h), b) && Futile(FinishRetire(s, archive, h), b) && Futile(Contradict(s), b)
  {
    hide RootAuthority, ProbePasses, Contradicts, AtRecovery;
  }

  lemma FallingInDeadEnd(s: System, b: Id, h: Host)
    requires Course(s) && Futile(s, b)
    ensures Futile(Raise(s), b) && Futile(FallAuthorize(s, h), b) && Futile(RestoreProbe(s), b)
    ensures Futile(FinishFall(s), b) && Futile(Crash(s), b)
  {
    hide RootAuthority, ProbePasses, AtRecovery;
  }

  lemma RecoveringInDeadEnd(s: System, b: Id, h: Host)
    requires Course(s) && Futile(s, b)
    ensures RecoverAdopt(s) == s && RecoverKeep(s) == s && RecoverRestore(s) == s
    ensures Futile(FinishRecover(s, h), b)
  {
    hide RootAuthority;
    if s.run.Executing? && s.run.operation.id in s.root.journal {
      assert !AtRecovery(s);
    }
  }

  lemma BootingInDeadEnd(s: System, b: Id, h: Host)
    requires Futile(s, b)
    ensures Futile(BootBegin(s, h), b) && Futile(BootRecheck(s, h), b) && Futile(BootKeep(s), b)
  {
    hide ReadInstalledAuthority, ProbePasses;
  }

  lemma DecisionStaysFutile(s: System, b: Id, step: RootStep)
    requires Course(s) && Futile(s, b) && Moving(step)
    ensures Futile(ApplyRoot(s, step), b)
  {
    hide Course, Futile, Begin, Rehearsed, Poll, Recheck, Probe, FinishDeploy, FinishRetire, Raise, FallAuthorize,
         RestoreProbe, RecoverAdopt, RecoverKeep, RecoverRestore, FinishRecover, BootBegin, BootRecheck, BootKeep,
         Crash, Contradict, FinishFall;
    var anyHost := Host(Facts(0, None, None, false, false), s.core.registration, false, false);
    match step {
      case DoRehearsed(image) => SwitchingInDeadEnd(s, b, anyHost, None, image);
      case DoPoll => SwitchingInDeadEnd(s, b, anyHost, None, None);
      case DoRecheck(h) => SwitchingInDeadEnd(s, b, h, None, None);
      case DoContradict => SwitchingInDeadEnd(s, b, anyHost, None, None);
      case DoProbe => SwitchingInDeadEnd(s, b, anyHost, None, None);
      case DoFinishDeploy(h) => SwitchingInDeadEnd(s, b, h, None, None);
      case DoFinishRetire(archive, h) => SwitchingInDeadEnd(s, b, h, archive, None);
      case DoRaise => FallingInDeadEnd(s, b, anyHost);
      case DoFallAuthorize(h) => FallingInDeadEnd(s, b, h);
      case DoRestoreProbe => FallingInDeadEnd(s, b, anyHost);
      case DoFinishFall => FallingInDeadEnd(s, b, anyHost);
      case DoCrash => FallingInDeadEnd(s, b, anyHost);
      case DoFinishRecover(h) => RecoveringInDeadEnd(s, b, h);
      case DoBootBegin(h) => BootingInDeadEnd(s, b, h);
      case DoBootRecheck(h) => BootingInDeadEnd(s, b, h);
      case DoBootKeep => BootingInDeadEnd(s, b, anyHost);
      case _ => RecoveringInDeadEnd(s, b, anyHost);
    }
  }

  /** A step that leaves core, the records and the receipts alone has only the process to answer for. */
  lemma FutileStaysSame(s: System, s': System, b: Id)
    requires s'.core == s.core && s'.spool.receipts == s.spool.receipts && s'.root.journal == s.root.journal
    requires s'.root.current == s.root.current && s.core.blocked == Some(b) && Unsuccessful(s) && Futile(s', b)
    ensures Same(s, s', b)
  {
    hide Futile;
  }

  /** An operation without a spool receipt is still in flight. */
  lemma UnpublishedInFlight(x: Watched, id: Id)
    requires Sound(x) && id in x.sys.root.journal && id !in x.sys.spool.receipts
    ensures x.sys.core.active == Some(id)
  {
    hide HistoryShape, HistoryBacked, DeploysRehearsed, RegistrationFollows, InFlightCurrent, Exclusive, Keyed, Fits,
         MarkersSound, LabelsSound, RunSound, TryingSound;
  }

  lemma BeginStaysFutile(s: System, b: Id, id: Id, h: Host)
    requires Unsuccessful(s) && Futile(s, b) && (Unrecoverable(s, b) || Differing(s))
    requires id in s.root.journal && id !in s.spool.receipts ==> s.core.active == Some(id)
    ensures Futile(Begin(s, id, h), b)
  {
    hide RootAuthority;
    if id in s.core.operations && Differing(s) {
      DifferingRefuses(s, s.core.operations[id].operation, h);
    }
  }

  lemma BeginInDeadEnd(x: Watched, b: Id, id: Id, h: Host)
    requires DeadEnd(x, b)
    ensures Same(x.sys, Begin(x.sys, id, h), b)
  {
    hide Sound, Same, Unsuccessful, Futile, RootAuthority;
    if id in x.sys.root.journal && id !in x.sys.spool.receipts {
      UnpublishedInFlight(x, id);
    }
    BeginStaysFutile(x.sys, b, id, h);
    FutileStaysSame(x.sys, Begin(x.sys, id, h), b);
  }

  lemma DecisionInDeadEnd(x: Watched, b: Id, step: RootStep)
    requires DeadEnd(x, b) && Moving(step)
    ensures Same(x.sys, ApplyRoot(x.sys, step), b)
  {
    hide Sound, Course, Futile, Unsuccessful, Same, ApplyRoot;
    CourseInDeadEnd(x, b);
    DecisionMovesOnlyTheProcess(x.sys, step);
    DecisionStaysFutile(x.sys, b, step);
    FutileStaysSame(x.sys, ApplyRoot(x.sys, step), b);
  }

  lemma WriteInDeadEnd(x: Watched, b: Id)
    requires DeadEnd(x, b)
    ensures Same(x.sys, CommitWrite(x.sys), b)
  {
    hide CoreInv, MarkersSound, LabelsSound, TryingSound, Fits;
  }

  lemma SmallInDeadEnd(x: Watched, b: Id, id: Id)
    requires DeadEnd(x, b)
    ensures Same(x.sys, Announce(x.sys), b) && Same(x.sys, Mark(x.sys), b) && Same(x.sys, Sweep(x.sys, id), b)
  {
    hide Sound, Same, Unsuccessful;
    CourseInDeadEnd(x, b);
    MarkersStayFutile(x.sys, b, id);
    FutileStaysSame(x.sys, Announce(x.sys), b);
    FutileStaysSame(x.sys, Mark(x.sys), b);
    FutileStaysSame(x.sys, Sweep(x.sys, id), b);
  }

  lemma MarkersStayFutile(s: System, b: Id, id: Id)
    requires Course(s) && Futile(s, b)
    ensures Futile(Announce(s), b) && Mark(s) == s && Futile(Sweep(s, id), b)
  {
    hide Contradicts, AtRecovery;
  }

  lemma EffectsStayFutile(s: System, b: Id, step: HostStep)
    requires Course(s) && Futile(s, b)
    ensures Futile(ApplyHost(s, step), b)
  {
    hide Adoptable;
    if s.run.Executing? && s.run.operation.id in s.root.journal {
      assert !AtRecovery(s);
    }
  }

  lemma HostInDeadEnd(x: Watched, b: Id, step: HostStep)
    requires DeadEnd(x, b)
    ensures Same(x.sys, ApplyHost(x.sys, step), b)
  {
    hide Sound, Course, Futile, Same, Unsuccessful, ApplyHost;
    CourseInDeadEnd(x, b);
    HostLeavesRecords(x.sys, step);
    EffectsStayFutile(x.sys, b, step);
    FutileStaysSame(x.sys, ApplyHost(x.sys, step), b);
  }

  lemma RaiseInDeadEnd(x: Watched, b: Id)
    requires DeadEnd(x, b)
    ensures Same(x.sys, Act(x, WriteRaises).sys, b)
  {
    hide CoreInv, JournalSound, MarkersSound, LabelsSound, SettledSound, Fits;
  }

  lemma ActInDeadEnd(x: Watched, b: Id, e: Event)
    requires DeadEnd(x, b)
    ensures DeadEnd(Act(x, e), b) && Same(x.sys, Act(x, e).sys, b)
  {
    hide Sound, Same, DeadEnd, ApplyCore, ApplyHost, Begin, CommitWrite, Announce, Mark, Sweep, Answering;
    DeadEndIsSound(x, b);
    ActKeepsSound(x, e);
    match e {
      case WriteRaises => RaiseInDeadEnd(x, b);
      case Does(ByCore(step)) => CoreInDeadEnd(x, b, step);
      case Does(OnHost(step)) => HostInDeadEnd(x, b, step);
      case Does(ByRoot(step)) =>
        if step.DoBegin? {
          BeginInDeadEnd(x, b, step.id, step.host);
        } else if step.DoCommitWrite? {
          WriteInDeadEnd(x, b);
        } else if ProtocolCoreSteps.Records(step) {
          SmallInDeadEnd(x, b, if step.DoSweep? then step.id else 0);
        } else {
          DecisionInDeadEnd(x, b, step);
        }
    }
    SameStays(x, Act(x, e), b);
  }

  lemma DeadEndIsSound(x: Watched, b: Id)
    requires DeadEnd(x, b)
    ensures Sound(x)
  {
  }

  /** However a run goes on, raising writes included, a dead end stays one: the same operation
      blocked, the same history and the same record. */
  lemma {:induction false} DeadEndsAreForEver(x: Watched, b: Id, events: seq<Event>)
    requires DeadEnd(x, b)
    ensures var y := History(x, events);
            && DeadEnd(y, b) && y.sys.core.history == x.sys.core.history && y.sys.root.current == x.sys.root.current
    decreases |events|
  {
    hide DeadEnd, Act;
    if events != [] {
      var k := |events| - 1;
      DeadEndsAreForEver(x, b, events[..k]);
      ActInDeadEnd(History(x, events[..k]), b, events[k]);
    }
  }

  /** Once core consumed an answered receipt while root's record is ahead, the two differ for
      ever: root refuses every operation and every boot in every later state. */
  lemma DifferencesPersist(registration: Registration, events: seq<Event>, more: seq<Event>, o: Operation, h: Host)
    requires var s := History(Begun(registration), events).sys;
             s.core.blocked.Some? && s.core.active.None? && Differing(s)
    ensures var s := History(Begun(registration), events).sys;
            var t := History(Begun(registration), events + more).sys;
            && Differing(t) && t.core.blocked == s.core.blocked && t.core.history == s.core.history
            && RootAuthority(t, o, h).Err? && BootBegin(t, h) == t
  {
    hide Sound, Act, DeadEnd, RootAuthority, BootBegin;
    BegunSound(registration);
    HistorySound(Begun(registration), events);
    var x := History(Begun(registration), events);
    DeadEndBegins(x);
    DeadEndsAreForEver(x, x.sys.core.blocked.value, more);
    DeadEndFacts(History(x, more), x.sys.core.blocked.value);
    HistoryAppends(Begun(registration), events, more);
    DifferingRefuses(History(x, more).sys, o, h);
  }

  lemma DeadEndFacts(x: Watched, b: Id)
    requires DeadEnd(x, b)
    ensures x.sys.core.blocked == Some(b)
  {
  }
}
