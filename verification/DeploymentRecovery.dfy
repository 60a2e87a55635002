/** When a recovery is a way out of a blocked switch, over every run of the protocol and of
    commits whose writes raise. */
module DeploymentRecovery {
  import opened Wrappers
  import opened DeploymentContracts
  import opened Ledger
  import opened LedgerInvariant
  import opened LedgerRegistrations
  import opened Protocol
  import opened ProtocolInvariant
  import opened ProtocolSteps
  import opened ProtocolCoreSteps
  import opened DeploymentRuns
  import opened DeploymentSafety
  import opened DeploymentReplay
  import opened RaisedCommits
  import opened RaisedInvariant
  import opened RaisedDeadEnds

  // ---------------------------------------------------------------- no way out

  /** Blocked, nothing active, and the registration row is not a managed one. */
  predicate Stuck(c: Core) { c.blocked.Some? && c.active.None? && !Managed(c.registration) }

  /** Neither a recovery nor any registration change gets such an application going again. */
  lemma StuckStep(s: System, step: Step)
    requires CoreInv(s.core) && Stuck(s.core)
    ensures Apply(s, step).core == s.core || (Stuck(Apply(s, step).core) && Apply(s, step).core.blocked == s.core.blocked)
  {
    hide CoreInv, SelectionFor, ReadAuthority, PendingChange, CutoverPair, Consume, SameRequest, NewOperation;
    match step
    case ByRoot(r) => RootStepIsLater(s, r);
    case OnHost(h) => HostStepIsLater(s, h);
    case ByCore(c) =>
      if c.DoRequest? { NothingToRequest(s.core, c.request, c.newId, c.facts); }
      if c.DoAcknowledge? { NothingToAcknowledge(s.core, c.id); }
      if c.DoConsume? && c.id in s.spool.receipts { NothingToConsume(s.core, c.id, s.spool.receipts[c.id], c.facts); }
  }

  lemma NothingToRequest(c: Core, r: Request, newId: Id, f: Facts)
    requires Stuck(c)
    ensures RequestOperation(c, r, newId, f).Ok? ==> RequestOperation(c, r, newId, f).value.0 == c
  {
    hide ReadAuthority, SameRequest;
  }

  lemma NothingToAcknowledge(c: Core, id: Id)
    requires CoreInv(c) && Stuck(c)
    ensures Acknowledge(c, id) == c
  {
  }

  lemma NothingToConsume(c: Core, id: Id, r: Receipt, f: Facts)
    requires CoreInv(c) && Stuck(c)
    ensures Consume(c, id, r, f) == Ok(c)
  {
    assert id in c.operations ==> !Active(c.operations[id].state);
  }

  lemma {:induction false} StuckForEver(x: Watched, events: seq<Event>)
    requires Sound(x) && Stuck(x.sys.core)
    ensures Sound(History(x, events)) && Stuck(History(x, events).sys.core)
    ensures History(x, events).sys.core.blocked == x.sys.core.blocked
    decreases |events|
  {
    hide Sound, Apply, Stuck;
    if events != [] {
      var k := |events| - 1;
      var y := History(x, events[..k]);
      StuckForEver(x, events[..k]);
      SoundParts(y);
      ActKeepsSound(y, events[k]);
      if events[k].Does? {
        StuckStep(y.sys, events[k].step);
      }
    }
  }

  // ---------------------------------------------------------------- the recovery's plan

  /** What the operator provides: fresh identities, an administrator, a host policy reverted
      to the accepted registration, and a container runtime that works. */
  datatype Plan = Plan(newId: Id, requestId: Id, administrator: Id, session: nat, facts: Facts, release: bool)

  predicate Workable(c: Core, p: Plan) {
    && p.newId !in c.operations && p.requestId !in c.requests
    && p.facts.administratorCurrent && p.facts.credential.Some? && p.facts.archive.Some?
  }

  function HostOf(c: Core, p: Plan): Host { Host(p.facts, c.registration, true, p.release) }

  function Approval(c: Core, p: Plan): Operation
    requires BlockedOperation(c).Some? && p.facts.credential.Some? && p.facts.archive.Some?
  {
    var b := BlockedOperation(c).value;
    Operation(p.newId, p.requestId, Recover,
              Selection(b.selection.manifest, p.facts.archive.value, Sha256(c.registration), p.facts.policy,
                        p.facts.credential.value, GenerationOf(Latest(c.history)), b.selection.preview),
              p.administrator, p.session, None, Some(b.id))
  }

  function AskFor(c: Core, p: Plan): Request
    requires BlockedOperation(c).Some?
  {
    Request(Recover, BlockedOperation(c).value.selection.manifest, None, p.administrator, p.session, p.requestId, None,
            None, false, false)
  }

  /** Root's journal, too, says the blocked operation was blocked. */
  predicate BlockedInJournal(s: System) {
    && s.core.blocked.Some? && s.core.blocked.value in s.root.journal
    && s.root.journal[s.core.blocked.value].outcome.Blocked?
  }

  /** All a recovery needs of core, of root and of the files between them. */
  predicate Recoverable(s: System) {
    && CoreInv(s.core) && Bound(s.core)
    && JournalSound(s.core.operations, s.root.journal)
    && SpoolSound(s.core.operations, s.root.journal, s.spool.receipts)
    && s.core.blocked.Some? && s.core.active.None? && s.run.Idle? && Managed(s.core.registration)
    && BlockedInJournal(s) && s.root.current == Latest(s.core.history)
  }

  /** The blocked operation's release is still named by a registration. */
  lemma BlockedReleaseNamed(c: Core)
    requires CoreInv(c) && Bound(c) && c.blocked.Some? && Managed(c.registration)
    ensures BlockedOperation(c).Some? && BlockedOperation(c).value.id == c.blocked.value
    ensures ReleaseRegistration(c, Recover).Ok?
  {
    hide HistoryShape, HistoryBacked, DeploysRehearsed, RegistrationFollows;
  }

  lemma ApprovalIsSelected(c: Core, p: Plan)
    requires BlockedOperation(c).Some? && Managed(c.registration) && ReleaseRegistration(c, Recover).Ok? && Workable(c, p)
    ensures var b := BlockedOperation(c).value;
            SelectionFor(c, b.selection.manifest, b.selection.preview, Recover, p.facts) == Ok(Approval(c, p).selection)
  {
  }

  /** Neither inserting the recovery nor admitting it changes what a selection is made from. */
  lemma SelectionIgnoresInFlight(c: Core, c': Core, manifest: Digest, preview: Id, f: Facts)
    requires c'.registration == c.registration && c'.history == c.history && c'.proposals == c.proposals
    requires BlockedOperation(c') == BlockedOperation(c)
    ensures SelectionFor(c', manifest, preview, Recover, f) == SelectionFor(c, manifest, preview, Recover, f)
    ensures ApprovedRegistration(c', Recover) == ApprovedRegistration(c, Recover)
  {
  }

  /** The recovery in core's tables, queued or switching. */
  function InFlightCore(c: Core, p: Plan, state: State): Core
    requires BlockedOperation(c).Some? && p.facts.credential.Some? && p.facts.archive.Some?
  {
    var o := Approval(c, p);
    c.(operations := c.operations[o.id := Row(o, state, None)], active := Some(o.id),
       requests := c.requests[o.requestId := o.id])
  }

  lemma RecoveryAuthority(c: Core, p: Plan, state: State)
    requires CoreInv(c) && Bound(c) && c.blocked.Some? && Managed(c.registration) && Workable(c, p) && Active(state)
    ensures BlockedOperation(c).Some?
    ensures ReadAuthority(InFlightCore(c, p, state), p.newId, p.facts)
         == Ok(Authority(Approval(c, p), c.registration, Latest(c.history)))
  {
    hide SelectionFor;
    BlockedReleaseNamed(c);
    ApprovalIsSelected(c, p);
    var b := BlockedOperation(c).value;
    SelectionIgnoresInFlight(c, InFlightCore(c, p, state), b.selection.manifest, b.selection.preview, p.facts);
  }

  lemma RecoveryIsRecorded(c: Core, p: Plan)
    requires CoreInv(c) && Bound(c) && c.blocked.Some? && c.active.None? && Managed(c.registration) && Workable(c, p)
    ensures BlockedOperation(c).Some?
    ensures RequestOperation(c, AskFor(c, p), p.newId, p.facts) == Ok((InFlightCore(c, p, Queued), Approval(c, p)))
  {
    hide CoreInv, Bound, SelectionFor, ReadAuthority;
    BlockedReleaseNamed(c);
    ApprovalIsSelected(c, p);
    RecoveryAuthority(c, p, Queued);
  }

  // ---------------------------------------------------------------- up to the restoration

  /** The state in which core has admitted the recovery. */
  function AdmittedState(s: System, p: Plan): System
    requires BlockedOperation(s.core).Some? && p.facts.credential.Some? && p.facts.archive.Some?
  {
    var o := Approval(s.core, p);
    s.(core := InFlightCore(s.core, p, Switching),
       spool := s.spool.(requests := s.spool.requests + {o.id}, switches := s.spool.switches + {o.id}),
       run := Executing(o, s.core.registration, s.root.current, p.release, Admitted))
  }

  function ToAdmission(s: System, p: Plan): seq<Step>
    requires BlockedOperation(s.core).Some?
  {
    [ByCore(DoRequest(AskFor(s.core, p), p.newId, p.facts)), ByCore(DoPublishRequest(p.newId)),
     ByRoot(DoBegin(p.newId, HostOf(s.core, p))), ByRoot(DoAnnounce), ByCore(DoAcknowledge(p.newId)), ByRoot(DoPoll)]
  }

  lemma RootAcceptsRecovery(s: System, t: System, p: Plan, state: State)
    requires Recoverable(s) && Workable(s.core, p) && Active(state)
    requires BlockedOperation(s.core).Some? && t.core == InFlightCore(s.core, p, state) && t.root.current == s.root.current
    ensures RootAuthority(t, Approval(s.core, p), HostOf(s.core, p))
         == Ok(Authority(Approval(s.core, p), s.core.registration, Latest(s.core.history)))
  {
    hide CoreInv, ReadAuthority, Bound, JournalSound, SpoolSound;
    RecoveryAuthority(s.core, p, state);
    RecoveryGeneration(s.core, p);
  }

  lemma RecoveryGeneration(c: Core, p: Plan)
    requires BlockedOperation(c).Some? && Workable(c, p)
    ensures Approval(c, p).selection.generation == GenerationOf(Latest(c.history))
  {
  }

  lemma NewIsUnknown(s: System, id: Id)
    requires Recoverable(s) && id !in s.core.operations
    ensures id !in s.spool.receipts && id !in s.root.journal
  {
    hide CoreInv, Bound, Fits;
  }

  /** The recovery queued and requested, and root having begun to execute it. */
  function BegunState(s: System, p: Plan): System
    requires BlockedOperation(s.core).Some? && p.facts.credential.Some? && p.facts.archive.Some?
  {
    var o := Approval(s.core, p);
    s.(core := InFlightCore(s.core, p, Queued), spool := s.spool.(requests := s.spool.requests + {o.id}),
       run := Executing(o, s.core.registration, s.root.current, p.release, Preparing))
  }

  function RequestedState(s: System, p: Plan): System
    requires BlockedOperation(s.core).Some? && p.facts.credential.Some? && p.facts.archive.Some?
  {
    s.(core := InFlightCore(s.core, p, Queued))
  }

  lemma ReachesBegun(s: System, p: Plan)
    requires Recoverable(s) && Workable(s.core, p)
    ensures BlockedOperation(s.core).Some?
    ensures RequestStep(s, AskFor(s.core, p), p.newId, p.facts) == RequestedState(s, p)
    ensures Begin(PublishRequest(RequestedState(s, p), p.newId), p.newId, HostOf(s.core, p)) == BegunState(s, p)
  {
    hide CoreInv, Bound, RootAuthority, RequestOperation, JournalSound, SpoolSound;
    RecoveryIsRecorded(s.core, p);
    NewIsUnknown(s, p.newId);
    RootAcceptsRecovery(s, BegunState(s, p).(run := s.run), p, Queued);
  }

  lemma ReachesAdmitted(s: System, p: Plan)
    requires BlockedOperation(s.core).Some? && Workable(s.core, p)
    ensures Poll(AcknowledgeStep(Announce(BegunState(s, p)), p.newId)) == AdmittedState(s, p)
  {
    var s5 := AcknowledgeStep(Announce(BegunState(s, p)), p.newId);
    assert s5.core.operations == InFlightCore(s.core, p, Switching).operations;
  }

  lemma StepsByName(s: System, r: Request, id: Id, f: Facts, h: Host)
    ensures Apply(s, ByCore(DoRequest(r, id, f))) == RequestStep(s, r, id, f)
    ensures Apply(s, ByCore(DoPublishRequest(id))) == PublishRequest(s, id)
    ensures Apply(s, ByRoot(DoBegin(id, h))) == Begin(s, id, h)
    ensures Apply(s, ByRoot(DoAnnounce)) == Announce(s)
    ensures Apply(s, ByCore(DoAcknowledge(id))) == AcknowledgeStep(s, id)
    ensures Apply(s, ByRoot(DoPoll)) == Poll(s)
  {
  }

  lemma ReachesAdmission(s: System, p: Plan)
    requires Recoverable(s) && Workable(s.core, p)
    ensures BlockedOperation(s.core).Some?
    ensures Execution(s, ToAdmission(s, p)) == AdmittedState(s, p)
  {
    hide Recoverable, Execution, Apply, Begin, BegunState, AdmittedState, Announce, Poll, AcknowledgeStep,
         RequestStep, PublishRequest, RequestedState;
    ReachesBegun(s, p);
    ReachesAdmitted(s, p);
    var r, h := AskFor(s.core, p), HostOf(s.core, p);
    var s1 := RequestedState(s, p);
    var s2 := PublishRequest(s1, p.newId);
    var s3 := BegunState(s, p);
    var s4 := Announce(s3);
    var s5 := AcknowledgeStep(s4, p.newId);
    StepsByName(s, r, p.newId, p.facts, h);
    StepsByName(s1, r, p.newId, p.facts, h);
    StepsByName(s2, r, p.newId, p.facts, h);
    StepsByName(s3, r, p.newId, p.facts, h);
    StepsByName(s4, r, p.newId, p.facts, h);
    StepsByName(s5, r, p.newId, p.facts, h);
    SixSteps(s, ToAdmission(s, p), s1, s2, s3, s4, s5, AdmittedState(s, p));
  }

  lemma SixSteps(s: System, x: seq<Step>, s1: System, s2: System, s3: System, s4: System, s5: System, s6: System)
    requires |x| == 6
    requires Apply(s, x[0]) == s1 && Apply(s1, x[1]) == s2 && Apply(s2, x[2]) == s3
    requires Apply(s3, x[3]) == s4 && Apply(s4, x[4]) == s5 && Apply(s5, x[5]) == s6
    ensures Execution(s, x) == s6
  {
    hide Apply;
    assert x[..1][..0] == [] && x[..2][..1] == x[..1] && x[..3][..2] == x[..2];
    assert x[..4][..3] == x[..3] && x[..5][..4] == x[..4] && x[..6] == x;
    assert Execution(s, x[..1]) == s1;
    assert Execution(s, x[..2]) == s2;
    assert Execution(s, x[..3]) == s3;
    assert Execution(s, x[..4]) == s4;
    assert Execution(s, x[..5]) == s5;
  }

  // ---------------------------------------------------------------- the restoration

  /** Adopt, tear down or restore, as what is found on the host asks for. */
  function Restoration(a: System): seq<Step>
    requires AtRecovery(a)
  {
    if Adoptable(a) then [ByRoot(DoRecoverAdopt)]
    else if RunningOf(a.root.current).None? then [OnHost(DoRecoverTearDown)]
    else [ByRoot(DoRecoverRestore), OnHost(DoRestoreRemove), OnHost(DoRestoreLaunch(true)), ByRoot(DoRestoreProbe)]
  }

  function RestoredState(a: System): System
    requires AtRecovery(a)
  {
    if Adoptable(a) then At(a, Adopted)
    else if RunningOf(a.root.current).None? then SetContainer(a, None, Restored)
    else SetContainer(a, Some(Container(a.root.current.value.operationId, a.root.current.value.imageId, true)), Restored)
  }

  lemma OneStep(s: System, step: Step)
    ensures Execution(s, [step]) == Apply(s, step)
  {
    hide Apply;
    assert [step][..0] == [];
    assert Execution(s, []) == s;
  }

  lemma FourSteps(s: System, x: seq<Step>, s1: System, s2: System, s3: System, s4: System)
    requires |x| == 4
    requires Apply(s, x[0]) == s1 && Apply(s1, x[1]) == s2 && Apply(s2, x[2]) == s3 && Apply(s3, x[3]) == s4
    ensures Execution(s, x) == s4
  {
    hide Apply;
    assert x[..1][..0] == [] && x[..2][..1] == x[..1] && x[..3][..2] == x[..2] && x[..4] == x;
    assert Execution(s, x[..1]) == s1;
    assert Execution(s, x[..2]) == s2;
    assert Execution(s, x[..3]) == s3;
  }

  lemma Restores(a: System)
    requires AtRecovery(a)
    ensures Execution(a, Restoration(a)) == RestoredState(a)
  {
    hide Execution;
    if Adoptable(a) {
      OneStep(a, ByRoot(DoRecoverAdopt));
    } else if RunningOf(a.root.current).None? {
      OneStep(a, OnHost(DoRecoverTearDown));
    } else {
      RestoresRunning(a);
    }
  }

  lemma RestoringSteps(a: System)
    requires AtRecovery(a) && !Adoptable(a) && RunningOf(a.root.current).Some?
    ensures var s1 := At(a, Restoring);
            var s2 := SetContainer(s1, None, RestoreRemoved);
            var s3 := SetContainer(s2, RestoredState(a).root.container, RestoreLaunched);
            && Apply(a, ByRoot(DoRecoverRestore)) == s1
            && Apply(s1, OnHost(DoRestoreRemove)) == s2
            && Apply(s2, OnHost(DoRestoreLaunch(true))) == s3
            && Apply(s3, ByRoot(DoRestoreProbe)) == At(s3, Restored)
  {
    hide Adoptable;
  }

  lemma RestoresRunning(a: System)
    requires AtRecovery(a) && !Adoptable(a) && RunningOf(a.root.current).Some?
    ensures Execution(a, Restoration(a)) == RestoredState(a)
  {
    hide Execution, Adoptable, Apply;
    var s1 := At(a, Restoring);
    var s2 := SetContainer(s1, None, RestoreRemoved);
    var s3 := SetContainer(s2, RestoredState(a).root.container, RestoreLaunched);
    assert a.touched + {a.run.operation.id} + {a.run.operation.id} == a.touched + {a.run.operation.id};
    RestoringSteps(a);
    FourSteps(a, Restoration(a), s1, s2, s3, At(s3, Restored));
  }

  // ---------------------------------------------------------------- finishing

  function Receipted(s: System, p: Plan): Receipt
    requires BlockedOperation(s.core).Some? && p.facts.credential.Some? && p.facts.archive.Some?
    requires AtRecovery(AdmittedState(s, p))
  {
    var o := Approval(s.core, p);
    RecoverReceipt(o, if !Adoptable(AdmittedState(s, p)) then None
                      else Some(Installed(o.recovers.value, GenerationOf(s.root.current) + 1, o.selection,
                                          s.core.registration, Pinned(o.selection.archive), ImageOf(o.selection))))
  }

  lemma Finishes(s: System, p: Plan)
    requires Recoverable(s) && Workable(s.core, p)
    requires BlockedOperation(s.core).Some? && AtRecovery(AdmittedState(s, p))
    ensures var r := RestoredState(AdmittedState(s, p));
            ApplyRoot(r, DoFinishRecover(HostOf(s.core, p))) == r.(run := Committing(Receipted(s, p), 0))
  {
    hide Recoverable, RootAuthority, Adoptable;
    RootAcceptsRecovery(s, RestoredState(AdmittedState(s, p)), p, Switching);
  }

  lemma CommitsAll(s: System)
    requires s.run.Committing? && s.run.write == 0
    requires s.run.receipt.operationId !in s.root.journal && s.run.receipt.operationId !in s.spool.receipts
    ensures Execution(s, seq(4, i => ByRoot(DoCommitWrite))) == Committed(s, s.run.receipt)
  {
    hide Execution, Committed, Apply, CommitWrite;
    UninterruptedCommit(s, s.run.receipt);
    var x := seq(4, i => ByRoot(DoCommitWrite));
    assert Writes(s, 0) == s;
    forall i | 0 <= i < 4 ensures Apply(Writes(s, i), x[i]) == Writes(s, i + 1) {
      WriteIsApply(Writes(s, i));
      assert Writes(s, i + 1) == CommitWrite(Writes(s, i));
    }
    FourSteps(s, x, Writes(s, 1), Writes(s, 2), Writes(s, 3), Writes(s, 4));
  }

  lemma WriteIsApply(s: System)
    ensures Apply(s, ByRoot(DoCommitWrite)) == CommitWrite(s)
  {
  }

  // ---------------------------------------------------------------- consuming

  /** What the receipt accepts, if anything, is the next row of the history. */
  lemma RecoveryAccepts(s: System, p: Plan)
    requires Recoverable(s) && Workable(s.core, p) && BlockedOperation(s.core).Some? && AtRecovery(AdmittedState(s, p))
    ensures var o := Approval(s.core, p); var r := Receipted(s, p); var c := InFlightCore(s.core, p, Switching);
            AcceptedRow(c, o, r) == Ok(r.installed) && (r.installed.Some? ==> InsertAllowed(c.history, r.installed.value))
  {
    hide DeploysRehearsed, RegistrationFollows, Bound, Adoptable, AtRecovery;
    LatestGeneration(s.core);
    var r := Receipted(s, p);
    if r.installed.Some? {
      InsertAllowedNext(s.core, r.installed.value);
    }
  }

  /** Core consumes the recovery's receipt, and nothing is blocked or active any more. */
  lemma RecoveryConsumed(s: System, p: Plan)
    requires Recoverable(s) && Workable(s.core, p) && BlockedOperation(s.core).Some? && AtRecovery(AdmittedState(s, p))
    ensures var c := InFlightCore(s.core, p, Switching);
            && Consume(c, p.newId, Receipted(s, p), p.facts).Ok?
            && Consume(c, p.newId, Receipted(s, p), p.facts).value.active.None?
            && Consume(c, p.newId, Receipted(s, p), p.facts).value.blocked.None?
  {
    hide HistoryShape, HistoryBacked, DeploysRehearsed, RegistrationFollows, InFlightCurrent, Bound, AcceptedRow,
         InsertAllowed, Adoptable, AtRecovery, JournalSound, SpoolSound;
    RecoveryAccepts(s, p);
  }

  // ---------------------------------------------------------------- the way out

  function WayOut(s: System, p: Plan): seq<Step>
    requires BlockedOperation(s.core).Some? && p.facts.credential.Some? && p.facts.archive.Some?
    requires AtRecovery(AdmittedState(s, p))
  {
    ToAdmission(s, p) + Restoration(AdmittedState(s, p)) + [ByRoot(DoFinishRecover(HostOf(s.core, p)))]
    + seq(4, i => ByRoot(DoCommitWrite)) + [ByCore(DoConsume(p.newId, p.facts))]
  }

  lemma AdmittedIsAtRecovery(s: System, p: Plan)
    requires Recoverable(s) && Workable(s.core, p)
    ensures BlockedOperation(s.core).Some? && AtRecovery(AdmittedState(s, p))
  {
    hide CoreInv, Bound, SpoolSound;
    BlockedReleaseNamed(s.core);
  }

  lemma ReachesCommitted(s: System, p: Plan)
    requires Recoverable(s) && Workable(s.core, p)
    ensures BlockedOperation(s.core).Some? && AtRecovery(AdmittedState(s, p))
    ensures var r := RestoredState(AdmittedState(s, p)).(run := Committing(Receipted(s, p), 0));
            Execution(s, ToAdmission(s, p) + Restoration(AdmittedState(s, p))
                         + [ByRoot(DoFinishRecover(HostOf(s.core, p)))] + seq(4, i => ByRoot(DoCommitWrite)))
              == Committed(r, Receipted(s, p))
  {
    hide Recoverable, Execution, Apply, Adoptable, Committed;
    AdmittedIsAtRecovery(s, p);
    var a := AdmittedState(s, p);
    ReachesAdmission(s, p);
    Restores(a);
    var first, second := ToAdmission(s, p), Restoration(a);
    ExecutionAppendsTo(s, first, second, a);
    var third := [ByRoot(DoFinishRecover(HostOf(s.core, p)))];
    Finishes(s, p);
    OneStep(RestoredState(a), third[0]);
    FinishIsApply(RestoredState(a), HostOf(s.core, p));
    ExecutionAppendsTo(s, first + second, third, RestoredState(a));
    var r := RestoredState(a).(run := Committing(Receipted(s, p), 0));
    NewIsUnknown(s, p.newId);
    RestoredRecords(a);
    CommitsAll(r);
    ExecutionAppendsTo(s, first + second + third, seq(4, i => ByRoot(DoCommitWrite)), r);
  }

  lemma FinishIsApply(r: System, h: Host)
    ensures Apply(r, ByRoot(DoFinishRecover(h))) == ApplyRoot(r, DoFinishRecover(h))
  {
  }

  lemma RestoredRecords(a: System)
    requires AtRecovery(a)
    ensures RestoredState(a).root.journal == a.root.journal && RestoredState(a).spool == a.spool
    ensures RestoredState(a).core == a.core
  {
  }

  lemma ExecutionAppendsTo(s: System, steps: seq<Step>, more: seq<Step>, mid: System)
    requires Execution(s, steps) == mid
    ensures Execution(s, steps + more) == Execution(mid, more)
  {
    DeploymentRuns.ExecutionAppends(s, steps, more);
  }

  /** From every blocked state with nothing in flight, reverting the host policy to the
      accepted registration and recovering unblocks the application. */
  lemma RecoveryUnblocks(s: System, p: Plan)
    requires Recoverable(s) && Workable(s.core, p)
    ensures BlockedOperation(s.core).Some? && AtRecovery(AdmittedState(s, p))
    ensures var t := Execution(s, WayOut(s, p)); t.core.blocked.None? && t.core.active.None? && t.run.Idle?
  {
    hide Recoverable, Execution, ApplyCore, Adoptable, Committed, AtRecovery;
    ReachesCommitted(s, p);
    var steps := ToAdmission(s, p) + Restoration(AdmittedState(s, p))
                 + [ByRoot(DoFinishRecover(HostOf(s.core, p)))] + seq(4, i => ByRoot(DoCommitWrite));
    var w := Execution(s, steps);
    RecoveryConsumed(s, p);
    ConsumesFromSpool(RestoredState(AdmittedState(s, p)).(run := Committing(Receipted(s, p), 0)), s, p);
    OneStep(w, ByCore(DoConsume(p.newId, p.facts)));
    ExecutionAppendsTo(s, steps, [ByCore(DoConsume(p.newId, p.facts))], w);
  }

  lemma ConsumesFromSpool(r: System, s: System, p: Plan)
    requires BlockedOperation(s.core).Some? && Workable(s.core, p) && AtRecovery(AdmittedState(s, p))
    requires r == RestoredState(AdmittedState(s, p)).(run := Committing(Receipted(s, p), 0))
    ensures var w := Committed(r, Receipted(s, p)); var c := InFlightCore(s.core, p, Switching);
            && w.run.Idle?
            && Apply(w, ByCore(DoConsume(p.newId, p.facts))) == WithCore(w, Consume(c, p.newId, Receipted(s, p), p.facts))
  {
    hide Consume, Adoptable, AtRecovery;
    RestoredRecords(AdmittedState(s, p));
  }

  /** Some identity is not in use. */
  lemma FreshIdentity(used: set<Id>) returns (id: Id)
    ensures id !in used
  {
    var rest := used;
    id := 0;
    while rest != {}
      invariant forall x | x in used && x !in rest :: x < id
      decreases |rest|
    {
      var x :| x in rest;
      rest := rest - {x};
      if x >= id {
        id := x + 1;
      }
    }
  }

  lemma {:induction false} HistoryBound(registration: Registration, events: seq<Event>)
    ensures Bound(History(Begun(registration), events).sys.core)
    decreases |events|
  {
    hide Sound, CoreInv, ApplyCore, ApplyRoot, ApplyHost;
    if events != [] {
      var k := |events| - 1;
      var x := History(Begun(registration), events[..k]);
      HistoryBound(registration, events[..k]);
      BegunSound(registration);
      HistorySound(Begun(registration), events[..k]);
      SoundParts(x);
      if events[k].Does? {
        match events[k].step
        case ByCore(step) => CoreStepKeepsBound(x.sys, step);
        case ByRoot(step) => RootStepIsLater(x.sys, step);
        case OnHost(step) => HostStepIsLater(x.sys, step);
      }
    }
  }

  lemma StoppedIsRecoverable(x: Watched)
    requires Sound(x) && Bound(x.sys.core) && x.sys.core.active.None? && Managed(x.sys.core.registration)
    requires BlockedInJournal(x.sys) && x.sys.root.current == Latest(x.sys.core.history)
    ensures Recoverable(Crash(x.sys))
  {
    hide CoreInv, Bound, Fits;
  }

  /** From every such state the operator can stop the installer and recover. */
  lemma WayOutExists(x: Watched) returns (more: seq<Event>)
    requires Sound(x) && Bound(x.sys.core) && x.sys.core.active.None? && Managed(x.sys.core.registration)
    requires BlockedInJournal(x.sys) && x.sys.root.current == Latest(x.sys.core.history)
    ensures History(x, more).sys.core.blocked.None?
  {
    hide Execution, Sound, Bound, Apply, Recoverable, AtRecovery;
    var s := x.sys;
    var newId := FreshIdentity(s.core.operations.Keys);
    var requestId := FreshIdentity(s.core.requests.Keys);
    var p := Plan(newId, requestId, 0, 0, Facts(0, Some(0), Some(0), true, true), true);
    StoppedIsRecoverable(x);
    CrashIsIdle(s);
    OneStep(s, ByRoot(DoCrash));
    RecoveryUnblocks(Crash(s), p);
    ExecutionAppendsTo(s, [ByRoot(DoCrash)], WayOut(Crash(s), p), Crash(s));
    more := Plainly([ByRoot(DoCrash)] + WayOut(Crash(s), p));
    PlainHistory(x, [ByRoot(DoCrash)] + WayOut(Crash(s), p));
  }

  /** What is blocked has a receipt in the journal, one way or the other. */
  lemma BlockedIsJournalled(x: Watched)
    requires Sound(x) && x.sys.core.blocked.Some?
    ensures BlockedInJournal(x.sys) || Unrecoverable(x.sys, x.sys.core.blocked.value)
  {
    hide HistoryShape, HistoryBacked, DeploysRehearsed, RegistrationFollows, InFlightCurrent, Fits, RunSound, TryingSound;
    assert !Active(x.sys.core.operations[x.sys.core.blocked.value].state);
  }

  /** A blocked application stays blocked whatever happens if its registration is unmanaged,
      its journal receipt is not the blocked one, or root's record is not core's latest row. */
  lemma NoWayOut(x: Watched, more: seq<Event>)
    requires Sound(x) && x.sys.core.blocked.Some? && x.sys.core.active.None?
    requires !Managed(x.sys.core.registration) || !BlockedInJournal(x.sys) || Differing(x.sys)
    ensures History(x, more).sys.core.blocked == x.sys.core.blocked
  {
    hide Sound, Act, DeadEnd;
    if !Managed(x.sys.core.registration) {
      StuckForEver(x, more);
    } else {
      BlockedIsJournalled(x);
      DeadEndBegins(x);
      DeadEndsAreForEver(x, x.sys.core.blocked.value, more);
      DeadEndFacts(History(x, more), x.sys.core.blocked.value);
    }
  }

  /** "Always a way out", exactly, over every run and every raising commit write: a blocked
      application with nothing in flight can get unblocked if and only if core still holds a
      managed registration, the blocked operation's receipt in root's journal is itself a
      blocked one, and root's record is core's latest generation. */
  lemma WayOutExactly(registration: Registration, events: seq<Event>)
    requires var c := History(Begun(registration), events).sys.core; c.blocked.Some? && c.active.None?
    ensures var s := History(Begun(registration), events).sys;
            (exists more :: History(Begun(registration), events + more).sys.core.blocked.None?)
            <==> Managed(s.core.registration) && BlockedInJournal(s) && s.root.current == Latest(s.core.history)
  {
    hide Sound, Bound, Act, BlockedInJournal;
    var x := History(Begun(registration), events);
    BegunSound(registration);
    HistorySound(Begun(registration), events);
    if Managed(x.sys.core.registration) && BlockedInJournal(x.sys) && x.sys.root.current == Latest(x.sys.core.history) {
      HistoryBound(registration, events);
      var more := WayOutExists(x);
      HistoryAppends(Begun(registration), events, more);
      assert History(Begun(registration), events + more).sys.core.blocked.None?;
    } else {
      forall more ensures History(Begun(registration), events + more).sys.core.blocked.Some? {
        NoWayOut(x, more);
        HistoryAppends(Begun(registration), events, more);
      }
    }
  }

  /** Where no write of a commit raised, only the registration can be in the way. */
  lemma WayOutWithoutRaises(registration: Registration, steps: seq<Step>)
    requires var c := Reached(registration, steps).core; c.blocked.Some? && c.active.None?
    ensures BlockedInJournal(Reached(registration, steps))
    ensures Reached(registration, steps).root.current == Latest(Reached(registration, steps).core.history)
    ensures (exists more :: History(Begun(registration), Plainly(steps) + more).sys.core.blocked.None?)
            <==> Managed(Reached(registration, steps).core.registration)
  {
    hide Act, Apply, Inv, BlockedInJournal;
    ReachableInv(registration, steps);
    BlockedAgrees(Reached(registration, steps));
    PlainHistory(Begun(registration), steps);
    WayOutExactly(registration, Plainly(steps));
  }

  lemma BlockedAgrees(s: System)
    requires Inv(s) && s.core.blocked.Some? && s.core.active.None?
    ensures BlockedInJournal(s) && s.root.current == Latest(s.core.history)
  {
    hide HistoryShape, HistoryBacked, DeploysRehearsed, RegistrationFollows, InFlightCurrent, MarkersOk, RequestsOk,
         AdmittedOk, ConsumedOk, TruthOk, ContainerOk, TouchedOk, RunOk;
    assert !Active(s.core.operations[s.core.blocked.value].state);
  }

  lemma CrashIsIdle(s: System)
    ensures Apply(s, ByRoot(DoCrash)) == Crash(s) && Crash(s).run.Idle? && Crash(s).core == s.core
  {
  }

  // ---------------------------------------------------------------- how an application gets stuck

  /** Root is switching to an application's first release. */
  predicate FirstSwitch(s: System) {
    && s.run.Executing? && Switches(s.run.operation.kind) && s.run.before.None?
    && s.run.operation.id in s.root.markers && !FallingBack(s.run.phase)
    && s.core.history == [] && s.core.blocked.None? && Managed(s.core.registration)
  }

  function UpdatedState(s: System, proposed: Registration): System {
    s.(core := s.core.(registration := proposed.(settings := s.core.registration.settings + proposed.settings)))
  }

  lemma UpdateMidSwitch(s: System, proposed: Registration)
    requires FirstSwitch(s) && proposed.route == s.core.registration.route
    requires proposed.installation == s.core.registration.installation
    ensures Apply(s, ByCore(DoUpdateRegistration(proposed, true))) == UpdatedState(s, proposed)
  {
  }

  lemma RaiseMidSwitch(s: System)
    requires s.run.Executing? && Switches(s.run.operation.kind) && s.run.before.None?
    requires s.run.operation.id in s.root.markers && !FallingBack(s.run.phase)
    ensures Apply(s, ByRoot(DoRaise)) == s.(run := Committing(PlainReceipt(s.run.operation, Blocked), 0))
  {
  }

  lemma BlockedReceiptBlocks(c: Core, o: Operation, f: Facts)
    requires c.active == Some(o.id) && o.id in c.operations && c.operations[o.id].operation == o
    requires Active(c.operations[o.id].state) && Switches(o.kind) && c.blocked.None?
    ensures Consume(c, o.id, PlainReceipt(o, Blocked), f).Ok?
    ensures var c' := Consume(c, o.id, PlainReceipt(o, Blocked), f).value;
            c'.blocked == Some(o.id) && c'.active.None? && c'.registration == c.registration
  {
  }

  lemma ConsumesBlocked(w: System, o: Operation, f: Facts)
    requires w.core.active == Some(o.id) && o.id in w.core.operations && w.core.operations[o.id].operation == o
    requires Active(w.core.operations[o.id].state) && Switches(o.kind) && w.core.blocked.None?
    requires o.id in w.spool.receipts && w.spool.receipts[o.id] == PlainReceipt(o, Blocked)
    ensures var t := Apply(w, ByCore(DoConsume(o.id, f)));
            t.core.blocked == Some(o.id) && t.core.active.None? && t.core.registration == w.core.registration
  {
    hide Consume;
    BlockedReceiptBlocks(w.core, o, f);
  }

  lemma FirstSwitchFacts(s: System)
    requires Inv(s) && FirstSwitch(s)
    ensures var o := s.run.operation;
            && s.core.active == Some(o.id) && o.id in s.core.operations && s.core.operations[o.id].operation == o
            && Active(s.core.operations[o.id].state) && o.id !in s.root.journal && o.id !in s.spool.receipts
  {
    hide SettledOk, MarkersOk, RequestsOk, AdmittedOk, ConsumedOk, CurrentOk, TruthOk, ContainerOk, TouchedOk;
  }

  function IntoTheBlock(id: Id, proposed: Registration, f: Facts): seq<Step> {
    [ByCore(DoUpdateRegistration(proposed, true))] + [ByRoot(DoRaise)]
    + seq(4, i => ByRoot(DoCommitWrite)) + [ByCore(DoConsume(id, f))]
  }

  /** Whenever a first release is being switched to, one registration update to a legacy
      source and one failure leave the application blocked with no way out: `update_registration`
      asks for no idle application while nothing is installed. */
  lemma FirstSwitchCanGetStuck(registration: Registration, steps: seq<Step>, proposed: Registration, f: Facts)
    requires var s := Reached(registration, steps);
             && FirstSwitch(s) && proposed.route == s.core.registration.route
             && proposed.installation == s.core.registration.installation && proposed.source.LegacySource?
    ensures var id := Reached(registration, steps).run.operation.id;
            Stuck(Reached(registration, steps + IntoTheBlock(id, proposed, f)).core)
  {
    hide Execution, Inv, Apply, Committed;
    var s := Reached(registration, steps);
    ReachableInv(registration, steps);
    FirstSwitchFacts(s);
    var o := s.run.operation;
    UpdateMidSwitch(s, proposed);
    var s1 := UpdatedState(s, proposed);
    RaiseMidSwitch(s1);
    var s2 := s1.(run := Committing(PlainReceipt(o, Blocked), 0));
    CommitsAll(s2);
    var w := Committed(s2, PlainReceipt(o, Blocked));
    CommittedCore(s2, PlainReceipt(o, Blocked));
    ConsumesBlocked(w, o, f);
    var x, y := [ByCore(DoUpdateRegistration(proposed, true))], [ByRoot(DoRaise)];
    var z, last := seq(4, i => ByRoot(DoCommitWrite)), [ByCore(DoConsume(o.id, f))];
    OneStep(s, x[0]);
    OneStep(s1, y[0]);
    OneStep(w, last[0]);
    ExecutionAppendsTo(s, x, y, s1);
    ExecutionAppendsTo(s, x + y, z, s2);
    ExecutionAppendsTo(s, x + y + z, last, w);
    DeploymentRuns.ExecutionAppends(Start(registration), steps, IntoTheBlock(o.id, proposed, f));
  }

  lemma CommittedCore(s: System, r: Receipt)
    ensures Committed(s, r).core == s.core
    ensures r.operationId in Committed(s, r).spool.receipts && Committed(s, r).spool.receipts[r.operationId] == r
  {
  }
}
