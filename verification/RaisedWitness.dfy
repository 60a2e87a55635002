/** One run from a fresh registration, rehearse, deploy and retire, up to the commit whose
    raising writes `RaisedRetirement` is about: what it says of such commits does happen. */
module RaisedWitness {
  import opened Wrappers
  import opened DeploymentContracts
  import opened Ledger
  import opened LedgerInvariant
  import opened Protocol
  import opened ProtocolInvariant
  import opened DeploymentRuns
  import opened DeploymentReplay
  import opened DeploymentRecovery
  import opened RaisedCommits
  import opened RaisedDeadEnds
  import opened RaisedContainer
  import opened RaisedRecords
  import opened RaisedRetirement

  // ---------------------------------------------------------------- the run's data

  const APP := Registration(1, Published(6, 7), 0, 0, 0, None, map[], 0, ManagedInstalled(80))
  const READ := Facts(0, Some(4), Some(2), true, true)
  const POLICY := Host(READ, APP, true, true)

  function Chosen(generation: nat): Selection { Selection(1, 2, Sha256(APP), 0, 4, generation, 5) }

  function Ask(kind: Kind, requestId: Id, rehearsal: Option<Id>): Request {
    Request(kind, 1, Some(5), 9, 0, requestId, rehearsal, None, true, false)
  }

  const REHEARSAL := Operation(1, 11, Rehearse, Chosen(0), 9, 0, None, None)
  const DEPLOY := Operation(2, 12, Deploy, Chosen(0), 9, 0, Some(1), None)
  const RETIREMENT := Operation(3, 13, Retire, Chosen(1), 9, 0, None, None)

  const PASSED := Receipt(1, Chosen(0), Succeeded, Some(Rehearsal(Chosen(0), None, true)), None, None, false)
  const RELEASE := Installed(2, 1, Chosen(0), APP, Pinned(2), ImageOf(Chosen(0)))
  const DEPLOYED := DeployReceipt(DEPLOY, APP, None)

  // ---------------------------------------------------------------- core along the run

  function CoreAtStart(): Core { Start(APP).core }

  function Asked(c: Core, o: Operation, state: State): Core {
    c.(operations := c.operations[o.id := Row(o, state, None)], active := Some(o.id),
       requests := c.requests[o.requestId := o.id])
  }

  function CoreRehearsed(): Core {
    var c := Asked(CoreAtStart(), REHEARSAL, Queued);
    c.(operations := c.operations[1 := Row(REHEARSAL, Ended(Succeeded), Some(PASSED))], active := None)
  }

  function CoreDeployed(): Core {
    var c := Asked(CoreRehearsed(), DEPLOY, Switching);
    c.(operations := c.operations[2 := Row(DEPLOY, Ended(Succeeded), Some(DEPLOYED))], active := None,
       history := [RELEASE])
  }

  lemma AsksToRehearse()
    ensures RequestOperation(CoreAtStart(), Ask(Rehearse, 11, None), 1, READ)
         == Ok((Asked(CoreAtStart(), REHEARSAL, Queued), REHEARSAL))
    ensures ReadAuthority(Asked(CoreAtStart(), REHEARSAL, Queued), 1, READ) == Ok(Authority(REHEARSAL, APP, None))
  {
  }

  lemma ConsumesRehearsal()
    ensures Consume(Asked(CoreAtStart(), REHEARSAL, Queued), 1, PASSED, READ) == Ok(CoreRehearsed())
  {
    AsksToRehearse();
    hide ReadAuthority;
    var c := Asked(CoreAtStart(), REHEARSAL, Queued);
    assert Consume(c, 1, PASSED, READ).Ok?;
  }

  lemma AsksToDeploy(state: State)
    requires Active(state)
    ensures RequestOperation(CoreRehearsed(), Ask(Deploy, 12, Some(1)), 2, READ)
         == Ok((Asked(CoreRehearsed(), DEPLOY, Queued), DEPLOY))
    ensures ReadAuthority(Asked(CoreRehearsed(), DEPLOY, state), 2, READ) == Ok(Authority(DEPLOY, APP, None))
  {
  }

  lemma ConsumesDeploy()
    ensures Consume(Asked(CoreRehearsed(), DEPLOY, Switching), 2, DEPLOYED, READ) == Ok(CoreDeployed())
  {
    var c := Asked(CoreRehearsed(), DEPLOY, Switching);
    assert AcceptedRow(c, DEPLOY, DEPLOYED) == Ok(Some(RELEASE));
    assert InsertAllowed(c.history, RELEASE);
    assert Appended(c, DEPLOY, DEPLOYED) == Ok(AppendAccepted(c, RELEASE));
    assert c.operations[2].operation == DEPLOY && EffectiveReceipt(c, DEPLOY, DEPLOYED, READ) == DEPLOYED;
    assert Consume(c, 2, DEPLOYED, READ).Ok?;
    var c' := Consume(c, 2, DEPLOYED, READ).value;
    assert c'.operations == CoreDeployed().operations;
    assert c'.history == CoreDeployed().history;
  }

  lemma AsksToRetire(state: State)
    requires Active(state)
    ensures RequestOperation(CoreDeployed(), Ask(Retire, 13, None), 3, READ)
         == Ok((Asked(CoreDeployed(), RETIREMENT, Queued), RETIREMENT))
    ensures ReadAuthority(Asked(CoreDeployed(), RETIREMENT, state), 3, READ)
         == Ok(Authority(RETIREMENT, APP, Some(RELEASE)))
  {
  }

  // ---------------------------------------------------------------- root along the run

  /** A switch approved, requested, begun, announced, admitted and polled. */
  function ToAdmit(r: Request, id: Id): seq<Step> {
    [ByCore(DoRequest(r, id, READ)), ByCore(DoPublishRequest(id)), ByRoot(DoBegin(id, POLICY)), ByRoot(DoAnnounce),
     ByCore(DoAcknowledge(id)), ByRoot(DoPoll)]
  }

  function Admitting(s: System, o: Operation): System {
    s.(core := Asked(s.core, o, Switching),
       spool := s.spool.(requests := s.spool.requests + {o.id}, switches := s.spool.switches + {o.id}),
       run := Executing(o, APP, s.root.current, true, Admitted))
  }

  /** Core grants the operation and root finds nothing of it yet. */
  predicate Grants(s: System, r: Request, o: Operation) {
    && s.run.Idle? && s.core.blocked.None? && !o.kind.Rehearse? && o.id !in s.root.journal && o.id !in s.spool.receipts
    && RequestOperation(s.core, r, o.id, READ) == Ok((Asked(s.core, o, Queued), o))
    && ReadAuthority(Asked(s.core, o, Queued), o.id, READ) == Ok(Authority(o, APP, s.root.current))
    && o.selection.generation == GenerationOf(s.root.current)
  }

  function Asking(s: System, o: Operation): System {
    s.(core := Asked(s.core, o, Queued), spool := s.spool.(requests := s.spool.requests + {o.id}))
  }

  lemma AdmitBegins(s: System, r: Request, o: Operation)
    requires Grants(s, r, o)
    ensures RequestStep(s, r, o.id, READ) == s.(core := Asked(s.core, o, Queued))
    ensures PublishRequest(s.(core := Asked(s.core, o, Queued)), o.id) == Asking(s, o)
    ensures Begin(Asking(s, o), o.id, POLICY)
         == Asking(s, o).(run := Executing(o, APP, s.root.current, true, Preparing))
  {
    hide RequestOperation, ReadAuthority;
    assert RootAuthority(Asking(s, o), o, POLICY) == Ok(Authority(o, APP, s.root.current));
    assert Asking(s, o).core.operations[o.id] == Row(o, Queued, None);
  }

  lemma AdmitPolls(s: System, o: Operation)
    requires !o.kind.Rehearse? && s.core.blocked.None?
    ensures var t := Asking(s, o).(run := Executing(o, APP, s.root.current, true, Preparing));
            Poll(AcknowledgeStep(Announce(t), o.id)) == Admitting(s, o)
  {
    var t := AcknowledgeStep(Announce(Asking(s, o).(run := Executing(o, APP, s.root.current, true, Preparing))), o.id);
    assert t.core.operations == Asked(s.core, o, Switching).operations;
  }

  lemma Admits(s: System, r: Request, o: Operation)
    requires Grants(s, r, o)
    ensures Execution(s, ToAdmit(r, o.id)) == Admitting(s, o)
  {
    hide Execution, Apply, RequestOperation, ReadAuthority, Asked, Begin, Announce, Poll, AcknowledgeStep, RequestStep,
         PublishRequest;
    AdmitBegins(s, r, o);
    AdmitPolls(s, o);
    var s1 := s.(core := Asked(s.core, o, Queued));
    var s3 := Asking(s, o).(run := Executing(o, APP, s.root.current, true, Preparing));
    var s4, s5 := Announce(s3), AcknowledgeStep(Announce(s3), o.id);
    StepsByName(s, r, o.id, READ, POLICY);
    StepsByName(s1, r, o.id, READ, POLICY);
    StepsByName(Asking(s, o), r, o.id, READ, POLICY);
    StepsByName(s3, r, o.id, READ, POLICY);
    StepsByName(s4, r, o.id, READ, POLICY);
    StepsByName(s5, r, o.id, READ, POLICY);
    SixSteps(s, ToAdmit(r, o.id), s1, Asking(s, o), s3, s4, s5, Admitting(s, o));
  }

  const RUNNING := Container(2, ImageOf(Chosen(0)), true)

  function AfterRehearsal(): System {
    System(CoreRehearsed(), Spool({1}, map[1 := PASSED], {}), Root(map[1 := PASSED], None, {}, None), Idle, {})
  }

  function AfterDeploy(): System {
    System(CoreDeployed(), Spool({1, 2}, map[1 := PASSED, 2 := DEPLOYED], {2}),
           Root(map[1 := PASSED, 2 := DEPLOYED], Some(RELEASE), {}, Some(RUNNING)), Idle, {2})
  }

  function BeforeRetirement(): System {
    System(Asked(CoreDeployed(), RETIREMENT, Switching), Spool({1, 2, 3}, map[1 := PASSED, 2 := DEPLOYED], {2, 3}),
           Root(map[1 := PASSED, 2 := DEPLOYED], Some(RELEASE), {3}, None),
           Executing(RETIREMENT, APP, Some(RELEASE), true, Removed), {2, 3})
  }

  function Rehearses(): seq<Step> {
    [ByCore(DoRequest(Ask(Rehearse, 11, None), 1, READ)), ByCore(DoPublishRequest(1)), ByRoot(DoBegin(1, POLICY)),
     ByRoot(DoRehearsed(None))]
  }

  /** Committed without interruption and consumed. */
  function ThenFinishes(id: Id): seq<Step> { seq(4, i => ByRoot(DoCommitWrite)) + [ByCore(DoConsume(id, READ))] }

  lemma FinishesAs(s: System, r: Receipt, t: System)
    requires s.run == Committing(r, 0) && r.operationId !in s.root.journal && r.operationId !in s.spool.receipts
    requires Consume(s.core, r.operationId, r, READ).Ok?
    requires t == Committed(s, r).(core := Consume(s.core, r.operationId, r, READ).value)
    ensures Execution(s, ThenFinishes(r.operationId)) == t
  {
    hide Execution, Apply, Consume;
    CommitsAll(s);
    var last := [ByCore(DoConsume(r.operationId, READ))];
    OneStep(Committed(s, r), last[0]);
    ConsumeStepOf(Committed(s, r), r.operationId, READ);
    ExecutionAppendsTo(s, seq(4, i => ByRoot(DoCommitWrite)), last, Committed(s, r));
  }

  lemma RehearsingSteps()
    ensures var s1 := Start(APP).(core := Asked(CoreAtStart(), REHEARSAL, Queued));
            var s2 := s1.(spool := s1.spool.(requests := {1}));
            var s3 := s2.(run := Executing(REHEARSAL, APP, None, true, Preparing));
            && Apply(Start(APP), Rehearses()[0]) == s1 && Apply(s1, Rehearses()[1]) == s2
            && Apply(s2, Rehearses()[2]) == s3 && Apply(s3, Rehearses()[3]) == s3.(run := Committing(PASSED, 0))
  {
    AsksToRehearse();
    hide RequestOperation, ReadAuthority;
  }

  lemma ReachesRehearsal()
    ensures Execution(Start(APP), Rehearses() + ThenFinishes(1)) == AfterRehearsal()
  {
    hide Execution, Apply, Consume;
    RehearsingSteps();
    var s1 := Start(APP).(core := Asked(CoreAtStart(), REHEARSAL, Queued));
    var s2 := s1.(spool := s1.spool.(requests := {1}));
    var s3 := s2.(run := Executing(REHEARSAL, APP, None, true, Preparing));
    var s4 := s3.(run := Committing(PASSED, 0));
    FourSteps(Start(APP), Rehearses(), s1, s2, s3, s4);
    ConsumesRehearsal();
    FinishesAs(s4, PASSED, AfterRehearsal());
    ExecutionAppendsTo(Start(APP), Rehearses(), ThenFinishes(1), s4);
  }

  function SwitchesOver(): seq<Step> {
    [ByRoot(DoRecheck(POLICY)), ByRoot(DoMark), OnHost(DoRemove), OnHost(DoLaunch(true)), ByRoot(DoProbe),
     ByRoot(DoFinishDeploy(POLICY))]
  }

  function SwitchedOver(s: System): System {
    s.(root := s.root.(markers := {2}, container := Some(RUNNING)), touched := {2}, run := Committing(DEPLOYED, 0))
  }

  /** Admitted on an empty host, with core's authority as it was granted. */
  predicate DeployAdmitted(s: System) {
    && s.run == Executing(DEPLOY, APP, None, true, Admitted) && s.root.container.None? && s.root.markers == {}
    && s.touched == {} && s.root.current.None? && ReadAuthority(s.core, 2, READ) == Ok(Authority(DEPLOY, APP, None))
  }

  lemma SwitchingSteps(s: System)
    requires DeployAdmitted(s)
    ensures var s1 := At(s, Authorised);
            var s2 := At(s1.(root := s1.root.(markers := {2})), Marked(false));
            var s3 := SetContainer(s2, None, Removed);
            && Apply(s, SwitchesOver()[0]) == s1 && Apply(s1, SwitchesOver()[1]) == s2
            && Apply(s2, SwitchesOver()[2]) == s3
  {
    hide ReadAuthority;
  }

  lemma LaunchingSteps(s: System)
    requires DeployAdmitted(s)
    ensures var s3 := SetContainer(At(s.(root := s.root.(markers := {2})), Marked(false)), None, Removed);
            var s4 := SetContainer(s3, Some(RUNNING), Launched);
            && Apply(s3, SwitchesOver()[3]) == s4 && Apply(s4, SwitchesOver()[4]) == At(s4, Probed)
            && Apply(At(s4, Probed), SwitchesOver()[5]) == SwitchedOver(s)
  {
    hide ReadAuthority;
  }

  lemma AdmittedDeploy()
    ensures DeployAdmitted(Admitting(AfterRehearsal(), DEPLOY))
  {
    AsksToDeploy(Switching);
    hide ReadAuthority;
  }

  lemma ReachesDeploy()
    ensures Execution(AfterRehearsal(), ToAdmit(Ask(Deploy, 12, Some(1)), 2) + SwitchesOver() + ThenFinishes(2))
         == AfterDeploy()
  {
    hide Execution, Apply, Consume, RequestOperation, ReadAuthority;
    AsksToDeploy(Queued);
    var first := ToAdmit(Ask(Deploy, 12, Some(1)), 2);
    Admits(AfterRehearsal(), Ask(Deploy, 12, Some(1)), DEPLOY);
    var s := Admitting(AfterRehearsal(), DEPLOY);
    var s1 := At(s, Authorised);
    var s2 := At(s1.(root := s1.root.(markers := {2})), Marked(false));
    var s3 := SetContainer(s2, None, Removed);
    var s4 := SetContainer(s3, Some(RUNNING), Launched);
    AdmittedDeploy();
    SwitchingSteps(s);
    LaunchingSteps(s);
    SixSteps(s, SwitchesOver(), s1, s2, s3, s4, At(s4, Probed), SwitchedOver(s));
    ExecutionAppendsTo(AfterRehearsal(), first, SwitchesOver(), s);
    ConsumesDeploy();
    FinishesAs(SwitchedOver(s), DEPLOYED, AfterDeploy());
    ExecutionAppendsTo(AfterRehearsal(), first + SwitchesOver(), ThenFinishes(2), SwitchedOver(s));
  }

  function Retires(): seq<Step> { [ByRoot(DoMark), OnHost(DoRemove)] }

  lemma RetiringSteps(s: System)
    requires s.run == Executing(RETIREMENT, APP, Some(RELEASE), true, Admitted) && s.root.container == Some(RUNNING)
    requires s.root.markers == {}
    ensures var s1 := At(s.(root := s.root.(markers := {3})), Marked(false));
            && Apply(s, Retires()[0]) == s1 && Apply(s1, Retires()[1]) == SetContainer(s1, None, Removed)
  {
  }

  lemma ReachesRetirement()
    ensures Execution(AfterDeploy(), ToAdmit(Ask(Retire, 13, None), 3) + Retires()) == BeforeRetirement()
  {
    hide Execution, Apply, RequestOperation, ReadAuthority;
    AsksToRetire(Queued);
    Admits(AfterDeploy(), Ask(Retire, 13, None), RETIREMENT);
    var s := Admitting(AfterDeploy(), RETIREMENT);
    var s1 := At(s.(root := s.root.(markers := {3})), Marked(false));
    RetiringSteps(s);
    assert SetContainer(s1, None, Removed) == BeforeRetirement();
    OneStep(s, Retires()[0]);
    OneStep(s1, Retires()[1]);
    ExecutionAppendsTo(s, [Retires()[0]], [Retires()[1]], s1);
    assert [Retires()[0]] + [Retires()[1]] == Retires();
    ExecutionAppendsTo(AfterDeploy(), ToAdmit(Ask(Retire, 13, None), 3), Retires(), s);
  }

  /** Rehearse, deploy, retire, up to the removed container. */
  function LifeUpToRetirement(): seq<Step> {
    Rehearses() + ThenFinishes(1) + (ToAdmit(Ask(Deploy, 12, Some(1)), 2) + SwitchesOver() + ThenFinishes(2))
    + (ToAdmit(Ask(Retire, 13, None), 3) + Retires())
  }

  lemma LivesUpToRetirement()
    ensures Execution(Start(APP), LifeUpToRetirement()) == BeforeRetirement()
    ensures FinishRetire(BeforeRetirement(), None, POLICY) != BeforeRetirement()
  {
    hide Execution, Apply;
    ReachesRehearsal();
    ReachesDeploy();
    ReachesRetirement();
    var second := ToAdmit(Ask(Deploy, 12, Some(1)), 2) + SwitchesOver() + ThenFinishes(2);
    var third := ToAdmit(Ask(Retire, 13, None), 3) + Retires();
    ExecutionAppendsTo(Start(APP), Rehearses() + ThenFinishes(1), second, AfterRehearsal());
    ExecutionAppendsTo(Start(APP), Rehearses() + ThenFinishes(1) + second, third, AfterDeploy());
    RetirementFinishes();
  }

  lemma RetirementFinishes()
    ensures FinishRetire(BeforeRetirement(), None, POLICY) != BeforeRetirement()
  {
    AsksToRetire(Switching);
    hide ReadAuthority;
  }

  /** It does happen: this run, one raising write and steps of the protocol end with journal
      and spool in disagreement and the application blocked for ever under a managed
      registration, and others with it running although its accepted generation is a retirement. */
  lemma RaisedWritesDoHarm(k: nat)
    requires k == 1 || k == 2
    ensures var events := Plainly(LifeUpToRetirement()) + Interrupted(None, POLICY, k);
            && (exists more ::
                  && DeadBlocked(History(Begun(APP), events + Plainly(more)).sys)
                  && Contrary(History(Begun(APP), events + Plainly(more)).sys, RETIREMENT.id))
            && (k == 1 ==> exists more :: RunsRetired(History(Begun(APP), events + Plainly(more)).sys))
  {
    hide History, AllSpared, DeadBlocked, RunsRetired, Interrupted, LifeUpToRetirement, FinishRetire, Retiring;
    var before := Plainly(LifeUpToRetirement());
    var events := before + Interrupted(None, POLICY, k);
    var x := History(Begun(APP), before);
    LivesUpToRetirement();
    PlainHistory(Begun(APP), LifeUpToRetirement());
    PlainlySpared(Begun(APP), LifeUpToRetirement());
    ReachesRetiring(APP, before, None, POLICY);
    var more := GetsStuck(x, None, POLICY, k);
    HistoryAppends(Begun(APP), before, Interrupted(None, POLICY, k));
    HistoryAppends(Begun(APP), events, Plainly(more));
    assert Contrary(History(Begun(APP), events + Plainly(more)).sys, RETIREMENT.id);
    ContainerClauseExactly(APP, before, None, POLICY, k);
  }
}
