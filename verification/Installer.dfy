/** The root installer (ops/managed_installer.py) as the sequential program it is: `execute`,
    `retire`, `recover`, `commit`, `sweep_markers` and `boot` over journal, spool and container.
    The class proves that every path through them, whatever call fails, wherever the process
    stops and whatever core does in between, is a run of the protocol's state machine, so
    every theorem about reachable states holds of the real files whenever a method returns.
    A write of `commit` that raises while the handler is still there to answer it is not a
    path of the class: `RaisedCommits` adds it to the state machine. */
module Installers {
  import opened Wrappers
  import opened DeploymentContracts
  import opened Ledger
  import opened Protocol
  import opened ProtocolInvariant
  import opened ProtocolCoreSteps
  import opened LedgerInvariant

  /** What core and the world outside may do between two of root's own steps. */
  predicate Elsewhere(step: Step) {
    step.ByCore? || (step.OnHost? && (step.host.DoContainerStops? || step.host.DoContainerGone?))
  }

  predicate AllElsewhere(steps: seq<Step>) { forall step | step in steps :: Elsewhere(step) }

  /** Everything `execute` cannot decide itself: what each read of the policy finds, which
      fallible call raises, whether a started container runs, what happens in between two
      steps, and whether the process stops there. */
  datatype Luck = Luck(host: nat -> Host, raises: nat -> bool, runs: nat -> bool, image: Option<ImageId>,
                       archive: Option<Digest>, meanwhile: nat -> seq<Step>, stops: nat -> bool)

  ghost predicate Fair(l: Luck) { forall k :: AllElsewhere(l.meanwhile(k)) }

  /** How a block of `execute` ended: a receipt is decided, it returned or the process stopped,
      or it raised. */
  datatype End = Decided | Returned | Raised

  /** How part of a block ended. */
  datatype Tried = Worked | Broke | Halted

  predicate Decides(run: Run, id: Id) { run.Committing? && run.write == 0 && run.receipt.operationId == id }

  predicate Carries(run: Run, before: Run)
    requires before.Executing?
  {
    && run.Executing? && run.operation == before.operation && run.before == before.before
    && run.registration == before.registration && run.release == before.release
  }

  /** The process after a block: a recovery may have raised while restoring, nothing else. */
  predicate EndsAs(end: End, run: Run, before: Run)
    requires before.Executing?
  {
    match end
    case Decided => Decides(run, before.operation.id)
    case Returned => run.Idle?
    case Raised => Carries(run, before) && (before.operation.kind.Recover? || !FallingBack(run.phase))
  }

  predicate TriedAs(tried: Tried, run: Run, before: Run)
    requires before.Executing?
  {
    if tried.Halted? then run.Idle? else Carries(run, before)
  }

  lemma ElsewhereLeavesProcess(s: System, step: Step)
    requires Elsewhere(step)
    ensures var s' := Apply(s, step);
            s' == s.(core := s'.core, spool := s.spool.(requests := s'.spool.requests),
                     root := s.root.(container := s'.root.container))
  {
    hide RequestOperation, Acknowledge, Consume, UpdateRegistration, ProposeSourceRename, ProvisionLegacy,
         RestoreUnacceptedLegacy, Reject;
  }

  lemma Extends(first: Registration, trace: seq<Step>, step: Step)
    ensures Execution(Start(first), trace + [step]) == Apply(Execution(Start(first), trace), step)
  {
    assert (trace + [step])[..|trace|] == trace;
  }

  // ---------------------------------------------------------------- the host effects as steps

  lemma RemovalIsAStep(s: System)
    requires s.run.Executing? && s.run.phase == Marked(false)
    ensures ApplyHost(s, DoRemove) == SetContainer(s, None, Removed)
  {
  }

  lemma StartIsAStep(s: System, running: bool)
    requires s.run.Executing?
    ensures s.run.phase.Removed? && !s.run.operation.kind.Retire? ==>
              ApplyHost(s, DoLaunch(running)) ==
                SetContainer(s, Some(Container(s.run.operation.id, ImageOf(s.run.operation.selection), running)), Launched)
    ensures s.run.phase == Marked(true) && s.root.container.Some? ==>
              ApplyHost(s, DoRestart) == SetContainer(s, Some(s.root.container.value.(running := true)), Launched)
  {
  }

  lemma RestoreIsTwoSteps(s: System, running: bool)
    requires s.run.Executing?
    ensures s.run.phase.Restoring? ==> ApplyHost(s, DoRestoreRemove) == SetContainer(s, None, RestoreRemoved)
    ensures s.run.phase.RestoreRemoved? && RunningOf(s.root.current).Some? ==>
              ApplyHost(s, DoRestoreLaunch(running)) ==
                SetContainer(s, Some(Container(s.root.current.value.operationId, s.root.current.value.imageId, running)),
                             RestoreLaunched)
  {
  }

  lemma BootIsThreeSteps(s: System, flag: bool)
    requires s.run.Booting? && s.run.target.Installed?
    ensures s.run.stage == 1 ==>
              ApplyHost(s, DoBootRemove) == s.(root := s.root.(container := None), run := s.run.(stage := 2))
    ensures s.run.stage == 2 ==>
              ApplyHost(s, DoBootLaunch(flag)) ==
                s.(root := s.root.(container := Some(Container(s.run.target.operationId, s.run.target.imageId, flag))),
                   run := s.run.(stage := 3))
    ensures s.run.stage == 3 ==>
              ApplyHost(s, DoBootProbe(flag)) ==
                s.(root := s.root.(container := if flag then s.root.container else None), run := Idle)
  {
  }

  class Installer {
    ghost const first: Registration
    var core: Core
    var requests: set<Id>
    var receipts: map<Id, Receipt>
    var switches: set<Id>
    var journal: map<Id, Receipt>
    var current: Option<Snapshot>
    var markers: set<Id>
    var container: Option<Container>
    var run: Run
    var touched: set<Id>
    ghost var trace: seq<Step>

    function State(): System
      reads this
    {
      System(core, Spool(requests, receipts, switches), Root(journal, current, markers, container), run, touched)
    }

    ghost predicate Valid()
      reads this
    {
      State() == Execution(Start(first), trace)
    }

    constructor (registration: Registration)
      ensures Valid() && first == registration && run.Idle?
    {
      first := registration;
      core := Core(registration, map[], None, None, map[], [], [], {});
      requests, receipts, switches := {}, map[], {};
      journal, current, markers, container := map[], None, {}, None;
      run, touched, trace := Idle, {}, [];
    }

    // -------------------------------------------------------------- single steps

    /** Core and the outside act. */
    method Meanwhile(steps: seq<Step>)
      requires Valid() && AllElsewhere(steps)
      modifies this`core, this`requests, this`container, this`trace
      ensures Valid()
    {
      hide Execution, Apply;
      for i := 0 to |steps|
        invariant Valid()
      {
        ElsewhereLeavesProcess(State(), steps[i]);
        Extends(first, trace, steps[i]);
        var s := Apply(State(), steps[i]);
        core, requests, container := s.core, s.spool.requests, s.root.container;
        trace := trace + [steps[i]];
      }
    }

    /** A step that only moves the process on. */
    method Move(next: Run, ghost step: RootStep)
      requires Valid() && ApplyRoot(State(), step) == State().(run := next)
      modifies this`run, this`trace
      ensures Valid() && run == next
    {
      hide Execution, ApplyRoot;
      Extends(first, trace, ByRoot(step));
      run := next;
      trace := trace + [ByRoot(step)];
    }

    /** The process stops, or gives up. */
    method Stop()
      requires Valid()
      modifies this`run, this`trace
      ensures Valid() && run.Idle?
    {
      hide Execution;
      Move(Idle, DoCrash);
    }

    /** Between two steps: core and the outside act, and the process may stop. */
    method Pause(l: Luck, k: nat) returns (on: bool)
      requires Valid() && Fair(l)
      modifies this`core, this`requests, this`container, this`run, this`trace
      ensures Valid() && run == if on then old(run) else Idle
    {
      Meanwhile(l.meanwhile(k));
      if l.stops(k) {
        Stop();
        return false;
      }
      return true;
    }

    /** A host effect of the operation being executed. */
    method Effect(to: Option<Container>, phase: Phase, ghost step: HostStep)
      requires Valid() && run.Executing? && ApplyHost(State(), step) == SetContainer(State(), to, phase)
      modifies this`container, this`run, this`touched, this`trace
      ensures Valid() && run == old(run).(phase := phase) && container == to
    {
      hide Execution, ApplyHost;
      Extends(first, trace, OnHost(step));
      container := to;
      touched := touched + {run.operation.id};
      run := run.(phase := phase);
      trace := trace + [OnHost(step)];
    }

    /** `remove`, for a switch or a retirement. */
    method RemoveContainer()
      requires Valid() && run.Executing? && run.phase == Marked(false)
      modifies this`container, this`run, this`touched, this`trace
      ensures Valid() && run == old(run).(phase := Removed)
    {
      hide Execution, ApplyHost;
      RemovalIsAStep(State());
      Effect(None, Removed, DoRemove);
    }

    /** `start` of the selected release. */
    method StartSelected(running: bool)
      requires Valid() && run.Executing? && run.phase.Removed? && !run.operation.kind.Retire?
      modifies this`container, this`run, this`touched, this`trace
      ensures Valid() && run == old(run).(phase := Launched)
    {
      hide Execution, ApplyHost;
      StartIsAStep(State(), running);
      Effect(Some(Container(run.operation.id, ImageOf(run.operation.selection), running)), Launched, DoLaunch(running));
    }

    /** `docker start` of a container an earlier attempt switched to. */
    method StartAgain()
      requires Valid() && run.Executing? && run.phase == Marked(true) && container.Some?
      modifies this`container, this`run, this`touched, this`trace
      ensures Valid() && run == old(run).(phase := Launched)
    {
      hide Execution, ApplyHost;
      StartIsAStep(State(), true);
      Effect(Some(container.value.(running := true)), Launched, DoRestart);
    }

    method RemoveForRestore()
      requires Valid() && run.Executing? && run.phase.Restoring?
      modifies this`container, this`run, this`touched, this`trace
      ensures Valid() && run == old(run).(phase := RestoreRemoved)
    {
      hide Execution, ApplyHost;
      RestoreIsTwoSteps(State(), false);
      Effect(None, RestoreRemoved, DoRestoreRemove);
    }

    method StartPrevious(running: bool)
      requires Valid() && run.Executing? && run.phase.RestoreRemoved? && RunningOf(current).Some?
      modifies this`container, this`run, this`touched, this`trace
      ensures Valid() && run == old(run).(phase := RestoreLaunched)
    {
      hide Execution, ApplyHost;
      RestoreIsTwoSteps(State(), running);
      Effect(Some(Container(current.value.operationId, current.value.imageId, running)), RestoreLaunched,
             DoRestoreLaunch(running));
    }

    /** `publish` of the switch intent in the spool. */
    method PublishIntent()
      requires Valid() && run.Executing? && run.phase.Preparing? && !run.operation.kind.Rehearse?
      modifies this`switches, this`run, this`trace
      ensures Valid() && run == old(run).(phase := Announced)
    {
      hide Execution;
      Extends(first, trace, ByRoot(DoAnnounce));
      switches := switches + {run.operation.id};
      run := run.(phase := Announced);
      trace := trace + [ByRoot(DoAnnounce)];
    }

    /** `publish` of the journal marker, the last write before the switch. */
    method PublishMarker() returns (switched: bool)
      requires Valid() && AtInspection(State()) && !Contradicts(State())
      modifies this`markers, this`run, this`trace
      ensures Valid() && run == old(run).(phase := Marked(switched))
      ensures switched ==> container.Some? && !run.operation.kind.Retire?
    {
      hide Execution;
      Extends(first, trace, ByRoot(DoMark));
      var o := run.operation;
      switched := !o.kind.Retire? && container.Some? && StartedBy(container.value, ImageOf(o.selection), o.id);
      markers := markers + {o.id};
      run := run.(phase := Marked(switched));
      trace := trace + [ByRoot(DoMark)];
    }

    /** `admitted`: publish the switch intent and wait for core to record it. */
    method AwaitAdmission(l: Luck, at: nat) returns (admitted: bool)
      requires Valid() && Fair(l) && run.Executing? && run.phase.Preparing? && !run.operation.kind.Rehearse?
      modifies this`core, this`requests, this`container, this`switches, this`markers, this`run, this`touched, this`trace
      ensures Valid()
      ensures if admitted then run == old(run).(phase := Admitted) else run.Idle?
    {
      hide Execution;
      PublishIntent();
      for i := 0 to 60
        invariant Valid() && run == old(run).(phase := Announced)
      {
        var on := Pause(l, at + i);
        if !on {
          return false;
        }
        if run.operation.id in core.operations && core.operations[run.operation.id].state.Switching? {
          Move(run.(phase := Admitted), DoPoll);
          return true;
        }
      }
      Stop();
      return false;
    }

    // -------------------------------------------------------------- commit

    /** `commit`, stopped before write number `writes`: the journal receipt is the commit
        point, the spool copy goes last but for the marker. */
    method Commit(writes: nat)
      requires Valid() && run.Committing? && run.write <= 1
      modifies this
      ensures Valid() && run.Idle?
      ensures writes >= 3 ==> old(run).receipt.operationId in receipts
    {
      hide Execution;
      if run.write == 0 && writes >= 1 {
        WriteJournal();
      }
      if run.write == 1 && writes >= 2 {
        WriteCurrent();
      }
      if run.write == 2 && writes >= 3 {
        var published := WriteSpool();
        if !published {
          return;
        }
      }
      if run.write == 3 && writes >= 4 {
        RemoveMarker();
        return;
      }
      Stop();
    }

    method WriteJournal()
      requires Valid() && run.Committing? && run.write == 0
      modifies this`journal, this`run, this`trace
      ensures Valid() && run == old(run).(write := 1) && run.receipt.operationId in journal
    {
      hide Execution;
      Extends(first, trace, ByRoot(DoCommitWrite));
      if run.receipt.operationId !in journal {
        journal := journal[run.receipt.operationId := run.receipt];
      }
      run := run.(write := 1);
      trace := trace + [ByRoot(DoCommitWrite)];
    }

    method WriteCurrent()
      requires Valid() && run.Committing? && run.write == 1
      modifies this`current, this`run, this`trace
      ensures Valid() && run == old(run).(write := 2)
    {
      hide Execution;
      Extends(first, trace, ByRoot(DoCommitWrite));
      var accepted := AcceptedBy(run.receipt);
      if accepted.Some? && accepted.value.generation == GenerationOf(current) + 1 {
        current := accepted;
      }
      run := run.(write := 2);
      trace := trace + [ByRoot(DoCommitWrite)];
    }

    /** `publish` accepts an identical rewrite and refuses any other. */
    method WriteSpool() returns (published: bool)
      requires Valid() && run.Committing? && run.write == 2
      modifies this`receipts, this`run, this`trace
      ensures Valid() && run == (if published then old(run).(write := 3) else Idle)
      ensures old(run).receipt.operationId in receipts
    {
      hide Execution;
      Extends(first, trace, ByRoot(DoCommitWrite));
      var r := run.receipt;
      if r.operationId !in receipts {
        receipts := receipts[r.operationId := r];
        published := true;
      } else {
        published := receipts[r.operationId] == r;
      }
      run := if published then run.(write := 3) else Idle;
      trace := trace + [ByRoot(DoCommitWrite)];
    }

    method RemoveMarker()
      requires Valid() && run.Committing? && run.write == 3
      modifies this`markers, this`run, this`trace
      ensures Valid() && run.Idle?
    {
      hide Execution;
      Extends(first, trace, ByRoot(DoCommitWrite));
      markers := markers - {run.receipt.operationId};
      run := Idle;
      trace := trace + [ByRoot(DoCommitWrite)];
    }

    // -------------------------------------------------------------- execute

    /** Rehearse, and for a deploy or rollback switch: mark, replace the container, probe. */
    method Switch(l: Luck) returns (end: End)
      requires Valid() && Fair(l) && run.Executing? && run.phase.Preparing?
      requires !run.operation.kind.Retire? && !run.operation.kind.Recover?
      modifies this`core, this`requests, this`container, this`switches, this`markers, this`run, this`touched, this`trace
      ensures Valid() && EndsAs(end, run, old(run))
    {
      hide Execution, RootAuthority;
      var o := run.operation;
      if l.raises(1) {
        return Raised;
      }
      if o.kind.Rehearse? {
        Move(Committing(Receipt(o.id, o.selection, Succeeded, Some(Rehearsal(o.selection, l.image, true)), None, None,
                                false), 0), DoRehearsed(l.image));
        return Decided;
      }
      var admitted := AwaitAdmission(l, 0);
      if !admitted {
        return Returned;
      }
      end := SwitchAdmitted(l);
    }

    /** Authority, inspection, the switch and its receipt, once core admitted the operation. */
    method SwitchAdmitted(l: Luck) returns (end: End)
      requires Valid() && Fair(l) && run.Executing? && run.phase.Admitted?
      requires run.operation.kind.Deploy? || run.operation.kind.Rollback?
      modifies this`core, this`requests, this`container, this`switches, this`markers, this`run, this`touched, this`trace
      ensures Valid() && EndsAs(end, run, old(run))
    {
      hide Execution, RootAuthority;
      var o := run.operation;
      if RootAuthority(State(), o, l.host(1)).Err? {
        return Raised;
      }
      Move(run.(phase := Authorised), DoRecheck(l.host(1)));
      var on := Pause(l, 61);
      if !on {
        return Returned;
      }
      if Contradicts(State()) {
        Move(Committing(PlainReceipt(o, Blocked), 0), DoContradict);
        return Decided;
      }
      end := SwitchRecognised(l);
    }

    method SwitchRecognised(l: Luck) returns (end: End)
      requires Valid() && Fair(l) && AtInspection(State()) && !Contradicts(State()) && !run.operation.kind.Retire?
      modifies this`core, this`requests, this`container, this`switches, this`markers, this`run, this`touched, this`trace
      ensures Valid() && EndsAs(end, run, old(run))
    {
      hide Execution, Contradicts;
      if l.raises(2) {
        return Raised;
      }
      var replaced := Replace(l);
      match replaced {
        case Halted => return Returned;
        case Broke => return Raised;
        case Worked => end := ConcludeSwitch(l);
      }
    }

    /** The switch itself, or a container an earlier attempt already switched to. */
    method Replace(l: Luck) returns (done: Tried)
      requires Valid() && Fair(l) && AtInspection(State()) && !Contradicts(State()) && !run.operation.kind.Retire?
      modifies this`core, this`requests, this`container, this`switches, this`markers, this`run, this`touched, this`trace
      ensures Valid() && TriedAs(done, run, old(run))
      ensures done.Worked? ==> run.phase.Launched?
      ensures done.Broke? ==> !FallingBack(run.phase)
    {
      hide Execution, Contradicts;
      var switched := PublishMarker();
      var on := Pause(l, 62);
      if !on {
        return Halted;
      }
      if l.raises(3) {
        return Broke;
      }
      if !switched {
        done := RemoveAndStart(l);
      } else {
        if container.None? {
          return Broke;
        }
        StartAgain();
        done := Worked;
      }
    }

    method RemoveAndStart(l: Luck) returns (done: Tried)
      requires Valid() && Fair(l) && run.Executing? && run.phase == Marked(false) && !run.operation.kind.Retire?
      modifies this`core, this`requests, this`container, this`switches, this`markers, this`run, this`touched, this`trace
      ensures Valid() && TriedAs(done, run, old(run))
      ensures done.Worked? ==> run.phase.Launched?
      ensures done.Broke? ==> !FallingBack(run.phase)
    {
      hide Execution;
      RemoveContainer();
      var on := Pause(l, 63);
      if !on {
        return Halted;
      }
      if l.raises(4) {
        return Broke;
      }
      StartSelected(l.runs(0));
      return Worked;
    }

    /** The probe, two last reads of the authority, and the receipt. */
    method ConcludeSwitch(l: Luck) returns (end: End)
      requires Valid() && Fair(l) && run.Executing? && run.phase.Launched?
      modifies this`core, this`requests, this`container, this`switches, this`markers, this`run, this`touched, this`trace
      ensures Valid() && EndsAs(end, run, old(run))
    {
      hide Execution, RootAuthority;
      var o := run.operation;
      var on := Pause(l, 64);
      if !on {
        return Returned;
      }
      if !ProbePasses(State(), ImageOf(o.selection)) {
        return Raised;
      }
      Move(run.(phase := Probed), DoProbe);
      on := Pause(l, 65);
      if !on {
        return Returned;
      }
      if RootAuthority(State(), o, l.host(2)).Err? || l.raises(5) {
        return Raised;
      }
      on := Pause(l, 66);
      if !on {
        return Returned;
      }
      if RootAuthority(State(), o, l.host(3)).Err? || l.raises(6) {
        return Raised;
      }
      Move(Committing(DeployReceipt(o, run.registration, run.before), 0), DoFinishDeploy(l.host(3)));
      return Decided;
    }

    /** `retire`: mark, remove the container and the units, and report what was retired. */
    method Retire(l: Luck) returns (end: End)
      requires Valid() && Fair(l) && run.Executing? && run.phase.Preparing? && run.operation.kind.Retire?
      modifies this`core, this`requests, this`container, this`switches, this`markers, this`run, this`touched, this`trace
      ensures Valid() && EndsAs(end, run, old(run))
    {
      hide Execution, RootAuthority, ApplyHost;
      var o := run.operation;
      var admitted := AwaitAdmission(l, 0);
      if !admitted {
        return Returned;
      }
      if RunningOf(run.before).None? {
        return Raised;
      }
      var on := Pause(l, 61);
      if !on {
        return Returned;
      }
      if Contradicts(State()) {
        Move(Committing(PlainReceipt(o, Blocked), 0), DoContradict);
        return Decided;
      }
      end := RetireMarked(l);
    }

    method RetireMarked(l: Luck) returns (end: End)
      requires Valid() && Fair(l) && AtInspection(State()) && !Contradicts(State()) && run.operation.kind.Retire?
      modifies this`core, this`requests, this`container, this`switches, this`markers, this`run, this`touched, this`trace
      ensures Valid() && EndsAs(end, run, old(run))
    {
      hide Execution, Contradicts;
      var _ := PublishMarker();
      var on := Pause(l, 62);
      if !on {
        return Returned;
      }
      if l.raises(3) {
        return Raised;
      }
      RemoveContainer();
      end := ConcludeRetirement(l);
    }

    method ConcludeRetirement(l: Luck) returns (end: End)
      requires Valid() && Fair(l) && run.Executing? && run.phase.Removed? && run.operation.kind.Retire? && run.before.Some?
      modifies this`core, this`requests, this`container, this`switches, this`markers, this`run, this`touched, this`trace
      ensures Valid() && EndsAs(end, run, old(run))
    {
      hide Execution, RootAuthority;
      var o := run.operation;
      var on := Pause(l, 63);
      if !on {
        return Returned;
      }
      if l.raises(4) || RootAuthority(State(), o, l.host(1)).Err? {
        return Raised;
      }
      Move(Committing(RetireReceipt(o, run.registration, run.before.value, l.archive), 0),
           DoFinishRetire(l.archive, l.host(1)));
      return Decided;
    }

    /** `recover`: adopt the blocked release if it runs as approved, else keep or restore the
        running generation, else tear down. */
    method Recover(l: Luck) returns (end: End)
      requires Valid() && Fair(l) && run.Executing? && run.phase.Preparing? && run.operation.kind.Recover?
      modifies this`core, this`requests, this`container, this`switches, this`markers, this`run, this`touched, this`trace
      ensures Valid() && EndsAs(end, run, old(run))
    {
      hide Execution, RootAuthority;
      var o := run.operation;
      var admitted := AwaitAdmission(l, 0);
      if !admitted {
        return Returned;
      }
      var on := Pause(l, 61);
      if !on {
        return Returned;
      }
      if !AtRecovery(State()) || l.raises(3) {
        return Raised;
      }
      if Adoptable(State()) {
        Move(run.(phase := Adopted), DoRecoverAdopt);
      } else {
        var back := ReturnToCurrent(l);
        if back.Halted? {
          return Returned;
        }
        if back.Broke? {
          return Raised;
        }
      }
      end := ConcludeRecovery(l);
    }

    method ConcludeRecovery(l: Luck) returns (end: End)
      requires Valid() && Fair(l) && run.Executing? && run.operation.kind.Recover? && run.operation.recovers.Some?
      requires run.phase.Adopted? || run.phase.Restored?
      modifies this`core, this`requests, this`container, this`switches, this`markers, this`run, this`touched, this`trace
      ensures Valid() && EndsAs(end, run, old(run))
    {
      hide Execution, RootAuthority;
      var o := run.operation;
      var on := Pause(l, 67);
      if !on {
        return Returned;
      }
      if RootAuthority(State(), o, l.host(1)).Err? || l.raises(5) {
        return Raised;
      }
      var installed :=
        if run.phase.Restored? then None
        else Some(Installed(o.recovers.value, GenerationOf(run.before) + 1, o.selection, run.registration,
                            Pinned(o.selection.archive), ImageOf(o.selection)));
      Move(Committing(RecoverReceipt(o, installed), 0), DoFinishRecover(l.host(1)));
      return Decided;
    }

    method ReturnToCurrent(l: Luck) returns (back: Tried)
      requires Valid() && Fair(l) && AtRecovery(State()) && !Adoptable(State())
      modifies this`core, this`requests, this`container, this`switches, this`markers, this`run, this`touched, this`trace
      ensures Valid() && TriedAs(back, run, old(run)) && (back.Worked? ==> run.phase.Restored?)
    {
      hide Execution, RootAuthority;
      if RunningOf(current).None? {
        Effect(None, Restored, DoRecoverTearDown);
        return Worked;
      }
      if container.Some? && container.value.running && Runs(container.value, current.value) && !l.raises(4) {
        Move(run.(phase := Restored), DoRecoverKeep);
        return Worked;
      }
      Move(run.(phase := Restoring), DoRecoverRestore);
      back := RestorePrevious(l);
    }

    /** `restore_previous`: replace whatever is there by the running generation. */
    method RestorePrevious(l: Luck) returns (restored: Tried)
      requires Valid() && Fair(l) && run.Executing? && run.phase.Restoring?
      modifies this`core, this`requests, this`container, this`switches, this`markers, this`run, this`touched, this`trace
      ensures Valid() && TriedAs(restored, run, old(run)) && (restored.Worked? ==> run.phase.Restored?)
      ensures restored.Broke? ==> FallingBack(run.phase)
    {
      hide Execution, ApplyHost;
      if RunningOf(current).None? || l.raises(7) {
        return Broke;
      }
      RemoveForRestore();
      var on := Pause(l, 68);
      if !on {
        return Halted;
      }
      if l.raises(8) {
        return Broke;
      }
      StartPrevious(l.runs(1));
      on := Pause(l, 69);
      if !on {
        return Halted;
      }
      if !ProbePasses(State(), current.value.imageId) || l.raises(9) {
        return Broke;
      }
      Move(run.(phase := Restored), DoRestoreProbe);
      return Worked;
    }

    /** The except block: fall back if the switch was marked, and decide the receipt, unless the
        process stops on the way. */
    method Answer(l: Luck) returns (answered: bool)
      requires Valid() && Fair(l) && run.Executing? && (run.operation.kind.Recover? || !FallingBack(run.phase))
      modifies this`core, this`requests, this`container, this`switches, this`markers, this`run, this`touched, this`trace
      ensures Valid() && if answered then Decides(run, old(run).operation.id) else run.Idle?
    {
      hide Execution, RootAuthority;
      var o := run.operation;
      if o.kind.Recover? {
        Move(Committing(PlainReceipt(o, Failed), 0), DoRaise);
      } else if o.id !in markers {
        Move(Committing(PlainReceipt(o, Failed), 0), DoRaise);
      } else if run.before.None? {
        Move(Committing(PlainReceipt(o, Blocked), 0), DoRaise);
      } else {
        Move(run.(phase := Falling), DoRaise);
        var fellBack := FallBack(l);
        match fellBack {
          case Halted => return false;
          case Worked => Move(Committing(PlainReceipt(o, Recovered), 0), DoFinishFall);
          case Broke => Move(Committing(PlainReceipt(o, Blocked), 0), DoRaise);
        }
      }
      return true;
    }

    /** `fell_back` */
    method FallBack(l: Luck) returns (fellBack: Tried)
      requires Valid() && Fair(l) && run.Executing? && run.phase.Falling?
      modifies this`core, this`requests, this`container, this`switches, this`markers, this`run, this`touched, this`trace
      ensures Valid() && TriedAs(fellBack, run, old(run)) && (fellBack.Worked? ==> run.phase.Restored?)
      ensures fellBack.Broke? ==> FallingBack(run.phase)
    {
      hide Execution, RootAuthority;
      var on := Pause(l, 70);
      if !on {
        return Halted;
      }
      if RunningOf(run.before).None? {
        if l.raises(10) {
          return Broke;
        }
        Effect(None, Restored, DoFallTearDown);
        return Worked;
      }
      if RootAuthority(State(), run.operation, l.host(4)).Err? {
        return Broke;
      }
      Move(run.(phase := Restoring), DoFallAuthorize(l.host(4)));
      fellBack := RestorePrevious(l);
    }

    /** `execute`, which may stop between any two steps, and whose commit stops before write
        number `writes`. Unless it stopped or returned without an outcome, the operation has
        its receipt in the spool once three writes are done; otherwise no receipt was written
        and root's record is what it was. */
    method Execute(id: Id, l: Luck, writes: nat) returns (decided: bool)
      requires Valid() && Fair(l) && run.Idle? && id in requests && id !in receipts
      modifies this
      ensures Valid() && run.Idle?
      ensures decided && writes >= 3 ==> id in receipts
      ensures !decided ==> journal == old(journal) && current == old(current) && receipts == old(receipts)
    {
      hide Execution, RootAuthority;
      if id in journal {
        JournalNamesItself(this, id);
        Move(Committing(journal[id], 1), DoBegin(id, l.host(0)));
        Commit(writes);
        return true;
      }
      if id !in core.operations || !Active(core.operations[id].state) {
        return false;
      }
      OperationNamesItself(this, id);
      var o := core.operations[id].operation;
      var authority := RootAuthority(State(), o, l.host(0));
      if authority.Err? {
        Move(Committing(PlainReceipt(o, if id in markers then Blocked else Failed), 0), DoBegin(id, l.host(0)));
        Commit(writes);
        return true;
      }
      Move(Executing(o, authority.value.registration, current, l.host(0).release, Preparing), DoBegin(id, l.host(0)));
      var end := Raised;
      if !l.raises(0) {
        if o.kind.Recover? {
          end := Recover(l);
        } else if o.kind.Retire? {
          end := Retire(l);
        } else {
          end := Switch(l);
        }
      }
      if end.Returned? {
        return false;
      }
      if end.Raised? {
        var answered := Answer(l);
        if !answered {
          return false;
        }
      }
      Commit(writes);
      return true;
    }

    // -------------------------------------------------------------- boot and sweep

    /** `boot`: only the accepted generation's own container is ever started. */
    method Boot(l: Luck) returns (running: bool)
      requires Valid() && Fair(l) && run.Idle?
      modifies this`core, this`requests, this`container, this`switches, this`markers, this`run, this`touched, this`trace
      ensures Valid() && run.Idle?
      ensures running ==> container.Some? && current.Some? && Runs(container.value, current.value)
    {
      hide Execution, ReadInstalledAuthority;
      var authority := ReadInstalledAuthority(core, l.host(0).facts);
      if authority.Err? {
        return false;
      }
      var target := authority.value;
      if current != Some(target) || target.registration != l.host(0).registration || !l.host(0).agrees {
        return false;
      }
      if container.Some? && !Runs(container.value, target) {
        return false;
      }
      Move(Booting(target, 0), DoBootBegin(l.host(0)));
      running := BootBegun(l);
    }

    method BootBegun(l: Luck) returns (running: bool)
      requires Valid() && Fair(l) && run.Booting? && run.stage == 0
      modifies this`core, this`requests, this`container, this`switches, this`markers, this`run, this`touched, this`trace
      ensures Valid() && run.Idle?
      ensures running ==> container.Some? && current.Some? && Runs(container.value, current.value)
    {
      hide Execution, ReadInstalledAuthority;
      var target := run.target;
      var on := Pause(l, 0);
      if !on {
        return false;
      }
      if ReadInstalledAuthority(core, l.host(1).facts) != Ok(target) || l.raises(0) {
        Stop();
        return false;
      }
      Move(run.(stage := 1), DoBootRecheck(l.host(1)));
      running := StartTarget(l);
    }

    method StartTarget(l: Luck) returns (running: bool)
      requires Valid() && Fair(l) && run.Booting? && run.stage == 1
      modifies this`core, this`requests, this`container, this`switches, this`markers, this`run, this`touched, this`trace
      ensures Valid() && run.Idle?
      ensures running ==> container.Some? && current.Some? && Runs(container.value, current.value)
    {
      hide Execution, ApplyHost;
      BootedIsCurrent(this);
      var target := run.target;
      if !target.Installed? {
        Stop();
        return false;
      }
      if ProbePasses(State(), target.imageId) {
        Move(Idle, DoBootKeep);
        return true;
      }
      BootIsThreeSteps(State(), false);
      SetBooted(None, run.(stage := 2), DoBootRemove);
      var on := Pause(l, 1);
      if !on {
        return false;
      }
      BootIsThreeSteps(State(), l.runs(0));
      SetBooted(Some(Container(target.operationId, target.imageId, l.runs(0))), run.(stage := 3), DoBootLaunch(l.runs(0)));
      running := ProbeTarget(l);
    }

    method ProbeTarget(l: Luck) returns (running: bool)
      requires Valid() && Fair(l) && run.Booting? && run.stage == 3 && run.target.Installed?
      modifies this`core, this`requests, this`container, this`switches, this`markers, this`run, this`touched, this`trace
      ensures Valid() && run.Idle?
      ensures running ==> container.Some? && current.Some? && Runs(container.value, current.value)
    {
      hide Execution, ApplyHost;
      var on := Pause(l, 2);
      if !on {
        return false;
      }
      BootedIsCurrent(this);
      BootIsThreeSteps(State(), false);
      BootIsThreeSteps(State(), true);
      if l.raises(1) || container.None? || !container.value.running {
        SetBooted(None, Idle, DoBootProbe(false));
        return false;
      }
      SetBooted(container, Idle, DoBootProbe(true));
      return true;
    }

    method SetBooted(to: Option<Container>, next: Run, ghost step: HostStep)
      requires Valid()
      requires ApplyHost(State(), step) == State().(root := State().root.(container := to), run := next)
      modifies this`container, this`run, this`trace
      ensures Valid() && container == to && run == next
    {
      hide Execution, ApplyHost;
      Extends(first, trace, OnHost(step));
      container := to;
      run := next;
      trace := trace + [OnHost(step)];
    }

    /** `sweep_markers`: the marker of every operation whose receipt core consumed. */
    method SweepMarkers()
      requires Valid() && run.Idle?
      modifies this`switches, this`trace
      ensures Valid()
      ensures switches == set id | id in old(switches) && !(id in receipts && id !in requests)
    {
      hide Execution;
      var left := switches;
      while left != {}
        invariant Valid() && left <= old(switches)
        invariant forall id | id in left :: id in switches
        invariant forall id | id in old(switches) && id !in left ::
                    id in switches <==> !(id in receipts && id !in requests)
        invariant switches <= old(switches)
        decreases |left|
      {
        var id :| id in left;
        left := left - {id};
        if id in receipts && id !in requests {
          RemoveIntent(id);
        }
      }
    }

    method RemoveIntent(id: Id)
      requires Valid() && run.Idle? && id in receipts && id !in requests
      modifies this`switches, this`trace
      ensures Valid() && switches == old(switches) - {id}
    {
      hide Execution;
      Extends(first, trace, ByRoot(DoSweep(id)));
      switches := switches - {id};
      trace := trace + [ByRoot(DoSweep(id))];
    }
  }

  // ---------------------------------------------------------------- what validity buys

  /** Whatever the methods above did, the protocol's invariant holds of the files. */
  lemma ValidIsSafe(i: Installer)
    requires i.Valid()
    ensures Inv(i.State())
  {
    hide Execution, Inv;
    ReachableInv(i.first, i.trace);
  }

  lemma JournalNamesItself(i: Installer, id: Id)
    requires i.Valid() && id in i.journal
    ensures i.journal[id].operationId == id
  {
    ValidIsSafe(i);
    JournalNames(i.State(), id);
  }

  lemma JournalNames(s: System, id: Id)
    requires Inv(s) && id in s.root.journal
    ensures s.root.journal[id].operationId == id
  {
    assert ReceiptShape(s.core.operations, s.core.operations[id].operation, s.root.journal[id]);
  }

  lemma OperationNamesItself(i: Installer, id: Id)
    requires i.Valid() && id in i.core.operations
    ensures i.core.operations[id].operation.id == id
  {
    ValidIsSafe(i);
    OperationNames(i.State(), id);
  }

  lemma OperationNames(s: System, id: Id)
    requires Inv(s) && id in s.core.operations
    ensures s.core.operations[id].operation.id == id
  {
  }

  lemma BootedIsCurrent(i: Installer)
    requires i.Valid() && i.run.Booting?
    ensures i.current == Some(i.run.target) && AtCurrent(i.State().root)
  {
    ValidIsSafe(i);
    Booted(i.State());
  }

  lemma Booted(s: System)
    requires Inv(s) && s.run.Booting?
    ensures s.root.current == Some(s.run.target) && AtCurrent(s.root)
  {
    hide CoreInv, RecordsOk, SettledOk, MarkersOk, RequestsOk, AdmittedOk, ConsumedOk, CurrentOk, TruthOk,
         ContainerOk, TouchedOk;
  }
}
