/** Every step of the deployment protocol keeps its invariant. */
module ProtocolSteps {
  import opened Wrappers
  import opened DeploymentContracts
  import opened Ledger
  import opened LedgerInvariant
  import opened Protocol
  import opened ProtocolInvariant

  // ---------------------------------------------------------------- frames

  predicate ProcessOk(s: System) { RunOk(s.core, s.spool, s.root, s.run, s.touched) }

  /** A step that only moves the process needs only the process's own conjunct. */
  lemma RunChangeKeepsInv(s: System, run: Run)
    requires Inv(s) && RunOk(s.core, s.spool, s.root, run, s.touched)
    ensures Inv(s.(run := run))
  {
    hide CoreInv, RecordsOk, SettledOk, MarkersOk, RequestsOk, AdmittedOk, ConsumedOk, CurrentOk, TruthOk,
         ContainerOk, TouchedOk, RunOk;
  }

  function HostChanged(s: System, container: Option<Container>, run: Run, touched: set<Id>): System {
    s.(root := s.root.(container := container), run := run, touched := touched)
  }

  /** A step that changes the container leaves every record alone. */
  lemma ContainerChangeKeepsInv(s: System, container: Option<Container>, run: Run, touched: set<Id>)
    requires Inv(s)
    requires var s' := HostChanged(s, container, run, touched);
             && TruthOk(s'.core, s'.root) && ContainerOk(s'.core, s'.root)
             && TouchedOk(s.core, s.root.markers, s.root.journal, touched) && ProcessOk(s')
    ensures Inv(HostChanged(s, container, run, touched))
  {
    hide CoreInv, RecordsOk, SettledOk, MarkersOk, RequestsOk, AdmittedOk, ConsumedOk, CurrentOk, TruthOk,
         ContainerOk, TouchedOk, RunOk;
  }

  // ---------------------------------------------------------------- ending an execution

  /** An active operation without marker or receipt has not touched the container. */
  lemma UnmarkedIsAtCurrent(c: Core, root: Root, id: Id)
    requires InFlight(c) && ContainerOk(c, root) && IsActive(c, id)
    requires !c.operations[id].operation.kind.Recover?
    requires id !in root.markers && id !in root.journal
    ensures AtCurrent(root)
  {
  }

  /** Ending an execution with a receipt that reports nothing but its outcome. */
  lemma PlainCommittingOk(s: System, o: Operation, outcome: Outcome)
    requires Keyed(s.core) && RecordsOk(s.core.operations, s.spool.receipts, s.root.journal)
    requires TouchedOk(s.core, s.root.markers, s.root.journal, s.touched)
    requires IsActive(s.core, o.id) && s.core.operations[o.id].operation == o
    requires o.id !in s.root.journal && o.id in s.spool.requests
    requires outcome.Recovered? || outcome.Blocked? || (outcome.Failed? && o.kind.Recover?) ||
             (outcome.Failed? && o.id !in s.root.markers)
    requires outcome.Recovered? || outcome.Blocked? ==> Switches(o.kind)
    requires !outcome.Blocked? && !o.kind.Recover? ==> AtCurrent(s.root)
    ensures CommittingOk(s.core, s.spool, s.root, Committing(PlainReceipt(o, outcome), 0), s.touched)
  {
  }

  lemma RaiseRunOk(s: System)
    requires InFlight(s.core) && RecordsOk(s.core.operations, s.spool.receipts, s.root.journal)
    requires MarkersOk(s.core, s.spool.switches, s.root.markers, s.root.journal)
    requires ContainerOk(s.core, s.root) && TouchedOk(s.core, s.root.markers, s.root.journal, s.touched)
    requires ProcessOk(s)
    ensures ProcessOk(Raise(s))
  {
    if s.run.Executing? {
      var o := s.run.operation;
      if o.kind.Recover? {
        PlainCommittingOk(s, o, Failed);
      } else if FallingBack(s.run.phase) {
        PlainCommittingOk(s, o, Blocked);
      } else if o.id !in s.root.markers {
        UnmarkedIsAtCurrent(s.core, s.root, o.id);
        PlainCommittingOk(s, o, Failed);
      } else if s.run.before.None? {
        assert Switches(o.kind);
        PlainCommittingOk(s, o, Blocked);
      }
    }
  }

  lemma ContradictRunOk(s: System)
    requires InFlight(s.core) && RecordsOk(s.core.operations, s.spool.receipts, s.root.journal)
    requires TouchedOk(s.core, s.root.markers, s.root.journal, s.touched)
    requires ProcessOk(s)
    ensures ProcessOk(Contradict(s))
  {
    if AtInspection(s) && Contradicts(s) {
      PlainCommittingOk(s, s.run.operation, Blocked);
    }
  }

  lemma FinishFallRunOk(s: System)
    requires InFlight(s.core) && RecordsOk(s.core.operations, s.spool.receipts, s.root.journal)
    requires TouchedOk(s.core, s.root.markers, s.root.journal, s.touched)
    requires ProcessOk(s)
    ensures ProcessOk(FinishFall(s))
  {
    if s.run.Executing? && s.run.phase.Restored? && !s.run.operation.kind.Recover? {
      PlainCommittingOk(s, s.run.operation, Recovered);
    }
  }

  // ---------------------------------------------------------------- beginning one

  /** A replay commits from the journal, past the write that is already there. */
  lemma BeginReplayOk(s: System, id: Id)
    requires InFlight(s.core) && RecordsOk(s.core.operations, s.spool.receipts, s.root.journal)
    requires SettledOk(s.core, s.spool.receipts, s.root.journal)
    requires RequestsOk(s.core, s.spool.requests, s.root.journal)
    requires id in s.root.journal && id !in s.spool.receipts
    ensures CommittingOk(s.core, s.spool, s.root, Committing(s.root.journal[id], 1), s.touched)
  {
  }

  lemma BeginAuthorisedOk(s: System, id: Id, h: Host)
    requires InFlight(s.core)
    requires id in s.core.operations && Active(s.core.operations[id].state)
    requires id in s.spool.requests && id !in s.root.journal
    requires RootAuthority(s, s.core.operations[id].operation, h).Ok?
    ensures var o := s.core.operations[id].operation;
            ExecutingOk(s.core, s.spool, s.root,
                        Executing(o, RootAuthority(s, o, h).value.registration, s.root.current, h.release, Preparing))
  {
    AuthorityForm(s.core, id, h.facts);
  }

  lemma BeginRefusedOk(s: System, id: Id)
    requires InFlight(s.core) && RecordsOk(s.core.operations, s.spool.receipts, s.root.journal)
    requires MarkersOk(s.core, s.spool.switches, s.root.markers, s.root.journal)
    requires ContainerOk(s.core, s.root) && TouchedOk(s.core, s.root.markers, s.root.journal, s.touched)
    requires id in s.core.operations && Active(s.core.operations[id].state)
    requires id in s.spool.requests && id !in s.root.journal
    ensures CommittingOk(s.core, s.spool, s.root,
                         Committing(PlainReceipt(s.core.operations[id].operation,
                                                 if id in s.root.markers then Blocked else Failed), 0), s.touched)
  {
    var o := s.core.operations[id].operation;
    if id in s.root.markers {
      PlainCommittingOk(s, o, Blocked);
    } else {
      if !o.kind.Recover? {
        UnmarkedIsAtCurrent(s.core, s.root, id);
      }
      PlainCommittingOk(s, o, Failed);
    }
  }

  lemma BeginRunOk(s: System, id: Id, h: Host)
    requires InFlight(s.core) && Inv(s)
    ensures ProcessOk(Begin(s, id, h))
  {
    hide CoreInv, InFlight, RecordsOk, SettledOk, MarkersOk, RequestsOk, AdmittedOk, ConsumedOk, CurrentOk, TruthOk,
         ContainerOk, TouchedOk, ReadAuthority;
    if s.run.Idle? && id in s.spool.requests && id !in s.spool.receipts {
      if id in s.root.journal {
        BeginReplayOk(s, id);
      } else if id in s.core.operations && Active(s.core.operations[id].state) {
        if RootAuthority(s, s.core.operations[id].operation, h).Ok? {
          BeginAuthorisedOk(s, id, h);
        } else {
          BeginRefusedOk(s, id);
        }
      }
    }
  }

  // ---------------------------------------------------------------- moving along

  /** Before its receipt, an operation sees root's record equal to core's latest. */
  lemma NoReceiptYet(s: System)
    requires s.run.Executing? && ExecutingOk(s.core, s.spool, s.root, s.run)
    requires CurrentOk(s.core, s.spool.receipts, s.root.journal, s.root.current)
    ensures s.run.before == s.root.current == Latest(s.core.history)
  {
  }

  lemma MovingRunOk(s: System, h: Host)
    requires ProcessOk(s)
    ensures ProcessOk(Poll(s)) && ProcessOk(Recheck(s, h)) && ProcessOk(Probe(s)) && ProcessOk(FallAuthorize(s, h))
    ensures ProcessOk(RestoreProbe(s)) && ProcessOk(BootRecheck(s, h)) && ProcessOk(BootKeep(s)) && ProcessOk(Crash(s))
  {
    hide RootAuthority, ReadInstalledAuthority;
  }

  lemma RehearsedRunOk(s: System, image: Option<ImageId>)
    requires InFlight(s.core) && RecordsOk(s.core.operations, s.spool.receipts, s.root.journal)
    requires ContainerOk(s.core, s.root)
    requires ProcessOk(s)
    ensures ProcessOk(Rehearsed(s, image))
  {
    hide HistoryShape;
    if s.run.Executing? {
      var o := s.run.operation;
      if s.run.phase.Preparing? && o.kind.Rehearse? {
        assert AtCurrent(s.root);
      }
    }
  }

  lemma FinishDeployRunOk(s: System, h: Host)
    requires InFlight(s.core) && RecordsOk(s.core.operations, s.spool.receipts, s.root.journal)
    requires CurrentOk(s.core, s.spool.receipts, s.root.journal, s.root.current)
    requires ProcessOk(s)
    ensures ProcessOk(FinishDeploy(s, h))
  {
    hide RootAuthority;
    if s.run.Executing? {
      NoReceiptYet(s);
      LatestGeneration(s.core);
    }
  }

  lemma FinishRetireRunOk(s: System, archive: Option<Digest>, h: Host)
    requires InFlight(s.core) && RecordsOk(s.core.operations, s.spool.receipts, s.root.journal)
    requires CurrentOk(s.core, s.spool.receipts, s.root.journal, s.root.current)
    requires ProcessOk(s)
    ensures ProcessOk(FinishRetire(s, archive, h))
  {
    hide RootAuthority;
    if s.run.Executing? {
      NoReceiptYet(s);
      LatestGeneration(s.core);
    }
  }

  lemma RecoveringRunOk(s: System)
    requires InFlight(s.core) && RecordsOk(s.core.operations, s.spool.receipts, s.root.journal)
    requires CurrentOk(s.core, s.spool.receipts, s.root.journal, s.root.current)
    requires HistoryBacked(s.core) && ContainerOk(s.core, s.root) && ProcessOk(s)
    ensures ProcessOk(RecoverAdopt(s)) && ProcessOk(RecoverKeep(s)) && ProcessOk(RecoverRestore(s))
  {
    hide RecordsOk, HistoryBacked, ContainerOk, HistoryShape;
    if AtRecovery(s) {
      NoReceiptYet(s);
      if Adoptable(s) {
        AdoptedWasASwitch(s);
      }
    }
  }

  /** The container a recovery adopts was started by a deploy or rollback. */
  lemma AdoptedWasASwitch(s: System)
    requires InFlight(s.core) && RecordsOk(s.core.operations, s.spool.receipts, s.root.journal)
    requires HistoryBacked(s.core) && ContainerOk(s.core, s.root)
    requires AtRecovery(s) && Adoptable(s) && ExecutingOk(s.core, s.spool, s.root, s.run)
    requires s.root.current == Latest(s.core.history)
    ensures var b := s.run.operation.recovers.value;
            && b in s.core.operations && !s.core.operations[b].operation.kind.Retire?
            && s.core.operations[b].operation.selection == s.run.operation.selection
  {
    var b := s.run.operation.recovers.value;
    assert s.core.blocked == Some(b);
    if AtCurrent(s.root) {
      assert s.root.current.value == s.core.history[|s.core.history| - 1];
    }
  }

  lemma FinishRecoverRunOk(s: System, h: Host)
    requires InFlight(s.core) && RecordsOk(s.core.operations, s.spool.receipts, s.root.journal)
    requires CurrentOk(s.core, s.spool.receipts, s.root.journal, s.root.current)
    requires ProcessOk(s)
    ensures ProcessOk(FinishRecover(s, h))
  {
    hide RootAuthority;
    if s.run.Executing? {
      NoReceiptYet(s);
      LatestGeneration(s.core);
    }
  }

  lemma BootBeginRunOk(s: System, h: Host)
    requires InFlight(s.core) && RecordsOk(s.core.operations, s.spool.receipts, s.root.journal)
    requires CurrentOk(s.core, s.spool.receipts, s.root.journal, s.root.current)
    requires ProcessOk(s)
    ensures ProcessOk(BootBegin(s, h))
  {
  }

  // ---------------------------------------------------------------- touching the container

  /** An execution about to change the container has no receipt and is not quiet. */
  lemma TouchingOk(s: System)
    requires s.run.Executing? && ExecutingOk(s.core, s.spool, s.root, s.run)
    requires TouchedOk(s.core, s.root.markers, s.root.journal, s.touched)
    requires s.run.operation.kind.Recover? || s.run.operation.id in s.root.markers
    ensures TouchedOk(s.core, s.root.markers, s.root.journal, s.touched + {s.run.operation.id})
    ensures s.core.active == Some(s.run.operation.id) && s.run.operation.id !in s.root.journal
  {
  }

  /** Every container change an execution makes: removed, its own, or the current one's. */
  lemma ExecutingTouchKeepsInv(s: System, container: Option<Container>, phase: Phase)
    requires Inv(s) && s.run.Executing?
    requires s.run.operation.kind.Recover? || s.run.operation.id in s.root.markers
    requires var s' := SetContainer(s, container, phase);
             ContainerOk(s.core, s'.root) && PhaseOk(s.core, s.spool.switches, s'.root, s.run.operation, s.run.before, phase)
    ensures Inv(SetContainer(s, container, phase))
  {
    hide CoreInv, RecordsOk, SettledOk, MarkersOk, RequestsOk, AdmittedOk, ConsumedOk, CurrentOk, ContainerOk,
         TouchedOk, PhaseOk;
    TouchingOk(s);
    ContainerChangeKeepsInv(s, container, s.run.(phase := phase), s.touched + {s.run.operation.id});
  }

  lemma SwitchTouchesKeepInv(s: System, running: bool)
    requires Inv(s)
    ensures Inv(Remove(s)) && Inv(Launch(s, running)) && Inv(Restart(s))
  {
    hide CoreInv, RecordsOk, SettledOk, MarkersOk, RequestsOk, AdmittedOk, ConsumedOk, CurrentOk, TruthOk, TouchedOk;
    if s.run.Executing? {
      var o := s.run.operation;
      if s.run.phase == Marked(false) {
        ExecutingTouchKeepsInv(s, None, Removed);
      }
      if s.run.phase.Removed? && !o.kind.Retire? {
        ExecutingTouchKeepsInv(s, Some(Container(o.id, ImageOf(o.selection), running)), Launched);
      }
      if s.run.phase == Marked(true) && s.root.container.Some? {
        ExecutingTouchKeepsInv(s, Some(s.root.container.value.(running := true)), Launched);
      }
    }
  }

  lemma RestoreTouchesKeepInv(s: System, running: bool)
    requires Inv(s)
    ensures Inv(FallTearDown(s)) && Inv(RestoreRemove(s)) && Inv(RestoreLaunch(s, running))
  {
    hide CoreInv, RecordsOk, SettledOk, MarkersOk, RequestsOk, AdmittedOk, ConsumedOk, CurrentOk, TruthOk, TouchedOk;
    if s.run.Executing? {
      if s.run.phase.Falling? && RunningOf(s.run.before).None? {
        ExecutingTouchKeepsInv(s, None, Restored);
      }
      if s.run.phase.Restoring? {
        ExecutingTouchKeepsInv(s, None, RestoreRemoved);
      }
      if s.run.phase.RestoreRemoved? && RunningOf(s.root.current).Some? {
        ExecutingTouchKeepsInv(s, RestoreLaunch(s, running).root.container, RestoreLaunched);
      }
    }
  }

  lemma RecoverTearDownKeepsInv(s: System)
    requires Inv(s) && InFlight(s.core)
    ensures Inv(RecoverTearDown(s))
  {
    hide CoreInv, RecordsOk, SettledOk, MarkersOk, RequestsOk, AdmittedOk, ConsumedOk, CurrentOk, TruthOk, TouchedOk,
         HistoryShape;
    if AtRecovery(s) && !Adoptable(s) && RunningOf(s.root.current).None? {
      ExecutingTouchKeepsInv(s, None, Restored);
    }
  }

  lemma BootTouchesKeepInv(s: System, flag: bool)
    requires Inv(s)
    ensures Inv(BootRemove(s)) && Inv(BootLaunch(s, flag)) && Inv(BootProbe(s, flag))
  {
    hide CoreInv, RecordsOk, SettledOk, MarkersOk, RequestsOk, AdmittedOk, ConsumedOk, CurrentOk, TouchedOk;
    if s.run.Booting? {
      if s.run.stage == 1 {
        ContainerChangeKeepsInv(s, None, s.run.(stage := 2), s.touched);
      }
      if s.run.stage == 2 && s.run.target.Installed? {
        ContainerChangeKeepsInv(s, BootLaunch(s, flag).root.container, s.run.(stage := 3), s.touched);
      }
      if s.run.stage == 3 {
        ContainerChangeKeepsInv(s, BootProbe(s, flag).root.container, Idle, s.touched);
      }
    }
  }

  /** Whatever stops or removes the container from outside breaks nothing. */
  lemma OutsideKeepsInv(s: System)
    requires Inv(s)
    ensures Inv(ContainerStops(s)) && Inv(ContainerGone(s))
  {
    hide CoreInv, RecordsOk, SettledOk, MarkersOk, RequestsOk, AdmittedOk, ConsumedOk, CurrentOk, TouchedOk;
    ContainerChangeKeepsInv(s, None, s.run, s.touched);
    if s.root.container.Some? {
      ContainerChangeKeepsInv(s, ContainerStops(s).root.container, s.run, s.touched);
    }
  }

  // ---------------------------------------------------------------- root's own records

  lemma AnnounceKeepsInv(s: System)
    requires Inv(s)
    ensures Inv(Announce(s))
  {
    hide CoreInv, RecordsOk, SettledOk, RequestsOk, AdmittedOk, ConsumedOk, CurrentOk, TruthOk, ContainerOk,
         TouchedOk;
  }

  lemma MarkKeepsInv(s: System)
    requires Inv(s)
    ensures Inv(Mark(s))
  {
    hide CoreInv, RecordsOk, SettledOk, RequestsOk, AdmittedOk, ConsumedOk, CurrentOk;
  }

  lemma CommitJournalRecords(s: System)
    requires InFlight(s.core) && RecordsOk(s.core.operations, s.spool.receipts, s.root.journal)
    requires s.run.Committing? && s.run.write == 0 && CommittingOk(s.core, s.spool, s.root, s.run, s.touched)
    ensures var s' := CommitWrite(s); RecordsOk(s'.core.operations, s'.spool.receipts, s'.root.journal)
  {
    hide HistoryShape;
  }

  lemma CommitJournalHost(s: System)
    requires InFlight(s.core) && Inv(s)
    requires s.run.Committing? && s.run.write == 0
    ensures var s' := CommitWrite(s);
            && SettledOk(s'.core, s'.spool.receipts, s'.root.journal)
            && MarkersOk(s'.core, s'.spool.switches, s'.root.markers, s'.root.journal)
            && RequestsOk(s'.core, s'.spool.requests, s'.root.journal)
            && AdmittedOk(s'.core, s'.root.journal) && ConsumedOk(s'.core, s'.root.journal)
            && CurrentOk(s'.core, s'.spool.receipts, s'.root.journal, s'.root.current)
            && TruthOk(s'.core, s'.root) && ContainerOk(s'.core, s'.root)
            && TouchedOk(s'.core, s'.root.markers, s'.root.journal, s'.touched)
            && ProcessOk(s')
  {
    hide CoreInv, RecordsOk, HistoryShape;
  }

  lemma CommitJournalKeepsInv(s: System)
    requires Inv(s) && InFlight(s.core) && s.run.Committing? && s.run.write == 0
    ensures Inv(CommitWrite(s))
  {
    hide CoreInv, InFlight, RecordsOk, SettledOk, MarkersOk, RequestsOk, AdmittedOk, ConsumedOk, CurrentOk, TruthOk,
         ContainerOk, TouchedOk, CommittingOk;
    CommitJournalRecords(s);
    CommitJournalHost(s);
  }

  lemma CommitCurrentKeepsInv(s: System)
    requires Inv(s) && InFlight(s.core) && s.run.Committing? && s.run.write == 1
    ensures Inv(CommitWrite(s))
  {
    hide CoreInv, SettledOk, MarkersOk, RequestsOk, AdmittedOk, ConsumedOk, TouchedOk;
    LatestGeneration(s.core);
  }

  lemma CommitSpoolKeepsInv(s: System)
    requires Inv(s) && s.run.Committing? && s.run.write == 2
    ensures Inv(CommitWrite(s))
  {
    hide CoreInv, MarkersOk, RequestsOk, AdmittedOk, ConsumedOk, TruthOk, ContainerOk, TouchedOk, ReceiptShape;
  }

  lemma CommitUnmarkKeepsInv(s: System)
    requires Inv(s) && s.run.Committing? && s.run.write >= 3
    ensures Inv(CommitWrite(s))
  {
    hide CoreInv, RecordsOk, SettledOk, RequestsOk, AdmittedOk, ConsumedOk, CurrentOk;
  }

  lemma SweepKeepsInv(s: System, id: Id)
    requires Inv(s)
    ensures Inv(Sweep(s, id))
  {
    hide CoreInv, SettledOk, AdmittedOk, ConsumedOk, CurrentOk, TruthOk, ContainerOk, TouchedOk, ReceiptShape;
  }

  lemma RequestFilesKeepInv(s: System, id: Id)
    requires Inv(s) && InFlight(s.core)
    ensures Inv(PublishRequest(s, id)) && Inv(UnlinkRequest(s, id))
  {
    hide CoreInv, RecordsOk, SettledOk, MarkersOk, AdmittedOk, ConsumedOk, CurrentOk, TruthOk, ContainerOk,
         TouchedOk, HistoryShape;
  }
}
