/** What becomes of a retirement whose commit raises: the write of the current record can end
    with a container running after the retirement, and that write and the spool receipt's
    can block the application for good. */
module RaisedRetirement {
  import opened Wrappers
  import opened DeploymentContracts
  import opened Ledger
  import opened LedgerInvariant
  import opened Protocol
  import opened ProtocolInvariant
  import opened ProtocolSteps
  import opened ProtocolCoreSteps
  import opened DeploymentRuns
  import opened DeploymentSafety
  import opened DeploymentReplay
  import opened DeploymentRecovery
  import opened RaisedCommits
  import opened RaisedInvariant
  import opened RaisedDeadEnds
  import opened RaisedTold
  import opened RaisedModes
  import opened RaisedContainer

  /** A retirement leaves the try block, is committed, and write number `k` raises. */
  function Interrupted(archive: Option<Digest>, h: Host, k: nat): seq<Event> {
    [Does(ByRoot(DoFinishRetire(archive, h)))] + Plainly(seq(k, i => ByRoot(DoCommitWrite))) + [WriteRaises]
  }

  /** A retirement about to be committed, in any run without the write that spoils it. */
  predicate Retiring(x: Watched, archive: Option<Digest>, h: Host) {
    Sound(x) && Faithful(x) && FinishRetire(x.sys, archive, h) != x.sys
  }

  /** What the retirement's commit starts from. */
  predicate Ready(s: System, h: Host) {
    && s.run.Executing? && s.run.phase.Removed? && s.run.operation.kind.Retire?
    && var o := s.run.operation;
    && SwitchingNow(s.core, o.id) && s.core.operations[o.id].operation == o
    && o.id !in s.root.journal && o.id !in s.spool.receipts && o.id in s.spool.requests && o.id in s.root.markers
    && RunningOf(s.run.before).Some? && s.run.before == s.root.current && s.root.current == Latest(s.core.history)
    && RootAuthority(s, o, h).Ok? && s.root.container.None?
    && o.selection.generation == GenerationOf(s.root.current)
    && Sha256(s.run.registration) == o.selection.registration
    && s.core.blocked.None? && s.core.active == Some(o.id) && Managed(s.core.registration)
  }

  lemma RetiringIsReady(x: Watched, archive: Option<Digest>, h: Host)
    requires Retiring(x, archive, h)
    ensures Ready(x.sys, h)
  {
    hide HistoryShape, HistoryBacked, DeploysRehearsed, RegistrationFollows, InFlightCurrent, RecordsOk, SettledOk,
         MarkersOk, RequestsOk, AdmittedOk, ConsumedOk, CurrentOk, TruthOk, ContainerOk, TouchedOk, RecordsSound,
         RunSound, TryingSound, Retrying, ReadAuthority;
    var s := x.sys;
    var o := s.run.operation;
    assert ExecutingOk(s.core, s.spool, AsTold(s).root, s.run);
    AuthorityForm(s.core, o.id, h.facts);
    RetirementNeedsRunning(s.core, o.id, h.facts);
    AuthorityIsManaged(s.core, o.id, h.facts);
    NoReceiptWithoutJournal(s, o.id);
  }

  lemma AuthorityIsManaged(c: Core, id: Id, f: Facts)
    requires ReadAuthority(c, id, f).Ok?
    ensures Managed(c.registration)
  {
  }

  function TheReceipt(s: System, archive: Option<Digest>): Receipt
    requires s.run.Executing? && s.run.before.Some?
  {
    RetireReceipt(s.run.operation, s.run.registration, s.run.before.value, archive)
  }

  /** After `k` writes of the retirement's commit, one of them the record. */
  function Written(s: System, r: Receipt, k: nat): System {
    Writes(s.(run := Committing(r, 0)), k)
  }

  // ---------------------------------------------------------------- the handler at work

  /** The handler after the journal receipt, and possibly the record, were written. */
  function Answered(s: System, archive: Option<Digest>, k: nat): System
    requires s.run.Executing? && s.run.before.Some?
  {
    var r := TheReceipt(s, archive);
    var journalled := CommitJournal(s.root, r);
    s.(root := if k == 2 then CommitCurrent(journalled, r) else journalled, run := s.run.(phase := Falling))
  }

  lemma CommitEvent(x: Watched)
    requires x.trying.Some? && x.sys.run.Committing? && x.sys.run.write <= 2
    requires x.sys.run.receipt.operationId !in x.sys.spool.receipts
    ensures Act(x, Does(ByRoot(DoCommitWrite))) == Watched(CommitWrite(x.sys), x.trying)
    ensures CommitWrite(x.sys).run == Committing(x.sys.run.receipt, x.sys.run.write + 1)
    ensures x.sys.run.write <= 1 ==> CommitWrite(x.sys).spool == x.sys.spool
  {
  }

  lemma {:induction false} CommitEvents(x: Watched, k: nat)
    requires x.trying.Some? && x.sys.run.Committing? && x.sys.run.write + k <= 3
    requires x.sys.run.receipt.operationId !in x.sys.spool.receipts
    ensures History(x, Plainly(seq(k, i => ByRoot(DoCommitWrite)))) == Watched(Writes(x.sys, k), x.trying)
    ensures Writes(x.sys, k).run == Committing(x.sys.run.receipt, x.sys.run.write + k)
    ensures x.sys.run.write + k <= 2 ==> Writes(x.sys, k).spool == x.sys.spool
    decreases k
  {
    hide Act, CommitWrite;
    var steps := seq(k, i => ByRoot(DoCommitWrite));
    if k > 0 {
      CommitEvents(x, k - 1);
      CommitEvent(Watched(Writes(x.sys, k - 1), x.trying));
      assert Plainly(steps)[..k - 1] == Plainly(seq(k - 1, i => ByRoot(DoCommitWrite)));
    }
  }

  lemma OneEvent(x: Watched, e: Event)
    ensures History(x, [e]) == Act(x, e)
  {
    hide Act;
    assert [e][..0] == [];
    assert History(x, []) == x;
  }

  lemma HandlerBegins(x: Watched, archive: Option<Digest>, h: Host, k: nat)
    requires Retiring(x, archive, h) && 1 <= k <= 2
    ensures x.sys.run.Executing? && x.sys.run.before.Some?
    ensures History(x, Interrupted(archive, h, k)) == Watched(Answered(x.sys, archive, k), None)
  {
    hide Sound, Faithful, History, Writes, RootAuthority;
    RetiringIsReady(x, archive, h);
    var r := TheReceipt(x.sys, archive);
    var first, writes, last := [Does(ByRoot(DoFinishRetire(archive, h)))], Plainly(seq(k, i => ByRoot(DoCommitWrite))),
      [WriteRaises];
    var y := Watched(x.sys.(run := Committing(r, 0)), Some(x.sys.run));
    OneEvent(x, first[0]);
    assert Act(x, first[0]) == y;
    CommitEvents(y, k);
    var z := Watched(Writes(y.sys, k), y.trying);
    OneEvent(z, WriteRaises);
    HistoryAppends(x, first, writes);
    HistoryAppends(x, first + writes, last);
    WrittenBeforeRaise(x.sys, archive, h, k);
  }

  lemma WrittenBeforeRaise(s: System, archive: Option<Digest>, h: Host, k: nat)
    requires Ready(s, h) && 1 <= k <= 2
    ensures Answering(Written(s, TheReceipt(s, archive), k), s.run) == Answered(s, archive, k)
  {
    hide RootAuthority;
    var t := s.(run := Committing(TheReceipt(s, archive), 0));
    assert Writes(t, 1) == CommitWrite(t);
    assert Writes(t, 2) == CommitWrite(Writes(t, 1));
  }

  // ---------------------------------------------------------------- running beside its retirement

  /** The fallback restarts what ran before, and the process stops. */
  function FallsBack(h: Host): seq<Step> {
    [ByRoot(DoFallAuthorize(h)), OnHost(DoRestoreRemove), OnHost(DoRestoreLaunch(true)), ByRoot(DoCrash)]
  }

  function Restarted(s: System, archive: Option<Digest>): System
    requires s.run.Executing? && s.run.before.Some? && RunningOf(s.root.current).Some?
  {
    var a := Answered(s, archive, 1);
    var current := s.root.current.value;
    a.(root := a.root.(container := Some(Container(current.operationId, current.imageId, true))),
       touched := s.touched + {s.run.operation.id}, run := Idle)
  }

  lemma ReachesRestarted(s: System, archive: Option<Digest>, h: Host)
    requires Ready(s, h)
    ensures Execution(Answered(s, archive, 1), FallsBack(h)) == Restarted(s, archive)
  {
    hide Execution, RootAuthority, Apply;
    var a := Answered(s, archive, 1);
    FallBackAccepted(s, archive, h);
    var a1 := At(a, Restoring);
    var a2 := SetContainer(a1, None, RestoreRemoved);
    var a3 := RestoreLaunch(a2, true);
    FallingSteps(a, h);
    assert s.touched + {s.run.operation.id} + {s.run.operation.id} == s.touched + {s.run.operation.id};
    FourSteps(a, FallsBack(h), a1, a2, a3, Crash(a3));
  }

  lemma FallBackAccepted(s: System, archive: Option<Digest>, h: Host)
    requires Ready(s, h)
    ensures RootAuthority(Answered(s, archive, 1), s.run.operation, h).Ok?
  {
    hide ReadAuthority;
  }

  lemma FallingSteps(a: System, h: Host)
    requires a.run.Executing? && a.run.phase.Falling? && RunningOf(a.run.before).Some? && a.run.before == a.root.current
    requires RootAuthority(a, a.run.operation, h).Ok?
    ensures var a1 := At(a, Restoring);
            var a2 := SetContainer(a1, None, RestoreRemoved);
            var a3 := RestoreLaunch(a2, true);
            && Apply(a, ByRoot(DoFallAuthorize(h))) == a1
            && Apply(a1, OnHost(DoRestoreRemove)) == a2
            && Apply(a2, OnHost(DoRestoreLaunch(true))) == a3
            && Apply(a3, ByRoot(DoCrash)) == Crash(a3)
  {
    hide RootAuthority;
  }

  /** The next run of the installer finds the journal receipt and finishes the commit. */
  function Replays(id: Id, h: Host): seq<Step> {
    [ByRoot(DoBegin(id, h)), ByRoot(DoCommitWrite), ByRoot(DoCommitWrite), ByRoot(DoCommitWrite)]
  }

  function Replayed(a: System, r: Receipt): System {
    var root := CommitUnmark(CommitCurrent(a.root, r), r.operationId);
    a.(root := root, spool := a.spool.(receipts := a.spool.receipts[r.operationId := r]), run := Idle)
  }

  lemma ReachesReplayed(a: System, id: Id, h: Host)
    requires a.run.Idle? && id in a.root.journal && id !in a.spool.receipts && id in a.spool.requests
    requires a.root.journal[id].operationId == id
    ensures Execution(a, Replays(id, h)) == Replayed(a, a.root.journal[id])
  {
    hide Execution, Apply;
    var r := a.root.journal[id];
    var b1 := a.(run := Committing(r, 1));
    var b2, b3 := CommitWrite(b1), CommitWrite(CommitWrite(b1));
    ReplayingSteps(a, id, h);
    FourSteps(a, Replays(id, h), b1, b2, b3, CommitWrite(b3));
  }

  lemma ReplayingSteps(a: System, id: Id, h: Host)
    requires a.run.Idle? && id in a.root.journal && id !in a.spool.receipts && id in a.spool.requests
    requires a.root.journal[id].operationId == id
    ensures var b1 := a.(run := Committing(a.root.journal[id], 1));
            && Apply(a, ByRoot(DoBegin(id, h))) == b1
            && CommitWrite(CommitWrite(CommitWrite(b1))) == Replayed(a, a.root.journal[id])
    ensures forall t: System :: Apply(t, ByRoot(DoCommitWrite)) == CommitWrite(t)
  {
    hide RootAuthority;
  }

  lemma RetirementConsumed(c: Core, o: Operation, r: Receipt, f: Facts)
    requires CoreInv(c) && c.active == Some(o.id) && SwitchingNow(c, o.id) && c.operations[o.id].operation == o
    requires o.kind.Retire? && r.operationId == o.id && r.selection == o.selection && r.outcome.Succeeded?
    requires r.rehearsal.None? && r.installed.None? && r.retired.Some? && RetiresFor(r.retired.value, o)
    requires Latest(c.history) == Some(r.retired.value.lastInstalled) && r.retired.value.lastInstalled.Installed?
    requires o.selection.generation == GenerationOf(Latest(c.history)) && c.blocked.None?
    ensures Consume(c, o.id, r, f).Ok?
    ensures var c' := Consume(c, o.id, r, f).value;
            c'.history == c.history + [r.retired.value] && c'.active.None? && c'.blocked.None?
  {
    hide DeploysRehearsed, RegistrationFollows, InsertAllowed;
    LatestGeneration(c);
    InsertAllowedNext(c, r.retired.value);
  }

  function BesideRetirement(id: Id, h: Host): seq<Step> {
    FallsBack(h) + Replays(id, h) + [ByCore(DoConsume(id, h.facts))]
  }

  /** Nothing is pending, the accepted generation is a retirement, and the application runs. */
  predicate RunsRetired(s: System) {
    && Settled(s.core) && IsRetired(s.core.history) && s.root.current == Latest(s.core.history)
    && s.root.container.Some? && s.root.container.value.running
  }

  lemma EndsBesideRetirement(s: System, archive: Option<Digest>, h: Host)
    requires CoreInv(s.core) && Ready(s, h)
    ensures RunsRetired(Execution(Answered(s, archive, 1), BesideRetirement(s.run.operation.id, h)))
  {
    hide Execution, RootAuthority, CoreInv, Apply, Consume;
    var o, r := s.run.operation, TheReceipt(s, archive);
    ReachesRestarted(s, archive, h);
    var a := Restarted(s, archive);
    ReachesReplayed(a, o.id, h);
    var b := Replayed(a, r);
    ExecutionAppendsTo(Answered(s, archive, 1), FallsBack(h), Replays(o.id, h), a);
    var last := [ByCore(DoConsume(o.id, h.facts))];
    OneStep(b, last[0]);
    RetirementConsumed(s.core, o, r, h.facts);
    ConsumeStepOf(b, o.id, h.facts);
    ExecutionAppendsTo(Answered(s, archive, 1), FallsBack(h) + Replays(o.id, h), last, b);
  }

  lemma ConsumeStepOf(b: System, id: Id, f: Facts)
    requires id in b.spool.receipts && Consume(b.core, id, b.spool.receipts[id], f).Ok?
    ensures Apply(b, ByCore(DoConsume(id, f))) == b.(core := Consume(b.core, id, b.spool.receipts[id], f).value)
  {
    hide Consume;
  }

  // ---------------------------------------------------------------- blocked for good

  /** The fallback fails, or is refused: the answer is blocked, and core hears it. */
  function Gives(id: Id, f: Facts): seq<Step> {
    [ByRoot(DoRaise)] + seq(4, i => ByRoot(DoCommitWrite)) + [ByCore(DoConsume(id, f))]
  }

  function GivenUp(a: System, q: Receipt): System {
    a.(root := CommitUnmark(a.root, q.operationId),
       spool := a.spool.(receipts := a.spool.receipts[q.operationId := q]), run := Idle)
  }

  lemma GivesBlocked(a: System, f: Facts)
    requires a.run.Executing? && a.run.phase.Falling? && a.run.operation.kind.Retire?
    requires a.run.operation.id in a.root.journal && a.run.operation.id !in a.spool.receipts
    ensures var q := PlainReceipt(a.run.operation, Blocked);
            Execution(a, [ByRoot(DoRaise)] + seq(4, i => ByRoot(DoCommitWrite))) == GivenUp(a, q)
  {
    hide Execution, Apply;
    var q := PlainReceipt(a.run.operation, Blocked);
    var b := a.(run := Committing(q, 0));
    var b1 := b.(run := Committing(q, 1));
    var b2 := b.(run := Committing(q, 2));
    var b3 := b.(spool := b.spool.(receipts := b.spool.receipts[q.operationId := q]), run := Committing(q, 3));
    BlockedWrites(a, b, b1, b2, b3);
    OneStep(a, ByRoot(DoRaise));
    FourSteps(b, seq(4, i => ByRoot(DoCommitWrite)), b1, b2, b3, GivenUp(a, q));
    ExecutionAppendsTo(a, [ByRoot(DoRaise)], seq(4, i => ByRoot(DoCommitWrite)), b);
  }

  lemma BlockedWrites(a: System, b: System, b1: System, b2: System, b3: System)
    requires a.run.Executing? && a.run.phase.Falling? && a.run.operation.kind.Retire?
    requires a.run.operation.id in a.root.journal && a.run.operation.id !in a.spool.receipts
    requires var q := PlainReceipt(a.run.operation, Blocked);
             && b == a.(run := Committing(q, 0))
             && b1 == b.(run := Committing(q, 1)) && b2 == b.(run := Committing(q, 2))
             && b3 == b.(spool := b.spool.(receipts := b.spool.receipts[q.operationId := q]), run := Committing(q, 3))
    ensures Apply(a, ByRoot(DoRaise)) == b && Apply(b, ByRoot(DoCommitWrite)) == b1
    ensures Apply(b1, ByRoot(DoCommitWrite)) == b2 && Apply(b2, ByRoot(DoCommitWrite)) == b3
    ensures Apply(b3, ByRoot(DoCommitWrite)) == GivenUp(a, PlainReceipt(a.run.operation, Blocked))
  {
  }

  lemma EndsBlocked(s: System, archive: Option<Digest>, h: Host, k: nat, f: Facts)
    requires Ready(s, h) && 1 <= k <= 2
    ensures var o := s.run.operation; var t := Execution(Answered(s, archive, k), Gives(o.id, f));
            && t.core.blocked == Some(o.id) && t.core.active.None? && t.core.registration == s.core.registration
            && o.id in t.root.journal && t.root.journal[o.id].outcome.Succeeded?
            && o.id in t.spool.receipts && t.spool.receipts[o.id].outcome.Blocked?
            && t.core.history == s.core.history && t.root.current == Answered(s, archive, k).root.current
  {
    hide Execution, RootAuthority, Consume, Apply;
    var o, a := s.run.operation, Answered(s, archive, k);
    var q := PlainReceipt(o, Blocked);
    GivesBlocked(a, f);
    var last := [ByCore(DoConsume(o.id, f))];
    OneStep(GivenUp(a, q), last[0]);
    BlockedReceiptBlocks(s.core, o, f);
    ConsumeStepOf(GivenUp(a, q), o.id, f);
    ExecutionAppendsTo(a, [ByRoot(DoRaise)] + seq(4, i => ByRoot(DoCommitWrite)), last, GivenUp(a, q));
    BlockedKeepsHistory(s.core, o, f);
  }

  lemma BlockedKeepsHistory(c: Core, o: Operation, f: Facts)
    requires Consume(c, o.id, PlainReceipt(o, Blocked), f).Ok?
    ensures Consume(c, o.id, PlainReceipt(o, Blocked), f).value.history == c.history
  {
  }

  // ---------------------------------------------------------------- every raising write

  lemma NotParted(x: Watched, archive: Option<Digest>, h: Host)
    requires Mode(x) && FinishRetire(x.sys, archive, h) != x.sys
    ensures Retiring(x, archive, h)
  {
    hide CoreInv, RecordsSound, TryingSound, RootAuthority, Inv, Differ, Retrying, Unsuccessful, Answers;
  }

  lemma ReachesRetiring(registration: Registration, events: seq<Event>, archive: Option<Digest>, h: Host)
    requires AllSpared(Begun(registration), events)
    requires FinishRetire(History(Begun(registration), events).sys, archive, h)
          != History(Begun(registration), events).sys
    ensures Retiring(History(Begun(registration), events), archive, h)
  {
    hide Mode, History;
    BegunMode(registration);
    HistoryMode(Begun(registration), events);
    NotParted(History(Begun(registration), events), archive, h);
  }

  lemma PlainlySpared(x: Watched, steps: seq<Step>)
    ensures AllSpared(x, Plainly(steps))
  {
    hide History;
  }

  /** Any other raising write than the second leaves the system as `GateSurvivesRaises` has it. */
  lemma InterruptedKeepsMode(x: Watched, archive: Option<Digest>, h: Host, k: nat)
    requires Mode(x) && Retiring(x, archive, h) && k <= 3 && k != 1
    ensures Mode(History(x, Interrupted(archive, h, k)))
  {
    hide Mode, Sound, Faithful, RootAuthority, History, AllSpared, Writes, Act;
    RetiringIsReady(x, archive, h);
    var first, writes := [Does(ByRoot(DoFinishRetire(archive, h)))], Plainly(seq(k, i => ByRoot(DoCommitWrite)));
    var y := Watched(x.sys.(run := Committing(TheReceipt(x.sys, archive), 0)), Some(x.sys.run));
    Finishing(x, archive, h);
    OneEvent(x, first[0]);
    ActKeepsMode(x, first[0]);
    CommitEvents(y, k);
    PlainlySpared(y, seq(k, i => ByRoot(DoCommitWrite)));
    HistoryMode(y, writes);
    var z := History(y, writes);
    ActKeepsMode(z, WriteRaises);
    OneEvent(z, WriteRaises);
    HistoryAppends(x, first, writes);
    HistoryAppends(x, first + writes, [WriteRaises]);
  }

  lemma Finishing(x: Watched, archive: Option<Digest>, h: Host)
    requires Ready(x.sys, h)
    ensures Act(x, Does(ByRoot(DoFinishRetire(archive, h))))
         == Watched(x.sys.(run := Committing(TheReceipt(x.sys, archive), 0)), Some(x.sys.run))
  {
    hide RootAuthority;
  }

  /** What `GateOpensOnlyOnAccepted` says of a state. */
  predicate GateHonest(s: System) {
    Settled(s.core) ==> s.root.current == Latest(s.core.history) && AtCurrent(s.root)
  }

  /** A retirement is committed and its write number `k` raises: whatever follows, the gate's
      promise is kept, unless the write was the one of the current record. Then the fallback
      can restart the application, the process stop, and the next run replay the journal:
      the accepted generation is a retirement while the application runs. */
  lemma ContainerClauseExactly(
      registration: Registration, events: seq<Event>, archive: Option<Digest>, h: Host, k: nat)
    requires AllSpared(Begun(registration), events) && k <= 3
    requires FinishRetire(History(Begun(registration), events).sys, archive, h)
          != History(Begun(registration), events).sys
    ensures (forall more ::
               GateHonest(History(Begun(registration), events + Interrupted(archive, h, k) + Plainly(more)).sys))
            <==> k != 1
    ensures k == 1 ==> exists more ::
              RunsRetired(History(Begun(registration), events + Interrupted(archive, h, k) + Plainly(more)).sys)
  {
    hide Sound, Faithful, Mode, AllSpared, History, Interrupted, RootAuthority, RunsRetired;
    var x := History(Begun(registration), events);
    ReachesRetiring(registration, events, archive, h);
    var t := Begun(registration);
    HistoryAppends(t, events, Interrupted(archive, h, k));
    if k == 1 {
      var more := ClauseBroken(x, archive, h);
      HistoryAppends(t, events + Interrupted(archive, h, k), Plainly(more));
      var z := History(t, events + Interrupted(archive, h, k) + Plainly(more)).sys;
      assert RunsRetired(z);
      RetiredIsDishonest(z);
    } else {
      BegunMode(registration);
      HistoryMode(t, events);
      InterruptedKeepsMode(x, archive, h, k);
      forall more
        ensures GateHonest(History(t, events + Interrupted(archive, h, k) + Plainly(more)).sys)
      {
        var y := History(x, Interrupted(archive, h, k));
        HistoryAppends(t, events + Interrupted(archive, h, k), Plainly(more));
        PlainlySpared(y, more);
        HistoryMode(y, Plainly(more));
        if Settled(History(y, Plainly(more)).sys.core) {
          ModeAgrees(History(y, Plainly(more)));
        }
      }
    }
  }

  lemma RetiredIsDishonest(s: System)
    requires RunsRetired(s)
    ensures !GateHonest(s)
  {
  }

  lemma ClauseBroken(x: Watched, archive: Option<Digest>, h: Host) returns (more: seq<Step>)
    requires Retiring(x, archive, h)
    ensures RunsRetired(History(History(x, Interrupted(archive, h, 1)), Plainly(more)).sys)
  {
    hide Faithful, History, Interrupted, RootAuthority, RunsRetired, RecordsSound, RunSound, TryingSound, CoreInv;
    RetiringIsReady(x, archive, h);
    HandlerBegins(x, archive, h, 1);
    more := BesideRetirement(x.sys.run.operation.id, h);
    EndsBesideRetirement(x.sys, archive, h);
    PlainHistory(Watched(Answered(x.sys, archive, 1), None), more);
  }

  // ---------------------------------------------------------------- no way out

  /** Blocked under a managed registration, with a journal or a record that lets no recovery in. */
  predicate DeadBlocked(s: System) {
    && s.core.blocked.Some? && s.core.active.None? && Managed(s.core.registration)
    && (!BlockedInJournal(s) || Differing(s))
  }

  /** Such a state is what `WayOutExactly` rules a way out of: it stays blocked in every run. */
  lemma DeadBlockedForEver(registration: Registration, events: seq<Event>, more: seq<Event>)
    requires DeadBlocked(History(Begun(registration), events).sys)
    ensures History(Begun(registration), events + more).sys.core.blocked
         == History(Begun(registration), events).sys.core.blocked
  {
    hide Sound, History, BlockedInJournal;
    BegunSound(registration);
    HistorySound(Begun(registration), events);
    HistoryAppends(Begun(registration), events, more);
    NoWayOut(History(Begun(registration), events), more);
  }

  /** The operation whose success the handler is about to contradict. */
  function Handled(run: Run): Option<Id> {
    match run
    case Executing(o, _, _, _, _) => Some(o.id)
    case Committing(q, _) => Some(q.operationId)
    case _ => None
  }

  /** The handler's answer, if there is one, comes after the spool has its receipt. */
  predicate TooLate(x: Watched) {
    && Sound(x)
    && (Faithful(x) || (Handler(x) && Handled(x.sys.run).Some? && Handled(x.sys.run).value in x.sys.spool.receipts))
  }

  lemma LateRoot(x: Watched, step: RootStep)
    requires TooLate(x) && Handler(x) && Handled(x.sys.run).value in x.sys.spool.receipts
    ensures TooLate(Act(x, Does(ByRoot(step))))
  {
    hide Sound, Inv, Differ, Answers, ApplyRoot, RootAuthority, CommitWrite, Faithful, Handler;
    ActKeepsSound(x, Does(ByRoot(step)));
    HandlerParts(x);
    var s := x.sys;
    if s.run.Executing? {
      HandlerFalls(x, step);
      LateFalls(x, step);
      if Handler(Act(x, Does(ByRoot(step)))) {
        HandlerParts(Act(x, Does(ByRoot(step))));
      }
    } else {
      NothingAtHand(x, ByRoot(step));
      CommitIsApply(s);
      if !step.DoCommitWrite? {
        CommittingDecides(s, step);
        MovedHandlerStays(x, 0);
        assert x.(sys := Crash(s)) == Watched(Crash(s), None);
      } else if s.run.write <= 1 {
        AnswerWritesNothing(s);
        MovedHandlerStays(x, s.run.write + 1);
      } else if s.run.write == 2 {
        AnswerFindsReceipt(s);
        MovedHandlerStays(x, 3);
        assert x.(sys := Crash(s)) == Watched(Crash(s), None);
      } else {
        AnswerUnmarks(x);
      }
    }
  }

  lemma LateFalls(x: Watched, step: RootStep)
    requires Sound(x) && Handler(x) && x.sys.run.Executing?
    ensures var s' := ApplyRoot(x.sys, step);
            s'.spool.receipts == x.sys.spool.receipts && (s'.run.Idle? || Handled(s'.run) == Handled(x.sys.run))
  {
    hide Sound, Inv, Differ, RootAuthority, ApplyRoot, FallingBack;
    HandlerOperation(x);
    if step.DoFallAuthorize? {
      HandlerRefused(x.sys, step.host);
    }
    FallingMoves(x.sys, step);
  }

  lemma LateStays(x: Watched, step: Step)
    requires TooLate(x)
    ensures TooLate(Act(x, Does(step)))
  {
    hide Sound, Faithful, Handler, ApplyCore, ApplyHost, ApplyRoot, RootAuthority;
    if Faithful(x) {
      ActKeepsSound(x, Does(step));
      FaithfulStep(x, step);
    } else {
      match step
      case ByRoot(r) => LateRoot(x, r);
      case ByCore(c) =>
        ActKeepsSound(x, Does(step));
        HandlerCore(x, c);
        CoreStepLeavesRoot(x.sys, c);
      case OnHost(h) =>
        ActKeepsSound(x, Does(step));
        HandlerParts(x);
        HandlerEffect(x, h);
        HandlerMovesOutside(x.sys, h);
    }
  }

  lemma {:induction false} LateHistory(x: Watched, steps: seq<Step>)
    requires TooLate(x)
    ensures TooLate(History(x, Plainly(steps)))
    decreases |steps|
  {
    hide TooLate, Act;
    if steps != [] {
      var k := |steps| - 1;
      assert Plainly(steps)[..k] == Plainly(steps[..k]);
      LateHistory(x, steps[..k]);
      LateStays(History(x, Plainly(steps[..k])), steps[k]);
    }
  }

  lemma LateIsRecoverable(x: Watched)
    requires TooLate(x) && x.sys.core.blocked.Some? && x.sys.core.active.None?
    ensures !DeadBlocked(x.sys)
  {
    hide Inv, RecordsSound, RunSound, TryingSound, Retrying, Handling, HistoryShape, HistoryBacked, DeploysRehearsed,
         RegistrationFollows, InFlightCurrent;
    var s := x.sys;
    if Faithful(x) {
      BlockedAgrees(AsTold(s));
    } else {
      BlockedAgrees(Stopped(AsTold(s)));
    }
  }

  lemma LateBegins(x: Watched, archive: Option<Digest>, h: Host, k: nat)
    requires Mode(x) && Retiring(x, archive, h) && (k == 0 || k == 3)
    ensures TooLate(History(x, Interrupted(archive, h, k)))
  {
    hide Mode, Sound, Faithful, RootAuthority, History, AllSpared, Writes, Act;
    RetiringIsReady(x, archive, h);
    var first, writes := [Does(ByRoot(DoFinishRetire(archive, h)))], Plainly(seq(k, i => ByRoot(DoCommitWrite)));
    var y := Watched(x.sys.(run := Committing(TheReceipt(x.sys, archive), 0)), Some(x.sys.run));
    Finishing(x, archive, h);
    OneEvent(x, first[0]);
    ActKeepsSound(x, first[0]);
    FaithfulStep(x, ByRoot(DoFinishRetire(archive, h)));
    LateWrites(y, k);
    var z := History(y, writes);
    RaisedLate(z, k);
    OneEvent(z, WriteRaises);
    HistoryAppends(x, first, writes);
    HistoryAppends(x, first + writes, [WriteRaises]);
  }

  lemma LateWrites(y: Watched, k: nat)
    requires Sound(y) && Faithful(y) && y.trying.Some? && y.sys.run.Committing? && y.sys.run.write == 0 && k <= 3
    requires y.sys.run.receipt.operationId !in y.sys.spool.receipts
    ensures var z := History(y, Plainly(seq(k, i => ByRoot(DoCommitWrite))));
            Sound(z) && Faithful(z) && z.trying == y.trying && z.sys.run == Committing(y.sys.run.receipt, k)
    decreases k
  {
    hide Sound, Faithful, Act, Writes;
    CommitEvents(y, k);
    var steps := seq(k, i => ByRoot(DoCommitWrite));
    if k > 0 {
      LateWrites(y, k - 1);
      assert Plainly(steps)[..k - 1] == Plainly(seq(k - 1, i => ByRoot(DoCommitWrite)));
      var z := History(y, Plainly(steps)[..k - 1]);
      ActKeepsSound(z, Does(ByRoot(DoCommitWrite)));
      FaithfulStep(z, ByRoot(DoCommitWrite));
    }
  }

  lemma RaisedLate(z: Watched, k: nat)
    requires Sound(z) && Faithful(z) && z.trying.Some? && z.sys.run.Committing? && z.sys.run.write == k
    requires k == 0 || k == 3
    ensures TooLate(Act(z, WriteRaises))
  {
    hide Faithful, Handler, CoreInv, RecordsSound;
    ActKeepsSound(z, WriteRaises);
    if k == 0 {
      RaisedBeforeJournal(z);
    } else if z.trying.value.operation.kind.Recover? {
      RecoveryAnswered(z);
    } else {
      RetirementAnswered(z);
    }
  }

  /** A retirement is committed and its write number `k` raises: the application can end
      blocked under a managed registration and without any way out exactly for the two
      writes after the journal receipt and up to the spool receipt. */
  lemma RetirementGetsStuckExactly(
      registration: Registration, events: seq<Event>, archive: Option<Digest>, h: Host, k: nat)
    requires AllSpared(Begun(registration), events) && k <= 3
    requires FinishRetire(History(Begun(registration), events).sys, archive, h)
          != History(Begun(registration), events).sys
    ensures (exists more ::
               DeadBlocked(History(Begun(registration), events + Interrupted(archive, h, k) + Plainly(more)).sys))
            <==> k == 1 || k == 2
  {
    hide Sound, Faithful, Mode, AllSpared, History, Interrupted, RootAuthority, DeadBlocked, TooLate;
    var x, t := History(Begun(registration), events), Begun(registration);
    ReachesRetiring(registration, events, archive, h);
    HistoryAppends(t, events, Interrupted(archive, h, k));
    if k == 1 || k == 2 {
      var more := GetsStuck(x, archive, h, k);
      HistoryAppends(t, events + Interrupted(archive, h, k), Plainly(more));
      assert DeadBlocked(History(t, events + Interrupted(archive, h, k) + Plainly(more)).sys);
    } else {
      BegunMode(registration);
      HistoryMode(t, events);
      LateBegins(x, archive, h, k);
      forall more
        ensures !DeadBlocked(History(t, events + Interrupted(archive, h, k) + Plainly(more)).sys)
      {
        var y := History(x, Interrupted(archive, h, k));
        HistoryAppends(t, events + Interrupted(archive, h, k), Plainly(more));
        LateHistory(y, more);
        LateNotDead(History(y, Plainly(more)));
      }
    }
  }

  lemma LateNotDead(x: Watched)
    requires TooLate(x)
    ensures !DeadBlocked(x.sys)
  {
    hide TooLate;
    if x.sys.core.blocked.Some? && x.sys.core.active.None? {
      LateIsRecoverable(x);
    }
  }

  lemma GetsStuck(x: Watched, archive: Option<Digest>, h: Host, k: nat) returns (more: seq<Step>)
    requires Retiring(x, archive, h) && 1 <= k <= 2
    ensures DeadBlocked(History(History(x, Interrupted(archive, h, k)), Plainly(more)).sys)
    ensures x.sys.run.Executing?
    ensures var t, id := History(History(x, Interrupted(archive, h, k)), Plainly(more)).sys, x.sys.run.operation.id;
            && id in t.root.journal && t.root.journal[id].outcome.Succeeded?
            && id in t.spool.receipts && t.spool.receipts[id].outcome.Blocked?
  {
    hide Faithful, History, Interrupted, RootAuthority, RecordsSound, RunSound, TryingSound, CoreInv, Execution;
    RetiringIsReady(x, archive, h);
    HandlerBegins(x, archive, h, k);
    more := Gives(x.sys.run.operation.id, h.facts);
    EndsBlocked(x.sys, archive, h, k, h.facts);
    PlainHistory(Watched(Answered(x.sys, archive, k), None), more);
  }
}
