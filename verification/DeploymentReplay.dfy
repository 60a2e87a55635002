/** `commit` survives being stopped anywhere: replays end where one uninterrupted commit
    does, late replays change nothing, and the marker a stop can leave has no reader. */
module DeploymentReplay {
  import opened Wrappers
  import opened DeploymentContracts
  import opened Ledger
  import opened LedgerInvariant
  import opened Protocol
  import opened ProtocolInvariant
  import opened ProtocolSteps
  import opened ProtocolCoreSteps
  import opened DeploymentRuns

  /** The state after `n` writes of the running commit. */
  function Writes(s: System, n: nat): System {
    if n == 0 then s else CommitWrite(Writes(s, n - 1))
  }

  /** The host and the spool without one operation's journal marker. */
  function Unmarked(s: System, id: Id): System {
    s.(root := s.root.(markers := s.root.markers - {id}))
  }

  /** What a commit that no one interrupts leaves behind. */
  function Committed(s: System, r: Receipt): System {
    var journalled := CommitCurrent(CommitJournal(s.root, r), r);
    s.(root := CommitUnmark(journalled, r.operationId),
       spool := s.spool.(receipts := s.spool.receipts[r.operationId := r]), run := Idle)
  }

  lemma UninterruptedCommit(s: System, r: Receipt)
    requires s.run == Committing(r, 0) && r.operationId !in s.root.journal && r.operationId !in s.spool.receipts
    ensures Writes(s, 4) == Committed(s, r)
  {
    assert Writes(s, 1) == CommitWrite(s);
    assert Writes(s, 2) == CommitWrite(Writes(s, 1));
    assert Writes(s, 3) == CommitWrite(Writes(s, 2));
  }

  /** Where a commit of `r` begun in `s` can have been stopped: after its journal receipt,
      and possibly after its current record, its spool receipt and its marker removal. */
  predicate StoppedAt(s: System, r: Receipt, t: System, current: bool, published: bool, unmarked: bool) {
    var journalled := CommitJournal(s.root, r);
    var root := if current then CommitCurrent(journalled, r) else journalled;
    && t == s.(root := if unmarked then CommitUnmark(root, r.operationId) else root,
               spool := if published then s.spool.(receipts := s.spool.receipts[r.operationId := r]) else s.spool,
               run := Idle)
    && (published ==> current) && (unmarked ==> published)
  }

  predicate Fresh(s: System, r: Receipt) {
    && r.operationId !in s.root.journal && r.operationId !in s.spool.receipts
    && r.operationId in s.spool.requests
  }

  /** One more attempt: the installer picks the operation up and is stopped after `n` writes. */
  function Attempt(t: System, id: Id, h: Host, n: nat): System {
    Crash(Writes(Begin(t, id, h), n))
  }

  lemma CurrentOnce(r: Root, receipt: Receipt)
    ensures CommitCurrent(CommitCurrent(r, receipt), receipt) == CommitCurrent(r, receipt)
  {
  }

  lemma AttemptContinues(s: System, r: Receipt, t: System, current: bool, published: bool, unmarked: bool, h: Host, n: nat)
    requires Fresh(s, r) && StoppedAt(s, r, t, current, published, unmarked) && n <= 3
    ensures var t' := Attempt(t, r.operationId, h, n);
            if published then t' == t
            else StoppedAt(s, r, t', current || n >= 1, n >= 2, n >= 3)
  {
    hide RootAuthority;
    var b := Begin(t, r.operationId, h);
    if !published {
      assert b == t.(run := Committing(r, 1));
      assert Writes(b, 1) == CommitWrite(b);
      assert Writes(b, 2) == CommitWrite(Writes(b, 1));
      assert Writes(b, 3) == CommitWrite(Writes(b, 2));
      CurrentOnce(CommitJournal(s.root, r), r);
    } else {
      assert b == t;
      IdleWrites(t, n);
    }
  }

  lemma {:induction false} IdleWrites(t: System, n: nat)
    requires t.run.Idle?
    ensures Writes(t, n) == t
  {
    if n > 0 {
      IdleWrites(t, n - 1);
    }
  }

  function Attempts(t: System, id: Id, hosts: seq<Host>, writes: seq<nat>): System
    requires |hosts| == |writes|
  {
    if writes == [] then t
    else
      var k := |writes| - 1;
      Attempt(Attempts(t, id, hosts[..k], writes[..k]), id, hosts[k], writes[k])
  }

  lemma {:induction false} AttemptsStayOnCourse(s: System, r: Receipt, t: System, hosts: seq<Host>, writes: seq<nat>)
    requires Fresh(s, r) && StoppedAt(s, r, t, false, false, false)
    requires |hosts| == |writes| && forall i | 0 <= i < |writes| :: writes[i] <= 3
    ensures exists c, p, u :: StoppedAt(s, r, Attempts(t, r.operationId, hosts, writes), c, p, u)
    decreases |writes|
  {
    hide StoppedAt, Attempt;
    if writes == [] {
      var nothing := false;
      assert StoppedAt(s, r, Attempts(t, r.operationId, hosts, writes), nothing, nothing, nothing);
    } else {
      var k := |writes| - 1;
      AttemptsStayOnCourse(s, r, t, hosts[..k], writes[..k]);
      var before := Attempts(t, r.operationId, hosts[..k], writes[..k]);
      var c, p, u :| StoppedAt(s, r, before, c, p, u);
      AttemptContinues(s, r, before, c, p, u, hosts[k], writes[k]);
      var c', p', u' := if p then c else c || writes[k] >= 1, p || writes[k] >= 2, if p then u else writes[k] >= 3;
      assert StoppedAt(s, r, Attempts(t, r.operationId, hosts, writes), c', p', u');
    }
  }

  /** However often a commit is stopped and picked up again, the attempt that gets through
      leaves what one uninterrupted commit leaves, up to a journal marker of the operation. */
  lemma InterruptedCommitsConverge(
      registration: Registration, steps: seq<Step>, hosts: seq<Host>, writes: seq<nat>, h: Host)
    requires var s := Execution(Start(registration), steps); s.run.Committing? && s.run.write == 0
    requires |hosts| == |writes| && forall i | 0 <= i < |writes| :: writes[i] <= 3
    ensures var s := Execution(Start(registration), steps); var id := s.run.receipt.operationId;
            var stopped := Crash(CommitWrite(s));
            var final := Attempt(Attempts(stopped, id, hosts, writes), id, h, 3);
            Unmarked(final, id) == Writes(s, 4)
  {
    hide Apply, Attempt, Attempts, Writes, Inv;
    var s := Execution(Start(registration), steps);
    ReachableInv(registration, steps);
    CommitIsFresh(s);
    var r := s.run.receipt;
    UninterruptedCommit(s, r);
    var stopped := Crash(CommitWrite(s));
    assert StoppedAt(s, r, stopped, false, false, false);
    AttemptsStayOnCourse(s, r, stopped, hosts, writes);
    var last := Attempts(stopped, r.operationId, hosts, writes);
    var c, p, u :| StoppedAt(s, r, last, c, p, u);
    AttemptContinues(s, r, last, c, p, u, h, 3);
    FinishedIsCommitted(s, r, Attempt(last, r.operationId, h, 3));
  }

  lemma CommitIsFresh(s: System)
    requires Inv(s) && s.run.Committing? && s.run.write == 0
    ensures Fresh(s, s.run.receipt)
  {
    hide CoreInv, RecordsOk, SettledOk, MarkersOk, RequestsOk, AdmittedOk, ConsumedOk, CurrentOk, TruthOk,
         ContainerOk, TouchedOk;
  }

  lemma FinishedIsCommitted(s: System, r: Receipt, t: System)
    requires exists u: bool :: StoppedAt(s, r, t, true, true, u)
    ensures Unmarked(t, r.operationId) == Committed(s, r)
  {
    var u: bool :| StoppedAt(s, r, t, true, true, u);
    var id := r.operationId;
    assert (s.root.markers - {id}) - {id} == s.root.markers - {id};
  }

  // ---------------------------------------------------------------- whatever comes in between

  predicate Holds(records: map<Id, Receipt>, id: Id, r: Receipt) { id in records && records[id] == r }

  lemma HistoryStoodStill(c: Core, c': Core, id: Id)
    requires CoreInv(c) && CoreInv(c') && CoreLater(c, c') && IsActive(c, id) && IsActive(c', id)
    ensures c'.history == c.history
  {
    hide HistoryShape, HistoryBacked, DeploysRehearsed, RegistrationFollows;
    assert c.operations[id].operation.selection.generation == |c.history|;
    assert c'.operations[id].operation.selection.generation == |c'.history|;
  }

  /** While core has not consumed `r`, root's record is what it was or what `r` makes it. */
  lemma JournalledRecord(s: System, t: System)
    requires Inv(s) && s.run.Committing? && s.run.write == 0 && Inv(t) && Later(CommitWrite(s), t)
    requires IsActive(t.core, s.run.receipt.operationId)
    ensures var r := s.run.receipt; var id := r.operationId;
            && id in t.root.journal && t.root.journal[id] == r && id in t.spool.requests
            && CommitCurrent(t.root, r).current == CommitCurrent(CommitJournal(s.root, r), r).current
            && (id in t.spool.receipts ==> t.spool.receipts[id] == r && CommitCurrent(t.root, r) == t.root)
  {
    hide HistoryBacked, DeploysRehearsed, RegistrationFollows, Keyed, InFlightCurrent, MarkersOk, SettledOk, AdmittedOk,
         ConsumedOk, TruthOk, ContainerOk, TouchedOk, ReceiptShape, ReceiptTrue;
    assert CommittingOk(s.core, s.spool, s.root, s.run, s.touched);
    HistoryStoodStill(s.core, t.core, s.run.receipt.operationId);
    LatestGeneration(s.core);
  }

  lemma AttemptFinishes(t: System, id: Id, h: Host)
    requires id in t.root.journal && id in t.spool.requests && t.root.journal[id].operationId == id
    ensures var r := t.root.journal[id]; var final := Attempt(Crash(t), id, h, 3);
            if id in t.spool.receipts then final == Crash(t)
            else final == t.(root := CommitUnmark(CommitCurrent(t.root, r), id),
                             spool := t.spool.(receipts := t.spool.receipts[id := r]), run := Idle)
  {
    hide RootAuthority;
    var b := Begin(Crash(t), id, h);
    assert Writes(b, 1) == CommitWrite(b);
    assert Writes(b, 2) == CommitWrite(Writes(b, 1));
    assert Writes(b, 3) == CommitWrite(Writes(b, 2));
  }

  /** A commit stopped anywhere after its journal receipt, and then any steps at all: core's
      transactions, boots, containers stopping, other stops and replays. As long as core has
      not consumed the receipt, one attempt that gets through leaves the receipts and the
      record of one uninterrupted commit and changes nothing else; once core has consumed
      it, it was that receipt, and what it accepted is in core's history. */
  lemma CommitsConvergeThroughAnything(registration: Registration, steps: seq<Step>, more: seq<Step>, h: Host)
    requires var s := Execution(Start(registration), steps); s.run.Committing? && s.run.write == 0
    ensures var s := Execution(Start(registration), steps); var r := s.run.receipt; var id := r.operationId;
            var done := Writes(s, 4);
            var t := Execution(Start(registration), steps + [ByRoot(DoCommitWrite)] + more);
            var final := Attempt(Crash(t), id, h, 3);
            if IsActive(t.core, id) then
              && Holds(final.root.journal, id, r) && Holds(done.root.journal, id, r)
              && Holds(final.spool.receipts, id, r) && Holds(done.spool.receipts, id, r)
              && final.root.current == done.root.current
              && final.core == t.core && final.root.container == t.root.container && final.touched == t.touched
              && final.spool.requests == t.spool.requests && final.spool.switches == t.spool.switches
            else
              && Holds(t.spool.receipts, id, r)
              && (AcceptedBy(r).Some? ==> InHistory(t.core.history, AcceptedBy(r).value))
  {
    hide Apply, Inv, Later, Attempt, Writes, Committed;
    var s := Execution(Start(registration), steps);
    var write := [ByRoot(DoCommitWrite)];
    var t := Execution(Start(registration), steps + write + more);
    ReachableInv(registration, steps);
    ReachableInv(registration, steps + write + more);
    NothingIsTakenBack(registration, steps + write, more);
    OneWrite(registration, steps);
    CommitIsFresh(s);
    UninterruptedCommit(s, s.run.receipt);
    CommittedRecords(s, s.run.receipt);
    KnownWhileLater(s, t);
    if IsActive(t.core, s.run.receipt.operationId) {
      JournalledRecord(s, t);
      AttemptFinishes(t, s.run.receipt.operationId, h);
    } else {
      ConsumedReceipt(s, t);
    }
  }

  lemma OneWrite(registration: Registration, steps: seq<Step>)
    ensures Execution(Start(registration), steps + [ByRoot(DoCommitWrite)])
         == CommitWrite(Execution(Start(registration), steps))
  {
    hide CommitWrite;
    assert (steps + [ByRoot(DoCommitWrite)])[..|steps|] == steps;
  }

  lemma CommittedRecords(s: System, r: Receipt)
    ensures Committed(s, r).root.current == CommitCurrent(CommitJournal(s.root, r), r).current
    ensures r.operationId !in s.root.journal ==> Holds(Committed(s, r).root.journal, r.operationId, r)
    ensures Holds(Committed(s, r).spool.receipts, r.operationId, r)
  {
  }

  lemma KnownWhileLater(s: System, t: System)
    requires Inv(s) && s.run.Committing? && s.run.write == 0 && Later(CommitWrite(s), t)
    ensures var id := s.run.receipt.operationId;
            id in t.core.operations && id in t.root.journal && t.root.journal[id] == s.run.receipt
  {
    hide CoreInv, RecordsOk, SettledOk, MarkersOk, RequestsOk, AdmittedOk, ConsumedOk, CurrentOk, TruthOk, ContainerOk,
         TouchedOk, ReceiptShape, ReceiptTrue;
    assert CommittingOk(s.core, s.spool, s.root, s.run, s.touched);
  }

  /** Core ends an operation by the receipt in the journal, and keeps what it accepted. */
  lemma ConsumedReceipt(s: System, t: System)
    requires Inv(t)
    requires s.run.Committing? && s.run.receipt.operationId in t.core.operations
    requires var id := s.run.receipt.operationId;
             && !IsActive(t.core, id) && id in t.root.journal && t.root.journal[id] == s.run.receipt
    ensures var r := s.run.receipt; var id := r.operationId;
            && id in t.spool.receipts && t.spool.receipts[id] == r
            && (AcceptedBy(r).Some? ==> InHistory(t.core.history, AcceptedBy(r).value))
  {
    hide HistoryShape, HistoryBacked, DeploysRehearsed, RegistrationFollows, Keyed, InFlightCurrent, MarkersOk,
         RequestsOk, AdmittedOk, CurrentOk, TruthOk, ContainerOk, TouchedOk, ReceiptShape, RunOk;
  }

  // ---------------------------------------------------------------- late replays

  /** The replay installed the one generation core has yet to consume. */
  predicate Completed(s: System, id: Id, replayed: Root)
    requires id in s.root.journal
  {
    && SwitchingNow(s.core, id)
    && s.root.current == Latest(s.core.history)
    && replayed == s.root.(current := AcceptedBy(s.root.journal[id]))
    && GenerationOf(replayed.current) == |s.core.history| + 1
  }

  /** Replaying any journal receipt, however late, leaves root's record alone, unless the
      operation is the one committed but unconsumed: then the record becomes its generation
      once, and a second replay changes nothing. */
  lemma LateReplays(registration: Registration, steps: seq<Step>, id: Id)
    requires id in Execution(Start(registration), steps).root.journal
    ensures var s := Execution(Start(registration), steps); var r := s.root.journal[id];
            var replayed := CommitCurrent(s.root, r);
            && CommitCurrent(replayed, r) == replayed
            && (replayed == s.root || Completed(s, id, replayed))
  {
    hide Apply;
    ReachableInv(registration, steps);
    LateReplay(Execution(Start(registration), steps), id);
  }

  lemma LateReplay(s: System, id: Id)
    requires Inv(s) && id in s.root.journal
    ensures var r := s.root.journal[id]; var replayed := CommitCurrent(s.root, r);
            && CommitCurrent(replayed, r) == replayed
            && (replayed == s.root || Completed(s, id, replayed))
  {
    hide SettledOk, MarkersOk, RequestsOk, AdmittedOk, TruthOk, ContainerOk, TouchedOk, RunOk, HistoryBacked,
         DeploysRehearsed, RegistrationFollows, ReceiptShape;
    LatestGeneration(s.core);
  }

  // ---------------------------------------------------------------- the marker has no reader

  /** The process is not executing `id`, as it never is once `id` has a receipt. */
  predicate NotExecuting(s: System, id: Id) {
    s.run.Executing? ==> s.run.operation.id != id
  }

  lemma MarkIgnoresMarker(s: System, id: Id)
    requires NotExecuting(s, id)
    ensures Unmarked(Mark(s), id) == Mark(Unmarked(s, id))
  {
    if s.run.Executing? {
      var x := s.run.operation.id;
      assert (s.root.markers + {x}) - {id} == (s.root.markers - {id}) + {x};
    }
  }

  lemma CommitIgnoresMarker(s: System, id: Id)
    ensures Unmarked(CommitWrite(s), id) == CommitWrite(Unmarked(s, id))
  {
    if s.run.Committing? {
      var x := s.run.receipt.operationId;
      assert (s.root.markers - {x}) - {id} == (s.root.markers - {id}) - {x};
    }
  }

  lemma BeginIgnoresMarker(s: System, x: Id, h: Host, id: Id)
    requires id in s.root.journal
    ensures Unmarked(Begin(s, x, h), id) == Begin(Unmarked(s, id), x, h)
  {
    hide ReadAuthority;
  }

  lemma RootIgnoresMarker(s: System, step: RootStep, id: Id)
    requires id in s.root.journal && NotExecuting(s, id)
    ensures Unmarked(ApplyRoot(s, step), id) == ApplyRoot(Unmarked(s, id), step)
  {
    hide ReadAuthority, ReadInstalledAuthority, Mark, CommitWrite, Begin;
    match step
    case DoMark => MarkIgnoresMarker(s, id);
    case DoCommitWrite => CommitIgnoresMarker(s, id);
    case DoBegin(x, h) => BeginIgnoresMarker(s, x, h, id);
    case _ =>
  }

  lemma HostIgnoresMarker(s: System, step: HostStep, id: Id)
    ensures Unmarked(ApplyHost(s, step), id) == ApplyHost(Unmarked(s, id), step)
  {
  }

  lemma CoreIgnoresMarker(s: System, step: CoreStep, id: Id)
    ensures Unmarked(ApplyCore(s, step), id) == ApplyCore(Unmarked(s, id), step)
  {
    hide RequestOperation, Acknowledge, Consume, UpdateRegistration, ProposeSourceRename, ProvisionLegacy,
         RestoreUnacceptedLegacy, Reject;
  }

  /** Once an operation has its journal receipt, its journal marker has no reader left: every
      later run goes the same with and without it. */
  lemma {:induction false} MarkerHasNoReader(registration: Registration, steps: seq<Step>, id: Id, more: seq<Step>)
    requires id in Execution(Start(registration), steps).root.journal
    ensures var s := Execution(Start(registration), steps);
            && Unmarked(Execution(s, more), id) == Execution(Unmarked(s, id), more)
            && id in Execution(s, more).root.journal
    decreases |more|
  {
    hide Inv, ApplyCore, ApplyRoot, ApplyHost;
    var s := Execution(Start(registration), steps);
    if more != [] {
      var k := |more| - 1;
      MarkerHasNoReader(registration, steps, id, more[..k]);
      ExecutionAppends(Start(registration), steps, more[..k]);
      var t := Execution(s, more[..k]);
      ReachableInv(registration, steps + more[..k]);
      JournalledIsNotExecuting(t, id);
      StepIsLater(t, more[k]);
      match more[k]
      case ByCore(step) => CoreIgnoresMarker(t, step, id);
      case ByRoot(step) => RootIgnoresMarker(t, step, id);
      case OnHost(step) => HostIgnoresMarker(t, step, id);
    }
  }

  lemma JournalledIsNotExecuting(s: System, id: Id)
    requires Inv(s) && id in s.root.journal
    ensures NotExecuting(s, id)
  {
    hide CoreInv, RecordsOk, SettledOk, MarkersOk, RequestsOk, AdmittedOk, ConsumedOk, CurrentOk, TruthOk,
         ContainerOk, TouchedOk;
  }
}
