/** What app run submission promises in every reachable state, and across runs. */
module ComputeRunsSafety {
  import opened Wrappers
  import opened Scheduler
  import opened SchedulerInvariant
  import opened SchedulerRuns
  import opened ComputeRuns
  import opened ComputeRunsInvariant

  // ---------------------------------------------------------------- one run per submission key

  lemma {:induction false} ExecutionAppends(steps: seq<Step>, more: seq<Step>)
    requires more != []
    ensures Execution(steps + more)
         == ComputeRuns.Apply(Execution(steps + more[..|more| - 1]), more[|more| - 1])
  {
    assert (steps + more)[..|steps + more| - 1] == steps + more[..|more| - 1];
  }

  lemma StepKeepsRuns(s: State, step: Step)
    ensures forall k | k in s.runs :: k in ComputeRuns.Apply(s, step).runs && ComputeRuns.Apply(s, step).runs[k] == s.runs[k]
    ensures s.replies <= ComputeRuns.Apply(s, step).replies
  {
    hide Scheduler.Apply, Capacity, NewTasks, InsertJobs, InsertUploads, UnfinishedRuns, Needed, Reserved, Assigned;
  }

  /** A run once recorded under a key stays that key's run, and no reply is taken back. */
  lemma {:induction false} RunsAreKept(steps: seq<Step>, more: seq<Step>)
    ensures forall k | k in Execution(steps).runs ::
              k in Execution(steps + more).runs && Execution(steps + more).runs[k] == Execution(steps).runs[k]
    ensures Execution(steps).replies <= Execution(steps + more).replies
    decreases |more|
  {
    hide ComputeRuns.Apply;
    if more == [] {
      assert steps + more == steps;
    } else {
      RunsAreKept(steps, more[..|more| - 1]);
      ExecutionAppends(steps, more);
      StepKeepsRuns(Execution(steps + more[..|more| - 1]), more[|more| - 1]);
    }
  }

  /** However many callers submit under one key, in whatever interleaving: callers with the
      same payload are all given the one run of the key, a caller with another payload is
      refused, and both answers stay right for ever. */
  lemma CallersAgree(steps: seq<Step>, more: seq<Step>, a: Reply, b: Reply)
    requires a in Execution(steps).replies && b in Execution(steps + more).replies && a.key == b.key
    ensures a.key in Execution(steps + more).runs
    ensures var run := Execution(steps + more).runs[a.key];
            && (a.answer.Got? <==> a.payload == run.payload)
            && (a.answer.Got? ==> a.answer.group == run.group)
            && (a.payload == b.payload ==> a.answer == b.answer)
            && (a.answer.Got? && b.answer.Got? ==> a.payload == b.payload)
  {
    hide ComputeRuns.Apply;
    RunsAreKept(steps, more);
    var all := Execution(steps + more).replies;
    assert a in all;
    ExecutionInv(steps + more);
    RepliesMatch(Execution(steps + more), a);
    RepliesMatch(Execution(steps + more), b);
  }

  lemma RepliesMatch(s: State, r: Reply)
    requires ComputeRunsInvariant.Inv(s) && r in s.replies
    ensures r.key in s.runs
    ensures match r.answer
            case Got(g) => s.runs[r.key].group == g && s.runs[r.key].payload == r.payload
            case Conflict => s.runs[r.key].payload != r.payload
  {
  }

  // ---------------------------------------------------------------- the caps

  /** Staging reservations and unfinished runs together never exceed four, nor two for one
      app and user. */
  lemma OutstandingIsCapped(steps: seq<Step>, owner: Owner)
    ensures var s := Execution(steps); var unfinished := UnfinishedRuns(s.tables, s.runs);
            && |s.reservations.Keys| + |unfinished| <= 4
            && |ReservedBy(s.reservations, owner)| + |OfOwner(unfinished, owner)| <= 2
  {
    hide ComputeRuns.Apply;
    ExecutionInv(steps);
    var s := Execution(steps);
    assert CapsOk(s.reservations, UnfinishedRuns(s.tables, s.runs));
    assert OutstandingOf(s.reservations, UnfinishedRuns(s.tables, s.runs), owner) <= MAX_OWNER_OUTSTANDING_RUNS;
  }

  /** A run that has finished never counts again. */
  lemma {:induction false} FinishedStaysFinished(steps: seq<Step>, more: seq<Step>, k: RunKey)
    requires k in Execution(steps).runs && !Unfinished(Execution(steps).tables, Execution(steps).runs[k])
    ensures k in Execution(steps + more).runs
    ensures !Unfinished(Execution(steps + more).tables, Execution(steps + more).runs[k])
    decreases |more|
  {
    hide ComputeRuns.Apply, ComputeRunsInvariant.Inv, Unfinished;
    if more == [] {
      assert steps + more == steps;
    } else {
      var n := |more| - 1;
      FinishedStaysFinished(steps, more[..n], k);
      ExecutionAppends(steps, more);
      ExecutionInv(steps + more[..n]);
      StepKeepsRuns(Execution(steps + more[..n]), more[n]);
      StepKeepsFinished(Execution(steps + more[..n]), more[n], k);
    }
  }

  lemma StepKeepsFinished(s: State, step: Step, k: RunKey)
    requires ComputeRunsInvariant.Inv(s) && k in s.runs && !Unfinished(s.tables, s.runs[k])
    ensures !Unfinished(ComputeRuns.Apply(s, step).tables, s.runs[k])
  {
    hide SchedulerInvariant.Inv, CapsOk, UploadsOk, NeededOk, DoomedOk, RepliesOk, HomesOk, FilesOk, StagingOk,
         CallersOk, ReservationsOk, StartupOk, Scheduler.Apply, JobEvent, InsertJobs, InsertUploads;
    if step.DoJobEvent? {
      JobEventFinishesRuns(s, step.event);
    } else if step.DoAddGroup? && step.id in s.submissions && Inserting(s, step.id, step.tasks) {
      InsertedJobs(s.tables, step.tasks, step.at, step.max);
    }
  }

  // ---------------------------------------------------------------- staged files

  /** Nothing removes a staged file an unfinished job still reads: no release, no cleanup, no
      startup, in any interleaving. */
  lemma NeededFilesStay(steps: seq<Step>, j: JobId, f: File)
    requires var s := Execution(steps); j in s.uploads && f in s.uploads[j].files && ComputeRuns.Open(s.tables, j)
    ensures var s := Execution(steps); f in s.files && f in Unlink(s, f).files
  {
    hide ComputeRuns.Apply;
    ExecutionInv(steps);
    NeededIsKept(Execution(steps), j, f);
  }

  lemma NeededIsKept(s: State, j: JobId, f: File)
    requires ComputeRunsInvariant.Inv(s) && j in s.uploads && f in s.uploads[j].files && ComputeRuns.Open(s.tables, j)
    ensures f in s.files && f !in s.doomed
  {
  }

  /** A caller whose finally block is done leaves no reservation and no file. */
  lemma LosersLeaveNothing(steps: seq<Step>, id: Id)
    requires id in Execution(steps).submissions && id !in CleanDone(Execution(steps), id).submissions
    ensures var s := CleanDone(Execution(steps), id);
            && id !in s.reservations && id !in s.consumed
            && forall f | f in s.files :: f in s.home && s.home[f] != id
  {
    hide ComputeRuns.Apply;
    ExecutionInv(steps);
    NoFileOf(Execution(steps), id);
  }

  lemma NoFileOf(s: State, id: Id)
    requires ComputeRunsInvariant.Inv(s) && id in s.submissions && s.submissions[id].paths !! s.files
    ensures forall f | f in s.files :: f in s.home && s.home[f] != id
  {
    hide SchedulerInvariant.Inv, CapsOk, RunsOk, UploadsOk, NeededOk, DoomedOk, RepliesOk, HomesOk, StagingOk,
         ReservationsOk, StartupOk;
  }

  /** With no submission in progress there is no reservation, and every file on disk was
      staged for a run. */
  lemma IdleHoldsOnlyRuns(steps: seq<Step>, f: File)
    requires !Execution(steps).starting && Execution(steps).submissions == map[]
    ensures Execution(steps).reservations == map[]
    ensures f in Execution(steps).files ==> f in Execution(steps).home && Execution(steps).home[f] in Execution(steps).consumed
  {
    hide ComputeRuns.Apply;
    ExecutionInv(steps);
    assert Execution(steps).reservations.Keys <= {};
  }

  /** Startup reconciliation that commits has cleared every reservation and its paths, and
      has kept the files of every unfinished run. */
  lemma StartupClears(steps: seq<Step>)
    requires Execution(steps).starting && !ReconcileCommit(Execution(steps)).starting
    ensures var s := ReconcileCommit(Execution(steps));
            && s.reservations == map[] && s.submissions == map[] && s.runs == Execution(steps).runs
            && (forall f | f in s.files :: f in s.home && s.home[f] in s.consumed)
            && (forall j, f | j in s.uploads && f in s.uploads[j].files && ComputeRuns.Open(s.tables, j) :: f in s.files)
  {
    hide ComputeRuns.Apply;
    ExecutionInv(steps);
    ReconciledKeepsInv(Execution(steps));
    Reconciled(ReconcileCommit(Execution(steps)));
  }

  lemma Reconciled(s: State)
    requires ComputeRunsInvariant.Inv(s) && s.reservations == map[] && s.submissions == map[]
    ensures forall f | f in s.files :: f in s.home && s.home[f] in s.consumed
    ensures forall j, f | j in s.uploads && f in s.uploads[j].files && ComputeRuns.Open(s.tables, j) :: f in s.files
  {
  }

  // ---------------------------------------------------------------- what the API shows

  datatype Shown = ShownQueued | ShownRunning | ShownCompleted | ShownFailed | ShownCancelled

  function TaskStatus(j: Job): Shown {
    match j.status
    case Queued => ShownQueued
    case Running => ShownRunning
    case Completed => ShownCompleted
    case Failed => if j.failure == Some(CancelledByUser) then ShownCancelled else ShownFailed
  }

  /** `run_view`'s status of a run, from the set of its tasks' statuses. */
  function RunStatus(t: Tables, run: AppRun): Shown
    requires run.jobs <= t.jobs.Keys
  {
    var statuses := set j | j in run.jobs :: TaskStatus(t.jobs[j]);
    if statuses == {ShownQueued} then ShownQueued
    else if statuses == {ShownCompleted} then ShownCompleted
    else if ShownRunning in statuses || ShownQueued in statuses then ShownRunning
    else if ShownFailed in statuses then ShownFailed
    else ShownCancelled
  }

  /** A run is shown as unfinished exactly while it counts against the caps, as completed
      exactly when every task is, and a failure outranks a cancellation. */
  lemma StatusTellsTheCaps(t: Tables, run: AppRun)
    requires run.jobs <= t.jobs.Keys
    ensures Unfinished(t, run) <==> RunStatus(t, run).ShownQueued? || RunStatus(t, run).ShownRunning?
    ensures RunStatus(t, run).ShownCompleted? <==>
              run.jobs != {} && forall j | j in run.jobs :: t.jobs[j].status.Completed?
    ensures RunStatus(t, run).ShownFailed? <==>
              !Unfinished(t, run) && exists j | j in run.jobs :: TaskStatus(t.jobs[j]).ShownFailed?
  {
    var statuses := set j | j in run.jobs :: TaskStatus(t.jobs[j]);
    assert forall j | j in run.jobs :: TaskStatus(t.jobs[j]) in statuses;
    if run.jobs != {} && forall j | j in run.jobs :: t.jobs[j].status.Completed? {
      var j :| j in run.jobs;
      assert TaskStatus(t.jobs[j]) in statuses;
      assert statuses == {ShownCompleted};
    }
    if ShownRunning in statuses || ShownQueued in statuses || statuses == {ShownCompleted} {
      var x :| x in statuses && (statuses != {ShownCompleted} ==> x.ShownRunning? || x.ShownQueued?);
      var j :| j in run.jobs && TaskStatus(t.jobs[j]) == x;
      assert x.ShownRunning? || x.ShownQueued? <==> ComputeRuns.Open(t, j);
    }
  }
}
