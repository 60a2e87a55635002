/** What every transaction of the scheduler keeps, whatever the clocks say. */
module SchedulerInvariant {
  import opened Wrappers
  import opened Scheduler

  /** Attempts, holder, lease, outcome and times of a job agree with its status. */
  predicate JobOk(j: Job) {
    && j.attempt <= j.maxAttempts
    && (j.status.Queued? ==> j.attempt < j.maxAttempts && !j.cancelRequested && j.worker.None?)
    && (j.status.Running? ==> 1 <= j.attempt && j.worker.Some?)
    && (j.token.Some? <==> j.status.Running?)
    && (j.expires.Some? <==> j.status.Running?)
    && (j.status.Completed? ==> !j.cancelRequested)
    && (j.result.Some? <==> j.status.Completed?)
    && (j.failure.Some? <==> j.status.Failed?)
    && (j.finishedAt.Some? <==> j.status.Completed? || j.status.Failed?)
    && (j.status.Queued? ==> j.startedAt.None?)
    && (j.status.Running? ==> j.startedAt.Some?)
  }

  predicate JobsOk(jobs: map<JobId, Job>) { forall id | id in jobs :: JobOk(jobs[id]) }

  predicate RunsOn(jobs: map<JobId, Job>, id: JobId, w: WorkerId) {
    id in jobs && jobs[id].status.Running? && jobs[id].worker == Some(w)
  }

  ghost predicate OneEach(jobs: map<JobId, Job>) {
    forall i, j, w | RunsOn(jobs, i, w) && RunsOn(jobs, j, w) :: i == j
  }

  /** A pointer is never wrong, but it may be missing while the worker holds a job. */
  ghost predicate PointersOk(t: Tables) {
    forall w | w in t.workers && t.workers[w].current.Some? :: RunsOn(t.jobs, t.workers[w].current.value, w)
  }

  ghost predicate HoldersKnown(t: Tables) {
    forall i, w | RunsOn(t.jobs, i, w) :: w in t.workers
  }

  ghost predicate Inv(t: Tables) { JobsOk(t.jobs) && OneEach(t.jobs) && PointersOk(t) && HoldersKnown(t) }

  // ---------------------------------------------------------------- recovery and first contact

  /** Recovery ends or requeues expired jobs, and no pointer is left on any of them. */
  lemma RecoverKeepsInv(t: Tables, now: Time)
    requires Inv(t)
    ensures Inv(Recover(t, now))
    ensures forall i, w | RunsOn(Recover(t, now).jobs, i, w) :: RunsOn(t.jobs, i, w) && Live(t.jobs[i], w, now)
  {
    var r := Recover(t, now);
    forall i, w | RunsOn(r.jobs, i, w) ensures RunsOn(t.jobs, i, w) && Live(t.jobs[i], w, now) {
      assert RecoveredJob(t.jobs[i], now) == r.jobs[i];
    }
    forall w | w in r.workers && r.workers[w].current.Some? ensures RunsOn(r.jobs, r.workers[w].current.value, w) {
      var id := t.workers[w].current.value;
      assert RunsOn(t.jobs, id, w) && !Expired(t.jobs[id], now);
    }
  }

  lemma UpsertKeepsInv(t: Tables, w: WorkerId, supported: set<JobType>, seen: Time, current: Option<JobId>)
    requires Inv(t) && (current.Some? ==> RunsOn(t.jobs, current.value, w))
    ensures Inv(t.(workers := Upsert(t.workers, w, supported, seen, current)))
  {
    var u := t.(workers := Upsert(t.workers, w, supported, seen, current));
    forall v | v in u.workers && u.workers[v].current.Some? ensures RunsOn(u.jobs, u.workers[v].current.value, v) {
      if v != w {
        assert v in t.workers;
      }
    }
  }

  lemma SeenKeepsInv(t: Tables, c: Call)
    requires Inv(t)
    ensures Inv(Seen(t, c)) && c.worker in Seen(t, c).workers
    ensures forall i | RunsOn(Seen(t, c).jobs, i, c.worker) :: Live(Seen(t, c).jobs[i], c.worker, c.at)
  {
    hide Inv;
    RecoverKeepsInv(t, c.at);
    UpsertKeepsInv(Recover(t, c.at), c.worker, c.supported, c.at, None);
    forall i | RunsOn(Seen(t, c).jobs, i, c.worker) ensures Live(Seen(t, c).jobs[i], c.worker, c.at) {
      assert RecoveredJob(t.jobs[i], c.at) == Seen(t, c).jobs[i];
    }
  }

  // ---------------------------------------------------------------- claiming

  lemma PointKeepsInv(t: Tables, w: WorkerId, j: Option<JobId>)
    requires Inv(t) && (j.Some? ==> RunsOn(t.jobs, j.value, w))
    ensures Inv(t.(workers := PointAt(t.workers, w, j)))
  {
    var u := t.(workers := PointAt(t.workers, w, j));
    forall v | v in u.workers && u.workers[v].current.Some? ensures RunsOn(u.jobs, u.workers[v].current.value, v) {
      if v != w {
        assert v in t.workers;
      }
    }
  }

  /** A job is handed only to a worker that runs nothing. */
  lemma StartKeepsInv(t: Tables, id: JobId, c: Call)
    requires Inv(t) && id in t.jobs && t.jobs[id].status.Queued? && c.worker in t.workers
    requires forall i :: !RunsOn(t.jobs, i, c.worker)
    ensures Inv(t.(jobs := t.jobs[id := Started(t.jobs[id], c)]))
    ensures RunsOn(t.jobs[id := Started(t.jobs[id], c)], id, c.worker)
  {
    var u := t.(jobs := t.jobs[id := Started(t.jobs[id], c)]);
    forall i, w | RunsOn(u.jobs, i, w) ensures (i == id && w == c.worker) || RunsOn(t.jobs, i, w) {
    }
    forall w | w in u.workers && u.workers[w].current.Some? ensures RunsOn(u.jobs, u.workers[w].current.value, w) {
      assert RunsOn(t.jobs, t.workers[w].current.value, w);
    }
  }

  lemma ClaimKeepsInv(t: Tables, c: Call)
    requires Inv(t)
    ensures Inv(Claim(t, c).0)
  {
    hide Inv, JobsOk, Preferred, Recover;
    SeenKeepsInv(t, c);
    var u := Seen(t, c);
    if c.worker in t.workers && t.workers[c.worker].enabled {
      var live := LiveKeys(u.jobs, c.worker, c.at);
      if live != map[] {
        assert RunsOn(u.jobs, Least(live), c.worker);
        PointKeepsInv(u, c.worker, Some(Least(live)));
      } else if Wanted(u, c) != map[] {
        NothingLiveRuns(u, c);
        var id := Least(Wanted(u, c));
        StartKeepsInv(u, id, c);
        PointKeepsInv(u.(jobs := u.jobs[id := Started(u.jobs[id], c)]), c.worker, Some(id));
      }
    }
  }

  lemma NothingLiveRuns(u: Tables, c: Call)
    requires LiveKeys(u.jobs, c.worker, c.at) == map[]
    requires forall i | RunsOn(u.jobs, i, c.worker) :: Live(u.jobs[i], c.worker, c.at)
    ensures forall i :: !RunsOn(u.jobs, i, c.worker)
  {
    assert forall i | i in u.jobs && Live(u.jobs[i], c.worker, c.at) :: i in LiveKeys(u.jobs, c.worker, c.at);
  }

  // ---------------------------------------------------------------- the other transactions

  /** A write to one row that leaves it running where it ran. */
  lemma RowKeepsInv(t: Tables, id: JobId, j: Job)
    requires Inv(t) && id in t.jobs && JobOk(j)
    requires j.status == t.jobs[id].status && (j.status.Running? ==> j.worker == t.jobs[id].worker)
    ensures Inv(t.(jobs := t.jobs[id := j]))
  {
    var u := t.(jobs := t.jobs[id := j]);
    assert forall i, w :: RunsOn(u.jobs, i, w) <==> RunsOn(t.jobs, i, w);
  }

  lemma HeartbeatKeepsInv(t: Tables, w: WorkerId, supported: set<JobType>, now: Time, expires: Time,
                          current: Option<JobId>, token: Option<Token>)
    requires Inv(t)
    ensures Inv(Heartbeat(t, w, supported, now, expires, current, token).0)
  {
    hide Inv;
    if current.Some? && token.Some? && Holds(t, current.value, w, token.value, now) {
      var j := t.jobs[current.value].(expires := Some(expires));
      JobOf(t, current.value);
      RowKeepsInv(t, current.value, j);
      UpsertKeepsInv(t.(jobs := t.jobs[current.value := j]), w, supported, now, current);
    } else if current.None? || token.None? {
      UpsertKeepsInv(t, w, supported, now, None);
    }
  }

  lemma JobOf(t: Tables, id: JobId)
    requires Inv(t) && id in t.jobs
    ensures JobOk(t.jobs[id])
  {
  }

  lemma CancelKeepsInv(t: Tables, id: JobId, now: Time)
    requires Inv(t)
    ensures Inv(Cancel(t, id, now))
  {
    var u := Cancel(t, id, now);
    assert forall i, w :: RunsOn(u.jobs, i, w) <==> RunsOn(t.jobs, i, w);
  }

  /** The finished job's worker is the only one that can have pointed at it. */
  lemma FinishKeepsInv(t: Tables, id: JobId, w: WorkerId, token: Token, e: Ending, now: Time)
    requires Inv(t)
    ensures Inv(Finish(t, id, w, token, e, now))
  {
    var u := Finish(t, id, w, token, e, now);
    if MayFinish(t, id, w, token, e, now) {
      assert forall i, v :: RunsOn(u.jobs, i, v) <==> RunsOn(t.jobs, i, v) && i != id;
      forall v | v in u.workers && u.workers[v].current.Some? ensures RunsOn(u.jobs, u.workers[v].current.value, v) {
        assert v != w && RunsOn(t.jobs, t.workers[v].current.value, v);
      }
    }
  }

  lemma AdminKeepsInv(t: Tables, w: WorkerId, enabled: bool, cpu: real, memory: int)
    requires Inv(t)
    ensures Inv(SetEnabled(t, w, enabled)) && Inv(SetCapacity(t, w, cpu, memory))
  {
  }

  lemma AddKeepsInv(t: Tables, id: JobId, r: Request, at: Time, index: Option<nat>, max: Positive)
    requires Inv(t)
    ensures Inv(Add(t, id, NewJob(r, at, index, max)))
  {
    var u := Add(t, id, NewJob(r, at, index, max));
    assert forall i, w :: RunsOn(u.jobs, i, w) <==> RunsOn(t.jobs, i, w);
  }

  lemma ApplyKeepsInv(t: Tables, e: Event)
    requires Inv(t)
    ensures Inv(Scheduler.Apply(t, e))
  {
    hide Inv, Add, Claim, Heartbeat, Cancel, Finish, Recover, SetEnabled, SetCapacity;
    match e
    case Submitted(id, r, at, index, max) => AddKeepsInv(t, id, r, at, index, max);
    case Claimed(c) => ClaimKeepsInv(t, c);
    case Heard(w, supported, at, expires, current, held) => HeartbeatKeepsInv(t, w, supported, at, expires, current, held);
    case Cancelled(id, at) => CancelKeepsInv(t, id, at);
    case Ended(id, w, token, ending, at) => FinishKeepsInv(t, id, w, token, ending, at);
    case Swept(at) => RecoverKeepsInv(t, at);
    case Enabled(w, enabled) => AdminKeepsInv(t, w, enabled, 0.0, 0);
    case Sized(w, cpu, memory) => AdminKeepsInv(t, w, false, cpu, memory);
  }

  /** After any sequence of transactions each worker runs at most one job, every running job
      has its worker, token and expiry, and every pointer names a job its worker runs. */
  lemma {:induction false} RunInv(events: seq<Event>)
    ensures Inv(Scheduler.Run(events))
    decreases |events|
  {
    hide Inv, Scheduler.Apply;
    if events == [] {
      EmptyInv();
    } else {
      RunInv(events[..|events| - 1]);
      ApplyKeepsInv(Scheduler.Run(events[..|events| - 1]), events[|events| - 1]);
    }
  }

  lemma EmptyInv()
    ensures Inv(Tables(map[], map[]))
  {
  }
}
