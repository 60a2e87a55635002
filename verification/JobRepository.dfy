/** `JobRepository` (app/repository.py): the scheduler's transactions, in place. */
module JobRepositories {
  import opened Wrappers
  import opened Sets
  import opened Scheduler
  import opened SchedulerInvariant

  /** An owner's idempotency key, as the unique index jobs_owner_idempotency_key has it. */
  datatype SubmissionKey = SubmissionKey(owner: nat, key: nat)

  /** The first row of an ORDER BY, the minimum of a list of keyed rows. */
  method LeastKey(keys: map<nat, Key>) returns (r: nat)
    requires keys != map[] && Named(keys)
    ensures IsLeast(keys, r)
  {
    r :| r in keys;
    var rest := keys.Keys - {r};
    while rest != {}
      invariant rest <= keys.Keys && r in keys && r !in rest
      invariant forall k | k in keys && k !in rest && k != r :: Before(keys[r], keys[k])
      decreases |rest|
    {
      var k :| k in rest;
      rest := rest - {k};
      if Before(keys[k], keys[r]) {
        r := k;
      }
    }
  }

  // ---------------------------------------------------------------- recovery's updates

  function CancelledJob(j: Job, now: Time): Job {
    if Expired(j, now) && j.cancelRequested
    then Unleased(j).(status := Failed, finishedAt := Some(now), failure := Some(CancelledByUser)) else j
  }

  function ExhaustedJob(j: Job, now: Time): Job {
    if Expired(j, now) && j.maxAttempts <= j.attempt && !j.cancelRequested
    then Unleased(j).(status := Failed, finishedAt := Some(now), failure := Some(WorkerLost)) else j
  }

  function RequeuedJob(j: Job, now: Time): Job {
    if Expired(j, now) && !j.cancelRequested
    then Unleased(j).(status := Queued, worker := None, startedAt := None, failure := None) else j
  }

  /** The rows one of the updates touches. */
  function Where(jobs: map<JobId, Job>, now: Time, cancelled: bool, exhausted: bool): set<JobId> {
    set id | id in jobs && Expired(jobs[id], now) && jobs[id].cancelRequested == cancelled &&
             (exhausted ==> jobs[id].maxAttempts <= jobs[id].attempt)
  }

  lemma ThreeUpdates(j: Job, now: Time)
    ensures RequeuedJob(ExhaustedJob(CancelledJob(j, now), now), now) == RecoveredJob(j, now)
  {
  }

  /** The three row counts add up to the number of expired jobs: no row is updated twice. */
  lemma UpdatedRows(before: map<JobId, Job>, second: map<JobId, Job>, third: map<JobId, Job>, now: Time)
    requires second == map id | id in before :: CancelledJob(before[id], now)
    requires third == map id | id in second :: ExhaustedJob(second[id], now)
    ensures |Where(before, now, true, false)| + |Where(second, now, false, true)| + |Where(third, now, false, false)|
              == |ExpiredJobs(before, now)|
  {
    var a, b, c := Where(before, now, true, false), Where(second, now, false, true), Where(third, now, false, false);
    forall id | id in before
      ensures Expired(before[id], now) <==> id in a || id in b || id in c
      ensures !(id in a && id in b) && !(id in a && id in c) && !(id in b && id in c)
    {
      assert second[id] == CancelledJob(before[id], now) && third[id] == ExhaustedJob(second[id], now);
    }
    assert ExpiredJobs(before, now) == a + b + c;
    DisjointSizes(a, b, c);
  }

  class JobRepository {
    var jobs: map<JobId, Job>
    var workers: map<WorkerId, Worker>
    var keys: map<SubmissionKey, JobId>

    /** Every key names the row it came with. */
    ghost predicate Keyed()
      reads this
    {
      forall k | k in keys :: keys[k] in jobs
    }

    ghost function State(): Tables
      reads this
    {
      Tables(jobs, workers)
    }

    constructor ()
      ensures State() == Run([]) && keys == map[] && Keyed()
    {
      jobs := map[];
      workers := map[];
      keys := map[];
    }

    /** `add`: INSERT ... ON CONFLICT DO NOTHING, then the row the key already had, None where
        the source raises because there is none. */
    method AddJob(id: JobId, request: Request, createdAt: Time, taskIndex: Option<nat>, maxAttempts: Positive,
                  key: Option<SubmissionKey>) returns (stored: Option<JobId>)
      modifies this`jobs, this`keys
      ensures var known := key.Some? && key.value in old(keys);
              && stored == (if known then Some(old(keys)[key.value])
                            else if id in old(jobs) then None else Some(id))
              && (if known || id in old(jobs) then State() == old(State()) && keys == old(keys)
                  else
                    && State() ==
                         Scheduler.Apply(old(State()), Submitted(id, request, createdAt, taskIndex, maxAttempts))
                    && keys == if key.Some? then old(keys)[key.value := id] else old(keys))
      ensures old(Keyed()) ==> Keyed()
    {
      if id !in jobs && (key.None? || key.value !in keys) {
        jobs := jobs[id := NewJob(request, createdAt, taskIndex, maxAttempts)];
        if key.Some? {
          keys := keys[key.value := id];
        }
        return Some(id);
      }
      return if key.Some? && key.value in keys then Some(keys[key.value]) else None;
    }

    /** `UPDATE jobs ... WHERE` cancelled and expired. */
    method EndCancelled(now: Time) returns (count: nat)
      modifies this`jobs
      ensures jobs == map id | id in old(jobs) :: CancelledJob(old(jobs)[id], now)
      ensures count == |Where(old(jobs), now, true, false)|
    {
      count := |Where(jobs, now, true, false)|;
      jobs := map id | id in jobs :: CancelledJob(jobs[id], now);
    }

    /** `UPDATE jobs ... WHERE` expired on the last attempt. */
    method EndExhausted(now: Time) returns (count: nat)
      modifies this`jobs
      ensures jobs == map id | id in old(jobs) :: ExhaustedJob(old(jobs)[id], now)
      ensures count == |Where(old(jobs), now, false, true)|
    {
      count := |Where(jobs, now, false, true)|;
      jobs := map id | id in jobs :: ExhaustedJob(jobs[id], now);
    }

    /** `UPDATE jobs ... WHERE` still expired. */
    method Requeue(now: Time) returns (count: nat)
      modifies this`jobs
      ensures jobs == map id | id in old(jobs) :: RequeuedJob(old(jobs)[id], now)
      ensures count == |Where(old(jobs), now, false, false)|
    {
      count := |Where(jobs, now, false, false)|;
      jobs := map id | id in jobs :: RequeuedJob(jobs[id], now);
    }

    /** The three ordered updates of `_recover_expired`, each over what is still running and
        expired. Together they settle each expired job once. */
    method EndLeases(now: Time) returns (count: nat)
      modifies this`jobs
      ensures jobs == RecoveredJobs(old(jobs), now)
      ensures count == |ExpiredJobs(old(jobs), now)|
    {
      hide CancelledJob, ExhaustedJob, RequeuedJob, RecoveredJob, Where;
      ghost var before := jobs;
      var cancelled := EndCancelled(now);
      ghost var second := jobs;
      var failed := EndExhausted(now);
      ghost var third := jobs;
      var requeued := Requeue(now);
      forall id | id in before ensures RecoveredJob(before[id], now) == jobs[id] {
        ThreeUpdates(before[id], now);
      }
      UpdatedRows(before, second, third, now);
      count := cancelled + failed + requeued;
    }

    /** The pointers of every worker that lost a lease. */
    method ClearPointers(lost: set<WorkerId>)
      modifies this`workers
      ensures workers == map w | w in old(workers) :: if w in lost then Pointerless(old(workers)[w]) else old(workers)[w]
    {
      var left := lost;
      while left != {}
        invariant left <= lost && workers.Keys == old(workers).Keys
        invariant forall w | w in workers ::
                    workers[w] == if w in lost && w !in left then Pointerless(old(workers)[w]) else old(workers)[w]
        decreases |left|
      {
        var w :| w in left;
        left := left - {w};
        if w in workers {
          workers := workers[w := Pointerless(workers[w])];
        }
      }
    }

    /** `_recover_expired` */
    method RecoverExpired(now: Time) returns (count: nat)
      modifies this`jobs, this`workers
      ensures State() == Recover(old(State()), now)
      ensures count == |ExpiredJobs(old(jobs), now)|
    {
      var lost := set id | id in jobs && Expired(jobs[id], now) && jobs[id].worker.Some? :: jobs[id].worker.value;
      assert forall w :: w in lost <==> LostLease(jobs, w, now);
      count := EndLeases(now);
      ClearPointers(lost);
      assert workers == RecoveredWorkers(old(State()), now);
    }

    /** `_upsert_worker` */
    method UpsertWorker(w: WorkerId, supported: set<JobType>, seen: Time, current: Option<JobId>)
      modifies this`workers
      ensures workers == Upsert(old(workers), w, supported, seen, current)
    {
      if w in workers {
        workers := workers[w := workers[w].(supported := supported, lastSeen := seen, current := current)];
      } else {
        workers := workers[w := Worker(false, supported, seen, current, None, None)];
      }
    }

    /** `_preferred_worker_id`: filter the workers one by one, then take the minimum. */
    method PreferredWorker(r: Request, cutoff: Time) returns (preferred: Option<WorkerId>)
      ensures preferred == Preferred(r, workers, cutoff)
    {
      var eligible: map<nat, Key> := map[];
      var rest := workers.Keys;
      while rest != {}
        invariant rest <= workers.Keys
        invariant forall id | id in workers ::
                    id in eligible <==> id !in rest && Fits(r, id, workers[id], cutoff)
        invariant forall id | id in eligible :: id in workers && eligible[id] == WorkerKey(r, id, workers[id])
        decreases |rest|
      {
        var id :| id in rest;
        rest := rest - {id};
        var w := workers[id];
        if !w.enabled || w.lastSeen < cutoff || w.current.Some? || (r.target.Some? && r.target.value != id) ||
           r.kind !in w.supported
        {
          continue;
        }
        if NeedsCapacity(r.kind) {
          if w.cpu.None? || w.memory.None? || r.cpu > w.cpu.value || r.memory > w.memory.value {
            continue;
          }
        }
        eligible := eligible[id := WorkerKey(r, id, w)];
      }
      assert eligible == Candidates(r, workers, cutoff);
      if eligible == map[] {
        return None;
      }
      var least := LeastKey(eligible);
      LeastIsUnique(eligible, least);
      return Some(least);
    }

    /** `claim` */
    method ClaimJob(c: Call) returns (got: Option<JobId>)
      modifies this`jobs, this`workers
      ensures (State(), got) == Claim(old(State()), c)
    {
      hide Wanted, Least, Recover, Started;
      var known := c.worker in workers;
      var enabled := known && workers[c.worker].enabled;
      var _ := RecoverExpired(c.at);
      UpsertWorker(c.worker, c.supported, c.at, None);
      if !enabled {
        return None;
      }
      ghost var u := State();

      var live := LiveKeys(jobs, c.worker, c.at);
      if live != map[] {
        var id := LeastKey(live);
        LeastIsUnique(live, id);
        workers := workers[c.worker := workers[c.worker].(current := Some(id))];
        return Some(id);
      }

      got := TakeNext(c);
    }

    /** The queued jobs in their order, up to the first that prefers the claiming worker. */
    method TakeNext(c: Call) returns (got: Option<JobId>)
      requires c.worker in workers
      modifies this`jobs, this`workers
      ensures var u := old(State());
              if Wanted(u, c) == map[] then got.None? && State() == u
              else
                var id := Least(Wanted(u, c));
                got == Some(id) && State() == Tables(u.jobs[id := Started(u.jobs[id], c)], PointAt(u.workers, c.worker, got))
    {
      hide Preferred, Least, Started;
      ghost var u := State();
      var queued := map id | id in jobs && Offered(jobs[id], c) :: JobKey(id, jobs[id]);
      got := None;
      while queued != map[]
        invariant State() == u
        invariant forall id | id in queued :: id in jobs && Offered(jobs[id], c) && queued[id] == JobKey(id, jobs[id])
        invariant forall id | id in Wanted(u, c) :: id in queued
        decreases |queued|
      {
        var id := LeastKey(queued);
        var preferred := PreferredWorker(jobs[id].request, Cutoff(c));
        if preferred == Some(c.worker) {
          assert IsLeast(Wanted(u, c), id);
          LeastIsUnique(Wanted(u, c), id);
          jobs := jobs[id := Started(jobs[id], c)];
          workers := workers[c.worker := workers[c.worker].(current := Some(id))];
          return Some(id);
        }
        queued := queued - {id};
      }
      assert Wanted(u, c) == map[];
    }

    /** `heartbeat` */
    method HeartbeatWorker(w: WorkerId, supported: set<JobType>, now: Time, expires: Time,
                           current: Option<JobId>, token: Option<Token>) returns (answer: Option<bool>)
      modifies this`jobs, this`workers
      ensures (State(), answer) == Heartbeat(old(State()), w, supported, now, expires, current, token)
    {
      if current.Some? && token.Some? {
        var id := current.value;
        if !(id in jobs && Live(jobs[id], w, now) && jobs[id].token == token) {
          return None;
        }
        jobs := jobs[id := jobs[id].(expires := Some(expires))];
        UpsertWorker(w, supported, now, current);
        return Some(jobs[id].cancelRequested);
      }
      UpsertWorker(w, supported, now, None);
      return Some(false);
    }

    /** `cancel` */
    method CancelJob(id: JobId, now: Time) returns (found: bool)
      modifies this`jobs
      ensures State() == Cancel(old(State()), id, now)
      ensures found <==> id in old(jobs)
    {
      if id !in jobs {
        return false;
      }
      if jobs[id].status.Queued? {
        jobs := jobs[id := jobs[id].(status := Failed, cancelRequested := true, failure := Some(CancelledByUser),
                                     finishedAt := Some(now))];
      } else if jobs[id].status.Running? {
        jobs := jobs[id := jobs[id].(cancelRequested := true)];
      }
      return true;
    }

    /** `_finish`, for `complete` and `fail` */
    method FinishJob(id: JobId, w: WorkerId, token: Token, e: Ending, now: Time) returns (accepted: bool)
      modifies this`jobs, this`workers
      ensures State() == Finish(old(State()), id, w, token, e, now)
      ensures accepted <==> MayFinish(old(State()), id, w, token, e, now)
    {
      if !(id in jobs && Live(jobs[id], w, now) && jobs[id].token == Some(token) &&
           (e.Gone? || !jobs[id].cancelRequested))
      {
        return false;
      }
      jobs := jobs[id := Finished(jobs[id], e, now)];
      if w in workers {
        workers := workers[w := workers[w].(current := None)];
      }
      return true;
    }

    method SetWorkerEnabled(w: WorkerId, enabled: bool) returns (found: bool)
      modifies this`workers
      ensures State() == SetEnabled(old(State()), w, enabled)
      ensures found <==> w in old(workers)
    {
      if w in workers {
        workers := workers[w := workers[w].(enabled := enabled)];
      }
      return w in workers;
    }

    method SetWorkerCapacity(w: WorkerId, cpu: real, memory: int) returns (found: bool)
      modifies this`workers
      ensures State() == SetCapacity(old(State()), w, cpu, memory)
      ensures found <==> w in old(workers)
    {
      if w in workers {
        workers := workers[w := workers[w].(cpu := Some(cpu), memory := Some(memory))];
      }
      return w in workers;
    }
  }
}
