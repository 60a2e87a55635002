/** Which job a claim hands out and to whom, and what recovery does with expired leases. */
module SchedulerPlacement {
  import opened Wrappers
  import opened Scheduler
  import opened SchedulerInvariant

  // ---------------------------------------------------------------- best fit

  /** `v` would be chosen before `w` for this request. */
  predicate Outranks(r: Request, v: WorkerId, x: Worker, w: WorkerId, y: Worker) {
    if NeedsCapacity(r.kind) && x.memory.Some? && x.cpu.Some? && y.memory.Some? && y.cpu.Some? then
      || x.memory.value < y.memory.value
      || (x.memory.value == y.memory.value && x.cpu.value < y.cpu.value)
      || (x.memory.value == y.memory.value && x.cpu.value == y.cpu.value && v < w)
    else v < w
  }

  /** `w` fits the request and no other fitting worker outranks it. */
  ghost predicate BestFit(r: Request, workers: map<WorkerId, Worker>, cutoff: Time, w: WorkerId) {
    && w in workers && Fits(r, w, workers[w], cutoff)
    && forall v | v in workers && Fits(r, v, workers[v], cutoff) :: !Outranks(r, v, workers[v], w, workers[w])
  }

  lemma KeysRank(r: Request, v: WorkerId, x: Worker, w: WorkerId, y: Worker, cutoff: Time)
    requires Fits(r, v, x, cutoff) && Fits(r, w, y, cutoff)
    ensures Outranks(r, v, x, w, y) <==> Before(WorkerKey(r, v, x), WorkerKey(r, w, y))
  {
  }

  /** The preferred worker is the best fit, and there is one whenever anything fits. */
  lemma PreferredIsBestFit(r: Request, workers: map<WorkerId, Worker>, cutoff: Time, w: WorkerId)
    ensures Preferred(r, workers, cutoff) == Some(w) <==> BestFit(r, workers, cutoff, w)
    ensures Preferred(r, workers, cutoff).None? <==> forall v | v in workers :: !Fits(r, v, workers[v], cutoff)
  {
    var keys := Candidates(r, workers, cutoff);
    assert forall v | v in workers && Fits(r, v, workers[v], cutoff) :: v in keys;
    forall v, u | v in workers && Fits(r, v, workers[v], cutoff) && u in workers && Fits(r, u, workers[u], cutoff)
      ensures Outranks(r, v, workers[v], u, workers[u]) <==> Before(keys[v], keys[u])
    {
      KeysRank(r, v, workers[v], u, workers[u], cutoff);
    }
    if BestFit(r, workers, cutoff, w) {
      LeastIsUnique(keys, w);
    }
  }

  // ---------------------------------------------------------------- claiming

  predicate Precedes(i: JobId, x: Job, j: JobId, y: Job) {
    || x.createdAt < y.createdAt
    || (x.createdAt == y.createdAt && Index(x) < Index(y))
    || (x.createdAt == y.createdAt && Index(x) == Index(y) && i < j)
  }

  function Index(j: Job): int { if j.taskIndex.Some? then j.taskIndex.value else -1 }

  /** The claiming worker is offered this job and is its best fit. */
  ghost predicate MayTake(u: Tables, c: Call, id: JobId) {
    && id in u.jobs && Offered(u.jobs[id], c)
    && BestFit(u.jobs[id].request, u.workers, Cutoff(c), c.worker)
  }

  /** A claim by an enabled worker with no live lease returns a job exactly when it may take
      one, and then the first of them by creation, task index and identity; only that job
      starts, with one more attempt and the call's token and lease. */
  lemma ClaimExactly(t: Tables, c: Call)
    requires c.worker in t.workers && t.workers[c.worker].enabled
    requires forall id | id in t.jobs :: !Live(t.jobs[id], c.worker, c.at)
    ensures var (t', got) := Claim(t, c); var u := Seen(t, c);
            && (got.Some? <==> exists id :: MayTake(u, c, id))
            && (got.Some? ==>
                  && MayTake(u, c, got.value)
                  && (forall id | MayTake(u, c, id) && id != got.value ::
                        Precedes(got.value, u.jobs[got.value], id, u.jobs[id]))
                  && t'.jobs == u.jobs[got.value := Started(u.jobs[got.value], c)]
                  && t'.workers == u.workers[c.worker := u.workers[c.worker].(current := got)])
            && (got.None? ==> t' == u)
  {
    hide BestFit, Offered, Preferred;
    var u := Seen(t, c);
    assert LiveKeys(u.jobs, c.worker, c.at) == map[] by {
      forall id | id in u.jobs ensures !Live(u.jobs[id], c.worker, c.at) {
        assert u.jobs[id] == RecoveredJob(t.jobs[id], c.at);
      }
    }
    forall id | id in u.jobs ensures id in Wanted(u, c) <==> MayTake(u, c, id) {
      PreferredIsBestFit(u.jobs[id].request, u.workers, Cutoff(c), c.worker);
    }
    if exists id :: MayTake(u, c, id) {
      var some :| MayTake(u, c, some);
      assert some in Wanted(u, c);
      var got := Least(Wanted(u, c));
      assert got in Wanted(u, c) && MayTake(u, c, got);
    }
  }

  /** A job that is started fits the worker that starts it. */
  lemma StartedFits(t: Tables, c: Call, id: JobId)
    requires MayTake(Seen(t, c), c, id)
    ensures var r := Seen(t, c).jobs[id].request; var w := Seen(t, c).workers[c.worker];
            && r.kind in c.supported && (r.target.Some? ==> r.target.value == c.worker)
            && (NeedsCapacity(r.kind) ==>
                  && w.memory.Some? && w.cpu.Some? && r.memory <= w.memory.value && r.cpu <= w.cpu.value)
  {
  }

  /** Claiming again under a live lease hands out the same job, and changes no job the
      recovery beforehand did not. */
  lemma ReclaimReturnsSameLease(t: Tables, c: Call, id: JobId)
    requires Inv(t) && c.worker in t.workers && t.workers[c.worker].enabled
    requires id in t.jobs && Live(t.jobs[id], c.worker, c.at)
    ensures var (t', got) := Claim(t, c);
            && got == Some(id) && t'.jobs[id] == t.jobs[id]
            && t'.jobs == Recover(t, c.at).jobs
            && t'.workers[c.worker].current == Some(id)
  {
    hide Inv;
    var u := Seen(t, c);
    SeenKeepsInv(t, c);
    assert u.jobs[id] == t.jobs[id];
    var live := LiveKeys(u.jobs, c.worker, c.at);
    assert id in live;
    OneOnly(u, c.worker, id, Least(live));
  }

  lemma OneOnly(t: Tables, w: WorkerId, i: JobId, j: JobId)
    requires Inv(t) && RunsOn(t.jobs, i, w) && RunsOn(t.jobs, j, w)
    ensures i == j
  {
  }

  // ---------------------------------------------------------------- workers that only look idle

  ghost predicate Occupied(t: Tables, w: WorkerId) { exists id :: RunsOn(t.jobs, id, w) }

  /** The best fit among the workers that run nothing. */
  ghost predicate BestIdle(t: Tables, r: Request, cutoff: Time, w: WorkerId) {
    && w in t.workers && Fits(r, w, t.workers[w], cutoff)
    && forall v | v in t.workers && Fits(r, v, t.workers[v], cutoff) && !Occupied(t, v) ::
         !Outranks(r, v, t.workers[v], w, t.workers[w])
  }

  /** The preferred worker is chosen by pointers, and a pointer may be missing. The best of
      the workers that really are idle is passed over exactly when a worker that runs a job,
      but whose pointer is gone, fits and outranks it. */
  lemma PassedOverExactly(t: Tables, r: Request, cutoff: Time, w: WorkerId)
    requires BestIdle(t, r, cutoff, w)
    ensures !BestFit(r, t.workers, cutoff, w) <==>
              exists v :: v in t.workers && Fits(r, v, t.workers[v], cutoff) && Occupied(t, v) &&
                          Outranks(r, v, t.workers[v], w, t.workers[w])
  {
    hide Outranks, Occupied, Fits;
    if !BestFit(r, t.workers, cutoff, w) {
      var v :| v in t.workers && Fits(r, v, t.workers[v], cutoff) && Outranks(r, v, t.workers[v], w, t.workers[w]);
      assert Occupied(t, v);
    }
  }

  /** Such a worker arises from a heartbeat that names no job: it clears the pointer of a
      worker that goes on holding its lease, so the forward reading of pointers is all there is. */
  lemma HeartbeatCanHideAJob(t: Tables, id: JobId, w: WorkerId, supported: set<JobType>, now: Time, expires: Time)
    requires RunsOn(t.jobs, id, w)
    ensures var t' := Heartbeat(t, w, supported, now, expires, None, None).0;
            RunsOn(t'.jobs, id, w) && w in t'.workers && t'.workers[w].current.None?
  {
  }

  // ---------------------------------------------------------------- an idle worker is starved

  const NAP := Request(Sleep, 0.0, 0, None, 0)

  function CallOf(w: WorkerId, at: Time): Call { Call(w, {Sleep}, at, w, 20, Some(0)) }

  /** Two workers register and are enabled, and a job arrives. */
  function TwoWorkers(): seq<Event> {
    [Heard(1, {Sleep}, 0, 20, None, None), Heard(2, {Sleep}, 0, 20, None, None), Enabled(1, true), Enabled(2, true),
     Submitted(10, NAP, 0, None, 3)]
  }

  /** The first takes it, then reports without naming it, and another job arrives. */
  function OneHides(): seq<Event> {
    TwoWorkers() + [Claimed(CallOf(1, 1))] + [Heard(1, {Sleep}, 2, 20, None, None)] + [Submitted(11, NAP, 2, None, 3)]
  }

  lemma RunAppends(events: seq<Event>, e: Event)
    ensures Run(events + [e]) == Scheduler.Apply(Run(events), e)
  {
    assert (events + [e])[..|events|] == events;
  }

  function IdleAt(seen: Time): Worker { Worker(true, {Sleep}, seen, None, None, None) }

  function AfterTwo(): Tables {
    Tables(map[10 := NewJob(NAP, 0, None, 3)], map[1 := IdleAt(0), 2 := IdleAt(0)])
  }

  lemma ReachesTwo()
    ensures Run(TwoWorkers()) == AfterTwo()
  {
    hide Run;
    var e := TwoWorkers();
    assert Run([]) == Tables(map[], map[]) by { NothingRun(); }
    RunAppends([], e[0]);
    RunAppends([e[0]], e[1]);
    RunAppends([e[0], e[1]], e[2]);
    RunAppends([e[0], e[1], e[2]], e[3]);
    RunAppends([e[0], e[1], e[2], e[3]], e[4]);
    assert [] + [e[0]] == [e[0]] && [e[0]] + [e[1]] == [e[0], e[1]] && [e[0], e[1]] + [e[2]] == [e[0], e[1], e[2]];
    assert [e[0], e[1], e[2]] + [e[3]] == [e[0], e[1], e[2], e[3]] && [e[0], e[1], e[2], e[3]] + [e[4]] == e;
  }

  lemma NothingRun()
    ensures Run([]) == Tables(map[], map[])
  {
  }

  function AfterClaim(): Tables {
    Tables(map[10 := Started(NewJob(NAP, 0, None, 3), CallOf(1, 1))],
           map[1 := IdleAt(1).(current := Some(10)), 2 := IdleAt(0)])
  }

  lemma ReachesClaim()
    ensures Scheduler.Apply(AfterTwo(), Claimed(CallOf(1, 1))) == AfterClaim()
  {
    hide Claim;
    var c := CallOf(1, 1);
    var u := Seen(AfterTwo(), c);
    ClaimExactly(AfterTwo(), c);
    assert u.jobs == AfterTwo().jobs && u.workers == map[1 := IdleAt(1), 2 := IdleAt(0)];
    assert MayTake(u, c, 10);
  }

  function AfterHiding(): Tables {
    Tables(map[10 := AfterClaim().jobs[10], 11 := NewJob(NAP, 2, None, 3)], map[1 := IdleAt(2), 2 := IdleAt(0)])
  }

  lemma ReachesHiding()
    ensures Run(OneHides()) == AfterHiding()
  {
    hide Run, Claim;
    ReachesTwo();
    ReachesClaim();
    var first, second := TwoWorkers(), TwoWorkers() + [Claimed(CallOf(1, 1))];
    RunAppends(first, Claimed(CallOf(1, 1)));
    RunAppends(second, Heard(1, {Sleep}, 2, 20, None, None));
    RunAppends(second + [Heard(1, {Sleep}, 2, 20, None, None)], Submitted(11, NAP, 2, None, 3));
  }

  lemma OtherIsPreferred()
    ensures Preferred(NAP, AfterHiding().workers, 0) == Some(1)
  {
    PreferredIsBestFit(NAP, AfterHiding().workers, 0, 1);
    hide Preferred;
    assert BestFit(NAP, AfterHiding().workers, 0, 1);
  }

  lemma SentAwayEmpty(at: Time)
    requires 2 <= at < 20
    ensures Claim(AfterHiding(), CallOf(2, at)).1.None?
    ensures Claim(AfterHiding(), CallOf(2, at)).0.jobs == AfterHiding().jobs
  {
    hide Claim;
    var t, c := AfterHiding(), CallOf(2, at);
    var u := Seen(t, c);
    ClaimExactly(t, c);
    assert u.jobs == t.jobs && u.workers == map[1 := IdleAt(2), 2 := IdleAt(at)];
    assert Outranks(NAP, 1, u.workers[1], 2, u.workers[2]) && Fits(NAP, 1, u.workers[1], 0);
  }

  /** Reached from an empty table: a job is queued, a worker that fits it is enabled, fresh and
      idle, and every claim it makes until the other worker's lease ends is sent away empty,
      because the other one, at work on its own job, is preferred. */
  lemma IdleWorkerStarves(at: Time)
    requires 2 <= at < 20
    ensures var t := Run(OneHides()); var c := CallOf(2, at);
            && 11 in t.jobs && t.jobs[11].status.Queued? && 2 in t.workers
            && Fits(t.jobs[11].request, 2, t.workers[2], Cutoff(c)) && !Occupied(t, 2)
            && Occupied(t, 1) && Preferred(t.jobs[11].request, t.workers, Cutoff(c)) == Some(1)
            && Claim(t, c).1.None? && Claim(t, c).0.jobs == t.jobs
  {
    hide Run, Claim, Preferred;
    ReachesHiding();
    OtherIsPreferred();
    SentAwayEmpty(at);
    assert RunsOn(AfterHiding().jobs, 10, 1);
  }

  // ---------------------------------------------------------------- recovery

  predicate Cancelling(j: Job, now: Time) { Expired(j, now) && j.cancelRequested }
  predicate Exhausted(j: Job, now: Time) { Expired(j, now) && !j.cancelRequested && j.maxAttempts <= j.attempt }
  predicate Retriable(j: Job, now: Time) { Expired(j, now) && !j.cancelRequested && j.attempt < j.maxAttempts }

  /** Recovery splits exactly the expired jobs three ways and leaves every other job alone;
      none of them keeps a lease, and no worker still points at one. */
  lemma RecoveryPartitions(t: Tables, now: Time, id: JobId)
    requires Inv(t) && id in t.jobs
    ensures var j := t.jobs[id]; var j' := Recover(t, now).jobs[id];
            && (Expired(j, now) <==> Cancelling(j, now) || Exhausted(j, now) || Retriable(j, now))
            && (Expired(j, now) <==> j' != j)
            && (Cancelling(j, now) <==> j' != j && j'.status.Failed? && j'.failure == Some(CancelledByUser))
            && (Exhausted(j, now) <==> j' != j && j'.status.Failed? && j'.failure == Some(WorkerLost))
            && (Retriable(j, now) <==> j' != j && j'.status.Queued? && j'.attempt == j.attempt)
            && (Expired(j, now) ==> j'.token.None? && j'.expires.None?)
    ensures Expired(t.jobs[id], now) ==> forall w | w in t.workers :: Recover(t, now).workers[w].current != Some(id)
  {
    JobOf(t, id);
    if Expired(t.jobs[id], now) {
      RecoverKeepsInv(t, now);
      forall w | w in t.workers && Recover(t, now).workers[w].current.Some?
        ensures Live(t.jobs[Recover(t, now).workers[w].current.value], w, now)
      {
        assert RunsOn(Recover(t, now).jobs, Recover(t, now).workers[w].current.value, w);
      }
    }
  }

  /** A worker that loses its job's lease keeps everything else about it. */
  lemma RecoveryClearsOnlyPointers(t: Tables, now: Time, w: WorkerId)
    requires Inv(t) && w in t.workers
    ensures var x := t.workers[w]; var y := Recover(t, now).workers[w];
            && y == x.(current := y.current)
            && (y.current == x.current || y.current.None?)
            && (x.current.Some? && !Expired(t.jobs[x.current.value], now) ==> y.current == x.current)
  {
    if t.workers[w].current.Some? && LostLease(t.jobs, w, now) {
      var id :| id in t.jobs && Expired(t.jobs[id], now) && t.jobs[id].worker == Some(w);
      assert RunsOn(t.jobs, id, w);
    }
  }

  // ---------------------------------------------------------------- authority

  /** Publishing output needs exactly the authority completing needs: both are refused or
      both granted, at every instant, and no other worker or token is authorized then. */
  lemma AuthorityMatchesCompletion(t: Tables, id: JobId, w: WorkerId, k: Token, result: nat, now: Time)
    requires Inv(t)
    ensures Authorized(t, id, w, k, now) <==> MayFinish(t, id, w, k, Done(result), now)
    ensures Authorized(t, id, w, k, now) <==>
              id in t.jobs && Finish(t, id, w, k, Done(result), now).jobs[id].status.Completed? && t.jobs[id].status.Running?
    ensures forall w', k' | Authorized(t, id, w, k, now) && Authorized(t, id, w', k', now) :: w' == w && k' == k
  {
  }
}
