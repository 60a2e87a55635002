/** `JobService` (app/service.py): what callers are told about submitting, cancelling and
    finishing jobs, over the repository's transactions. */
module JobServices {
  import opened Wrappers
  import opened Scheduler
  import opened SchedulerInvariant
  import opened SchedulerRuns
  import opened JobRepositories

  datatype Created = Stored(id: JobId) | UnknownWorker | NoCapacity | KeyUsed
  datatype Changed = Accepted | NotFound | Conflict

  /** The kinds of work whose result `complete` recognises. */
  predicate ResultMatches(kind: JobType, result: JobType) { kind == result && !kind.DatasetScript? }

  /** `_validate_batch_capacity`'s notion of an adequate worker. */
  predicate Adequate(r: Request, id: WorkerId, w: Worker) {
    (r.target.Some? ==> r.target.value == id) && HasCapacity(r, w)
  }

  class JobService {
    const repository: JobRepository
    const maxAttempts: Positive

    constructor (r: JobRepository, max: Positive)
      ensures repository == r && maxAttempts == max
    {
      repository, maxAttempts := r, max;
    }

    /** Some registered worker, or the targeted one, must be configured large enough. */
    method ValidateBatchCapacity(r: Request) returns (adequate: bool)
      ensures adequate <==> !NeedsCapacity(r.kind) ||
                            exists w | w in repository.workers :: Adequate(r, w, repository.workers[w])
    {
      if !NeedsCapacity(r.kind) {
        return true;
      }
      var rest := repository.workers.Keys;
      while rest != {}
        invariant rest <= repository.workers.Keys
        invariant forall w | w in repository.workers && w !in rest :: !Adequate(r, w, repository.workers[w])
        decreases |rest|
      {
        var w :| w in rest;
        rest := rest - {w};
        var worker := repository.workers[w];
        if (r.target.None? || r.target.value == w) && worker.cpu.Some? && worker.memory.Some? &&
           worker.cpu.value >= r.cpu && worker.memory.value >= r.memory
        {
          return true;
        }
      }
      return false;
    }

    /** `create` of a job under a fresh identity. A key the owner used before returns the job it
        was used for, if that is the same request, and stores nothing either way. */
    method Create(id: JobId, r: Request, now: Time, key: Option<SubmissionKey>) returns (result: Created)
      requires id !in repository.jobs && repository.Keyed()
      modifies repository
      ensures repository.Keyed()
      ensures var known := key.Some? && key.value in old(repository.keys);
              && repository.State() ==
                   (if result.Stored? && !known then Add(old(repository.State()), id, NewJob(r, now, None, maxAttempts))
                    else old(repository.State()))
              && (result.Stored? ==>
                    result.id == (if known then old(repository.keys)[key.value] else id) &&
                    repository.jobs[result.id].request == r)
              && (result.KeyUsed? ==> known && repository.jobs[old(repository.keys)[key.value]].request != r)
              && repository.keys == if result.Stored? && key.Some? then old(repository.keys)[key.value := result.id]
                                    else old(repository.keys)
      ensures result.UnknownWorker? <==> r.target.Some? && r.target.value !in old(repository.workers)
      ensures result.Stored? && NeedsCapacity(r.kind) ==>
                exists w | w in repository.workers :: Adequate(r, w, repository.workers[w])
      ensures result.NoCapacity? ==> NeedsCapacity(r.kind)
      ensures result.NoCapacity? ==> forall w | w in repository.workers :: !Adequate(r, w, repository.workers[w])
    {
      if r.target.Some? && r.target.value !in repository.workers {
        return UnknownWorker;
      }
      var adequate := ValidateBatchCapacity(r);
      if !adequate {
        return NoCapacity;
      }
      var stored := repository.AddJob(id, r, now, None, maxAttempts, key);
      return if repository.jobs[stored.value].request != r then KeyUsed else Stored(stored.value);
    }

    /** `cancel`: a terminal job refuses. `earlier` is the table as an earlier transaction of
        the same call read it. */
    method CancelJob(id: JobId, earlier: map<JobId, Job>, now: Time) returns (result: Changed)
      modifies repository
      ensures repository.State() == if result.Accepted? then Cancel(old(repository.State()), id, now)
                                    else old(repository.State())
      ensures result.Conflict? <==> id in earlier && Terminal(earlier[id])
      ensures result.Accepted? <==> id in earlier && !Terminal(earlier[id]) && id in old(repository.jobs)
    {
      if id !in earlier {
        return NotFound;
      }
      if earlier[id].status.Completed? || earlier[id].status.Failed? {
        return Conflict;
      }
      var found := repository.CancelJob(id, now);
      return if found then Accepted else NotFound;
    }

    /** `complete`: accepted exactly for a result of the job's own type, while the caller may
        still publish the job's output. `earlier` is as in `CancelJob`. */
    method Complete(id: JobId, earlier: map<JobId, Job>, w: WorkerId, token: Token, kind: JobType, output: nat,
                    now: Time)
      returns (result: Changed)
      modifies repository
      ensures result.NotFound? <==> id !in earlier
      ensures result.Accepted? <==> id in earlier && ResultMatches(earlier[id].request.kind, kind) &&
                                    Authorized(old(repository.State()), id, w, token, now)
      ensures repository.State() ==
                if result.Accepted? then Finish(old(repository.State()), id, w, token, Done(output), now)
                else old(repository.State())
    {
      if id !in earlier {
        return NotFound;
      }
      if !ResultMatches(earlier[id].request.kind, kind) {
        return Conflict;
      }
      var accepted := repository.FinishJob(id, w, token, Done(output), now);
      return if accepted then Accepted else Conflict;
    }

    /** `fail`: `asked` is the cancellation flag as an earlier transaction of the same call read
        it, which decides the failure reported. */
    method Fail(id: JobId, w: WorkerId, token: Token, failure: Failure, asked: bool, now: Time) returns (result: Changed)
      modifies repository
      ensures var e := Gone(if asked then CancelledByUser else failure);
              && repository.State() == Finish(old(repository.State()), id, w, token, e, now)
              && (result.Accepted? <==> Holds(old(repository.State()), id, w, token, now))
    {
      if id !in repository.jobs {
        return NotFound;
      }
      var accepted := repository.FinishJob(id, w, token, Gone(if asked then CancelledByUser else failure), now);
      return if accepted then Accepted else Conflict;
    }
  }

  /** A job accepted at submission is one its adequate worker fits as soon as that worker is
      enabled, fresh, idle and able: nothing else about the worker can refuse it. */
  lemma AdequateWorkersFit(r: Request, id: WorkerId, w: Worker, cutoff: Time)
    requires Adequate(r, id, w)
    ensures Fits(r, id, w, cutoff) <==>
              w.enabled && cutoff <= w.lastSeen && w.current.None? && r.kind in w.supported
  {
  }

  /** A failure is recorded with the kind its reader chose: when the job was asked to cancel
      only after the flag was read, it ends failed but not as cancelled by the user. */
  lemma FailureKindIsTheReaders(t: Tables, id: JobId, w: WorkerId, token: Token, failure: Failure, asked: bool, now: Time)
    requires Holds(t, id, w, token, now)
    ensures var j := Finish(t, id, w, token, Gone(if asked then CancelledByUser else failure), now).jobs[id];
            && j.status.Failed?
            && (j.failure == Some(CancelledByUser) <==> asked || failure.CancelledByUser?)
            && j.cancelRequested == t.jobs[id].cancelRequested
  {
  }

  /** What `cancel` answers from the table it read, against the table it then writes, with any
      transactions in between: a refusal is still right, and an acceptance that came too late
      has left the job as it ended. */
  lemma CancelAnswersFromTheReading(events: seq<Event>, more: seq<Event>, id: JobId, now: Time)
    requires id in Run(events).jobs
    ensures id in Run(events + more).jobs
    ensures var before, after := Run(events).jobs[id], Run(events + more).jobs[id];
            && (Terminal(before) ==> after == before)
            && (Cancel(Run(events + more), id, now).jobs[id] == after <==>
                  Terminal(after) || (after.status.Running? && after.cancelRequested))
  {
    RequestsStay(events, more, id);
    if Terminal(Run(events).jobs[id]) {
      TerminalIsFinal(events, more, id);
    }
  }

  /** A job's type, which `complete` reads beforehand, is the same when it writes. */
  lemma {:induction false} RequestsStay(events: seq<Event>, more: seq<Event>, id: JobId)
    requires id in Run(events).jobs
    ensures id in Run(events + more).jobs && Run(events + more).jobs[id].request == Run(events).jobs[id].request
    decreases |more|
  {
    hide Inv, Scheduler.Apply, Granted;
    if more == [] {
      assert events + more == events;
    } else {
      var k := |more| - 1;
      RequestsStay(events, more[..k], id);
      Append(events, more);
      RunInv(events + more[..k]);
      StepOfJob(Run(events + more[..k]), more[k], id);
    }
  }
}
