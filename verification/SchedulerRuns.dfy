/** Fencing, attempts and endings over whole runs of the scheduler. */
module SchedulerRuns {
  import opened Wrappers
  import opened Scheduler
  import opened SchedulerInvariant

  predicate Terminal(j: Job) { j.status.Completed? || j.status.Failed? }

  /** The job a claim newly started, rather than handed out again. */
  ghost function Granted(t: Tables, e: Event): Option<JobId> {
    if e.Claimed? && LiveKeys(Seen(t, e.call).jobs, e.call.worker, e.call.at) == map[] then Claim(t, e.call).1 else None
  }

  /** The tokens of the claims that started job `id`, oldest first. */
  ghost function Grants(events: seq<Event>, id: JobId): seq<Token> {
    if events == [] then []
    else
      var n := |events| - 1;
      Grants(events[..n], id) + (if Granted(Run(events[..n]), events[n]) == Some(id) then [events[n].call.token] else [])
  }

  // ---------------------------------------------------------------- one step

  /** How one transaction may change one job. */
  predicate JobStep(j: Job, j': Job, granted: Option<Token>) {
    && j'.request == j.request && j'.maxAttempts == j.maxAttempts
    && (Terminal(j) ==> j' == j)
    && (j.cancelRequested ==> j'.cancelRequested)
    && j'.attempt == j.attempt + (if granted.Some? then 1 else 0)
    && (j'.status.Running? ==> j'.token == if granted.Some? then granted else j.token)
    && (j'.status.Running? && granted.None? ==> j.status.Running? && j'.worker == j.worker)
  }

  function TokenOf(e: Event): Option<Token> { if e.Claimed? then Some(e.call.token) else None }

  lemma RecoveredJobStep(j: Job, now: Time)
    requires JobOk(j)
    ensures JobStep(j, RecoveredJob(j, now), None)
  {
  }

  lemma RecoverIsJobStep(t: Tables, now: Time, id: JobId)
    requires Inv(t) && id in t.jobs
    ensures id in Recover(t, now).jobs && JobStep(t.jobs[id], Recover(t, now).jobs[id], None)
  {
    RecoveredJobStep(t.jobs[id], now);
  }

  lemma StartedAfterRecovery(j: Job, now: Time, c: Call)
    requires JobOk(j) && RecoveredJob(j, now).status.Queued?
    ensures JobStep(j, Started(RecoveredJob(j, now), c), Some(c.token))
  {
  }

  lemma ClaimIsJobStep(t: Tables, c: Call, id: JobId)
    requires Inv(t) && id in t.jobs
    ensures id in Claim(t, c).0.jobs
    ensures JobStep(t.jobs[id], Claim(t, c).0.jobs[id], if Granted(t, Claimed(c)) == Some(id) then Some(c.token) else None)
  {
    hide Preferred, JobStep;
    RecoverIsJobStep(t, c.at, id);
    if Granted(t, Claimed(c)) == Some(id) {
      StartedAfterRecovery(t.jobs[id], c.at, c);
    }
  }

  lemma StepOfJob(t: Tables, e: Event, id: JobId)
    requires Inv(t) && id in t.jobs
    ensures id in Scheduler.Apply(t, e).jobs
    ensures JobStep(t.jobs[id], Scheduler.Apply(t, e).jobs[id], if Granted(t, e) == Some(id) then TokenOf(e) else None)
  {
    hide Claim, Recover;
    JobOf(t, id);
    match e
    case Claimed(c) => ClaimIsJobStep(t, c, id);
    case Swept(at) => RecoverIsJobStep(t, at, id);
    case Submitted(_, _, _, _, _) =>
    case Heard(_, _, _, _, _, _) =>
    case Cancelled(_, _) =>
    case Ended(_, _, _, _, _) =>
    case Enabled(_, _) =>
    case Sized(_, _, _) =>
  }

  lemma NewRowsAreFresh(t: Tables, e: Event, id: JobId)
    requires id !in t.jobs
    ensures Granted(t, e) != Some(id)
    ensures id in Scheduler.Apply(t, e).jobs ==>
              e.Submitted? && Scheduler.Apply(t, e).jobs[id].attempt == 0 && Scheduler.Apply(t, e).jobs[id].token.None?
  {
    hide Preferred;
  }

  // ---------------------------------------------------------------- attempts and the latest claim

  /** A job's attempt count is the number of claims that started it, never more than its
      maximum, and a running job holds the token of the latest of them. */
  lemma {:induction false} AttemptsCountGrants(events: seq<Event>, id: JobId)
    ensures id !in Run(events).jobs ==> Grants(events, id) == []
    ensures id in Run(events).jobs ==>
              var j := Run(events).jobs[id]; var grants := Grants(events, id);
              && |grants| == j.attempt && |grants| <= j.maxAttempts
              && (j.status.Running? ==> grants != [] && j.token == Some(grants[|grants| - 1]))
    decreases |events|
  {
    hide Inv, Scheduler.Apply, Granted;
    RunInv(events);
    if id in Run(events).jobs {
      JobOf(Run(events), id);
    }
    if events != [] {
      var n := |events| - 1;
      AttemptsCountGrants(events[..n], id);
      RunInv(events[..n]);
      if id in Run(events[..n]).jobs {
        StepOfJob(Run(events[..n]), events[n], id);
        GrantedIsClaimed(Run(events[..n]), events[n]);
      } else {
        NewRowsAreFresh(Run(events[..n]), events[n], id);
      }
    }
  }

  lemma GrantedIsClaimed(t: Tables, e: Event)
    ensures Granted(t, e).Some? ==> e.Claimed?
  {
  }

  /** Only the latest claim's token, unexpired, renews, completes or fails a job. */
  lemma OnlyLatestClaimHolds(events: seq<Event>, id: JobId, w: WorkerId, token: Token, now: Time)
    requires Holds(Run(events), id, w, token, now)
    ensures var grants := Grants(events, id);
            && grants != [] && token == grants[|grants| - 1]
            && Run(events).jobs[id].expires.value > now
  {
    AttemptsCountGrants(events, id);
  }

  // ---------------------------------------------------------------- what never changes back

  lemma Append(events: seq<Event>, more: seq<Event>)
    requires more != []
    ensures (events + more)[..|events + more| - 1] == events + more[..|more| - 1]
    ensures Run(events + more) == Scheduler.Apply(Run(events + more[..|more| - 1]), more[|more| - 1])
  {
    assert (events + more)[..|events + more| - 1] == events + more[..|more| - 1];
  }

  /** A completed or failed job never changes again, whatever happens next. */
  lemma {:induction false} TerminalIsFinal(events: seq<Event>, more: seq<Event>, id: JobId)
    requires id in Run(events).jobs && Terminal(Run(events).jobs[id])
    ensures id in Run(events + more).jobs && Run(events + more).jobs[id] == Run(events).jobs[id]
    decreases |more|
  {
    hide Inv, Scheduler.Apply, Granted;
    if more == [] {
      assert events + more == events;
    } else {
      var k := |more| - 1;
      TerminalIsFinal(events, more[..k], id);
      Append(events, more);
      RunInv(events + more[..k]);
      StepOfJob(Run(events + more[..k]), more[k], id);
    }
  }

  /** A job once asked to cancel is never completed and never queued again. */
  lemma {:induction false} CancellationSticks(events: seq<Event>, more: seq<Event>, id: JobId)
    requires id in Run(events).jobs && Run(events).jobs[id].cancelRequested
    ensures id in Run(events + more).jobs && Run(events + more).jobs[id].cancelRequested
    ensures Run(events + more).jobs[id].status.Running? || Run(events + more).jobs[id].status.Failed?
    decreases |more|
  {
    hide Inv, Scheduler.Apply, Granted;
    if more == [] {
      assert events + more == events;
    } else {
      var k := |more| - 1;
      CancellationSticks(events, more[..k], id);
      Append(events, more);
      RunInv(events + more[..k]);
      StepOfJob(Run(events + more[..k]), more[k], id);
    }
    RunInv(events + more);
    JobOf(Run(events + more), id);
  }

  // ---------------------------------------------------------------- fencing

  ghost function Issued(events: seq<Event>): set<Token> {
    if events == [] then {}
    else
      var token := TokenOf(events[|events| - 1]);
      Issued(events[..|events| - 1]) + (if token.Some? then {token.value} else {})
  }

  /** Every claim brought a token of its own, as uuid4 does. */
  ghost predicate FreshTokens(events: seq<Event>) {
    events != [] ==>
      && FreshTokens(events[..|events| - 1])
      && (TokenOf(events[|events| - 1]).Some? ==> TokenOf(events[|events| - 1]).value !in Issued(events[..|events| - 1]))
  }

  ghost predicate HeldBy(t: Tables, id: JobId, k: Token) { id in t.jobs && t.jobs[id].token == Some(k) }

  ghost predicate TokensOk(t: Tables, issued: set<Token>) {
    && (forall i, k | HeldBy(t, i, k) :: k in issued)
    && (forall i, j, k | HeldBy(t, i, k) && HeldBy(t, j, k) :: i == j)
  }

  /** A token a job holds after a step it held before, or the step's claim brought it. */
  lemma HeldOrGranted(t: Tables, e: Event, id: JobId, k: Token)
    requires Inv(t) && HeldBy(Scheduler.Apply(t, e), id, k)
    ensures HeldBy(t, id, k) || (Granted(t, e) == Some(id) && TokenOf(e) == Some(k))
  {
    hide Inv, Scheduler.Apply, Granted;
    ApplyKeepsInv(t, e);
    JobOf(Scheduler.Apply(t, e), id);
    if id in t.jobs {
      StepOfJob(t, e, id);
    } else {
      NewRowsAreFresh(t, e, id);
    }
  }

  lemma {:induction false} TokensAreDistinct(events: seq<Event>)
    requires FreshTokens(events)
    ensures TokensOk(Run(events), Issued(events))
    decreases |events|
  {
    hide Inv, Scheduler.Apply, Granted;
    if events != [] {
      var n := |events| - 1;
      var t, e := Run(events[..n]), events[n];
      TokensAreDistinct(events[..n]);
      RunInv(events[..n]);
      forall i: JobId, k: Token | HeldBy(Scheduler.Apply(t, e), i, k)
        ensures HeldBy(t, i, k) || (Granted(t, e) == Some(i) && TokenOf(e) == Some(k))
      {
        HeldOrGranted(t, e, i, k);
      }
    }
  }

  /** A token no job holds any more is never held again. */
  lemma {:induction false} SpentStaysSpent(events: seq<Event>, more: seq<Event>, k: Token)
    requires FreshTokens(events + more) && k in Issued(events)
    requires forall id :: !HeldBy(Run(events), id, k)
    ensures forall id :: !HeldBy(Run(events + more), id, k)
    ensures k in Issued(events + more)
    decreases |more|
  {
    hide Inv, Scheduler.Apply, Granted;
    if more == [] {
      assert events + more == events;
    } else {
      var n := |more| - 1;
      Append(events, more);
      SpentStaysSpent(events, more[..n], k);
      RunInv(events + more[..n]);
      forall id ensures !HeldBy(Run(events + more), id, k) {
        if HeldBy(Run(events + more), id, k) {
          HeldOrGranted(Run(events + more[..n]), more[n], id, k);
        }
      }
    }
  }

  /** Each token finishes at most one job, once: after it completed or failed one, no later
      heartbeat, completion, failure or upload is accepted under it. */
  lemma TokensFinishOnce(events: seq<Event>, e: Event, more: seq<Event>, id: JobId, w: WorkerId, now: Time)
    requires FreshTokens(events + [e] + more)
    requires e.Ended? && MayFinish(Run(events), e.id, e.worker, e.token, e.ending, e.at)
    ensures !Holds(Run(events + [e] + more), id, w, e.token, now)
    ensures !Authorized(Run(events + [e] + more), id, w, e.token, now)
  {
    hide Inv;
    var done := events + [e];
    assert done[..|done| - 1] == events;
    FreshPrefix(done, more);
    TokensAreDistinct(events);
    assert HeldBy(Run(events), e.id, e.token);
    forall x ensures !HeldBy(Run(done), x, e.token) {
      if HeldBy(Run(done), x, e.token) {
        RunInv(events);
        HeldOrGranted(Run(events), e, x, e.token);
      }
    }
    SpentStaysSpent(done, more, e.token);
    assert !HeldBy(Run(done + more), id, e.token);
  }

  lemma {:induction false} FreshPrefix(events: seq<Event>, more: seq<Event>)
    requires FreshTokens(events + more)
    ensures FreshTokens(events)
    decreases |more|
  {
    if more == [] {
      assert events + more == events;
    } else {
      assert (events + more)[..|events + more| - 1] == events + more[..|more| - 1];
      FreshPrefix(events, more[..|more| - 1]);
    }
  }
}
