/** The job and worker tables (app/repository.py) and the transactions over them, as
    functions on values. `JobRepository` carries out the same transactions in place. */
module Scheduler {
  import opened Wrappers

  type JobId = nat
  type WorkerId = nat
  type Token = nat
  type Time = int
  type Positive = n: nat | 1 <= n witness 1

  datatype JobType = Sleep | DatasetScript | PythonBatch | Batch

  datatype Failure =
    ExecutionError | InfrastructureError | MemoryLimitExceeded | TimedOut | WorkerLost | CancelledByUser

  datatype Status = Queued | Running | Completed | Failed

  /** `payload` stands for the name and the parameters nothing here reads. */
  datatype Request = Request(kind: JobType, cpu: real, memory: int, target: Option<WorkerId>, payload: nat)

  datatype Job = Job(
    request: Request, createdAt: Time, taskIndex: Option<nat>, maxAttempts: Positive,
    status: Status, attempt: nat, cancelRequested: bool, worker: Option<WorkerId>, token: Option<Token>,
    expires: Option<Time>, startedAt: Option<Time>, finishedAt: Option<Time>, result: Option<nat>,
    failure: Option<Failure>)

  datatype Worker = Worker(
    enabled: bool, supported: set<JobType>, lastSeen: Time, current: Option<JobId>,
    cpu: Option<real>, memory: Option<int>)

  datatype Tables = Tables(jobs: map<JobId, Job>, workers: map<WorkerId, Worker>)

  // ---------------------------------------------------------------- ordering

  /** ORDER BY and min() both compare tuples that end in the row's own identity. */
  datatype Key = Key(first: int, second: real, id: nat)

  predicate Before(x: Key, y: Key) {
    || x.first < y.first
    || (x.first == y.first && x.second < y.second)
    || (x.first == y.first && x.second == y.second && x.id < y.id)
  }

  predicate IsLeast(keys: map<nat, Key>, r: nat) {
    r in keys && forall k | k in keys && k != r :: Before(keys[r], keys[k])
  }

  predicate Named(keys: map<nat, Key>) { forall k | k in keys :: keys[k].id == k }

  ghost function Least(keys: map<nat, Key>): (r: nat)
    requires keys != map[] && Named(keys)
    ensures IsLeast(keys, r)
    decreases |keys|
  {
    var x :| x in keys;
    var rest := keys - {x};
    assert forall k | k in keys && k != x :: k in rest;
    if rest == map[] then x
    else
      var r := Least(rest);
      if Before(keys[x], keys[r]) then x else r
  }

  lemma LeastIsUnique(keys: map<nat, Key>, r: nat)
    requires keys != map[] && Named(keys) && IsLeast(keys, r)
    ensures Least(keys) == r
  {
  }

  // ---------------------------------------------------------------- placement

  predicate NeedsCapacity(k: JobType) { k.PythonBatch? || k.Batch? }

  predicate HasCapacity(r: Request, w: Worker) {
    NeedsCapacity(r.kind) ==> w.cpu.Some? && w.memory.Some? && r.cpu <= w.cpu.value && r.memory <= w.memory.value
  }

  /** `_preferred_worker_id`'s filter: enabled, fresh, idle, targeted, able and large enough. */
  predicate Fits(r: Request, id: WorkerId, w: Worker, cutoff: Time) {
    && w.enabled && cutoff <= w.lastSeen && w.current.None?
    && (r.target.Some? ==> r.target.value == id)
    && r.kind in w.supported && HasCapacity(r, w)
  }

  /** Best fit by memory, CPU and identity for sized work, by identity otherwise. */
  function WorkerKey(r: Request, id: WorkerId, w: Worker): Key {
    if NeedsCapacity(r.kind)
    then Key(if w.memory.Some? then w.memory.value else 0, if w.cpu.Some? then w.cpu.value else 0.0, id)
    else Key(0, 0.0, id)
  }

  function Candidates(r: Request, workers: map<WorkerId, Worker>, cutoff: Time): map<nat, Key> {
    map id | id in workers && Fits(r, id, workers[id], cutoff) :: WorkerKey(r, id, workers[id])
  }

  ghost function Preferred(r: Request, workers: map<WorkerId, Worker>, cutoff: Time): Option<WorkerId> {
    var c := Candidates(r, workers, cutoff);
    if c == map[] then None else Some(Least(c))
  }

  // ---------------------------------------------------------------- recovery

  predicate Expired(j: Job, now: Time) {
    j.status.Running? && j.expires.Some? && j.expires.value <= now
  }

  function Unleased(j: Job): Job { j.(token := None, expires := None) }

  function RecoveredJob(j: Job, now: Time): Job {
    if !Expired(j, now) then j
    else if j.cancelRequested then
      Unleased(j).(status := Failed, finishedAt := Some(now), failure := Some(CancelledByUser))
    else if j.maxAttempts <= j.attempt then
      Unleased(j).(status := Failed, finishedAt := Some(now), failure := Some(WorkerLost))
    else
      Unleased(j).(status := Queued, worker := None, startedAt := None, failure := None)
  }

  predicate LostLease(jobs: map<JobId, Job>, w: WorkerId, now: Time) {
    exists id | id in jobs :: Expired(jobs[id], now) && jobs[id].worker == Some(w)
  }

  function RecoveredJobs(jobs: map<JobId, Job>, now: Time): map<JobId, Job> {
    map id | id in jobs :: RecoveredJob(jobs[id], now)
  }

  function Pointerless(w: Worker): Worker { w.(current := None) }

  function RecoveredWorkers(t: Tables, now: Time): map<WorkerId, Worker> {
    map w | w in t.workers :: if LostLease(t.jobs, w, now) then Pointerless(t.workers[w]) else t.workers[w]
  }

  function Recover(t: Tables, now: Time): Tables {
    Tables(RecoveredJobs(t.jobs, now), RecoveredWorkers(t, now))
  }

  function ExpiredJobs(jobs: map<JobId, Job>, now: Time): set<JobId> {
    set id | id in jobs && Expired(jobs[id], now)
  }

  // ---------------------------------------------------------------- transactions

  function NewJob(r: Request, createdAt: Time, taskIndex: Option<nat>, maxAttempts: Positive): Job {
    Job(r, createdAt, taskIndex, maxAttempts, Queued, 0, false, None, None, None, None, None, None, None)
  }

  function Add(t: Tables, id: JobId, j: Job): Tables {
    if id in t.jobs then t else t.(jobs := t.jobs[id := j])
  }

  /** `_upsert_worker`: a new worker is registered disabled and without capacity. */
  function Upsert(workers: map<WorkerId, Worker>, id: WorkerId, supported: set<JobType>, seen: Time, current: Option<JobId>)
    : map<WorkerId, Worker>
  {
    workers[id := if id in workers
                  then workers[id].(supported := supported, lastSeen := seen, current := current)
                  else Worker(false, supported, seen, current, None, None)]
  }

  datatype Call = Call(
    worker: WorkerId, supported: set<JobType>, at: Time, token: Token, expires: Time, staleBefore: Option<Time>)

  function Cutoff(c: Call): Time { if c.staleBefore.Some? then c.staleBefore.value else c.at - 90 }

  predicate Live(j: Job, w: WorkerId, now: Time) {
    j.status.Running? && j.worker == Some(w) && j.expires.Some? && now < j.expires.value
  }

  /** Order by start time; at most one row is live, so ties never matter. */
  function LiveKeys(jobs: map<JobId, Job>, w: WorkerId, now: Time): map<nat, Key> {
    map id | id in jobs && Live(jobs[id], w, now) ::
      Key(if jobs[id].startedAt.Some? then jobs[id].startedAt.value else 0, 0.0, id)
  }

  predicate Offered(j: Job, c: Call) {
    j.status.Queued? && j.request.kind in c.supported && (j.request.target.Some? ==> j.request.target.value == c.worker)
  }

  function JobKey(id: JobId, j: Job): Key {
    Key(j.createdAt, if j.taskIndex.Some? then j.taskIndex.value as real else -1.0, id)
  }

  /** The queued jobs a claim may take, in the order it tries them. */
  ghost function Wanted(t: Tables, c: Call): map<nat, Key> {
    map id | id in t.jobs && Offered(t.jobs[id], c) &&
             Preferred(t.jobs[id].request, t.workers, Cutoff(c)) == Some(c.worker) :: JobKey(id, t.jobs[id])
  }

  function Started(j: Job, c: Call): Job {
    j.(status := Running, worker := Some(c.worker), startedAt := Some(c.at), attempt := j.attempt + 1,
       token := Some(c.token), expires := Some(c.expires), finishedAt := None, result := None, failure := None)
  }

  function PointAt(workers: map<WorkerId, Worker>, w: WorkerId, j: Option<JobId>): map<WorkerId, Worker> {
    if w in workers then workers[w := workers[w].(current := j)] else workers
  }

  function Seen(t: Tables, c: Call): Tables {
    var r := Recover(t, c.at);
    r.(workers := Upsert(r.workers, c.worker, c.supported, c.at, None))
  }

  /** `claim`: recover, note the worker, and hand out its live job or the next one it may take. */
  ghost function Claim(t: Tables, c: Call): (Tables, Option<JobId>) {
    var u := Seen(t, c);
    if c.worker !in t.workers || !t.workers[c.worker].enabled then (u, None)
    else if LiveKeys(u.jobs, c.worker, c.at) != map[] then
      var id := Least(LiveKeys(u.jobs, c.worker, c.at));
      (u.(workers := PointAt(u.workers, c.worker, Some(id))), Some(id))
    else if Wanted(u, c) == map[] then (u, None)
    else
      var id := Least(Wanted(u, c));
      (Tables(u.jobs[id := Started(u.jobs[id], c)], PointAt(u.workers, c.worker, Some(id))), Some(id))
  }

  /** The guard every fenced UPDATE carries: the row, the state, the holder and a live lease. */
  predicate Holds(t: Tables, id: JobId, w: WorkerId, token: Token, now: Time) {
    id in t.jobs && Live(t.jobs[id], w, now) && t.jobs[id].token == Some(token)
  }

  /** `heartbeat`: None when the lease is gone, else whether cancellation was requested. */
  function Heartbeat(t: Tables, w: WorkerId, supported: set<JobType>, now: Time, expires: Time,
                     current: Option<JobId>, token: Option<Token>): (Tables, Option<bool>)
  {
    if current.Some? && token.Some? then
      if !Holds(t, current.value, w, token.value, now) then (t, None)
      else
        (Tables(t.jobs[current.value := t.jobs[current.value].(expires := Some(expires))],
                Upsert(t.workers, w, supported, now, current)),
         Some(t.jobs[current.value].cancelRequested))
    else (t.(workers := Upsert(t.workers, w, supported, now, None)), Some(false))
  }

  /** `cancel`: queued work ends at once, running work is only asked to stop. */
  function Cancel(t: Tables, id: JobId, now: Time): Tables {
    if id !in t.jobs then t
    else
      var j := t.jobs[id];
      match j.status
      case Queued =>
        t.(jobs := t.jobs[id := j.(status := Failed, cancelRequested := true, failure := Some(CancelledByUser),
                                   finishedAt := Some(now))])
      case Running => t.(jobs := t.jobs[id := j.(cancelRequested := true)])
      case Completed => t
      case Failed => t
  }

  datatype Ending = Done(result: nat) | Gone(failure: Failure)

  predicate MayFinish(t: Tables, id: JobId, w: WorkerId, token: Token, e: Ending, now: Time) {
    Holds(t, id, w, token, now) && (e.Gone? || !t.jobs[id].cancelRequested)
  }

  function Finished(j: Job, e: Ending, now: Time): Job {
    Unleased(j).(status := if e.Done? then Completed else Failed, finishedAt := Some(now),
                 result := if e.Done? then Some(e.result) else None,
                 failure := if e.Done? then None else Some(e.failure))
  }

  /** `_finish`: complete or fail the job, if the caller still holds it. */
  function Finish(t: Tables, id: JobId, w: WorkerId, token: Token, e: Ending, now: Time): Tables {
    if !MayFinish(t, id, w, token, e, now) then t
    else Tables(t.jobs[id := Finished(t.jobs[id], e, now)], PointAt(t.workers, w, None))
  }

  function SetEnabled(t: Tables, w: WorkerId, enabled: bool): Tables {
    if w in t.workers then t.(workers := t.workers[w := t.workers[w].(enabled := enabled)]) else t
  }

  function SetCapacity(t: Tables, w: WorkerId, cpu: real, memory: int): Tables {
    if w in t.workers then t.(workers := t.workers[w := t.workers[w].(cpu := Some(cpu), memory := Some(memory))]) else t
  }

  /** `authorize_lease`: may this worker publish output of the job now? */
  predicate Authorized(t: Tables, id: JobId, w: WorkerId, token: Token, now: Time) {
    && id in t.jobs && t.jobs[id].status.Running? && t.jobs[id].worker == Some(w)
    && t.jobs[id].token == Some(token) && t.jobs[id].expires.Some? && now < t.jobs[id].expires.value
    && !t.jobs[id].cancelRequested
  }

  // ---------------------------------------------------------------- runs

  datatype Event =
    | Submitted(id: JobId, request: Request, createdAt: Time, taskIndex: Option<nat>, maxAttempts: Positive)
    | Claimed(call: Call)
    | Heard(worker: WorkerId, supported: set<JobType>, at: Time, expires: Time, current: Option<JobId>, held: Option<Token>)
    | Cancelled(id: JobId, at: Time)
    | Ended(id: JobId, worker: WorkerId, token: Token, ending: Ending, at: Time)
    | Swept(at: Time)
    | Enabled(worker: WorkerId, enabled: bool)
    | Sized(worker: WorkerId, cpu: real, memory: int)

  ghost function Apply(t: Tables, e: Event): Tables {
    match e
    case Submitted(id, r, at, index, max) => Add(t, id, NewJob(r, at, index, max))
    case Claimed(c) => Claim(t, c).0
    case Heard(w, supported, at, expires, current, held) => Heartbeat(t, w, supported, at, expires, current, held).0
    case Cancelled(id, at) => Cancel(t, id, at)
    case Ended(id, w, token, ending, at) => Finish(t, id, w, token, ending, at)
    case Swept(at) => Recover(t, at)
    case Enabled(w, enabled) => SetEnabled(t, w, enabled)
    case Sized(w, cpu, memory) => SetCapacity(t, w, cpu, memory)
  }

  /** The tables after any sequence of transactions, clocks as they come. */
  ghost function Run(events: seq<Event>): Tables {
    if events == [] then Tables(map[], map[])
    else Apply(Run(events[..|events| - 1]), events[|events| - 1])
  }
}
