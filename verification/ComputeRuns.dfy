/** Submitting app runs (app/app_compute.py with `add_group` of app/repository.py and
    `release_job_uploads` of app/job_http.py): staging reservations that become runs, under
    concurrent submitters, job transitions, upload releases, crashes and restarts. */
module ComputeRuns {
  import opened Wrappers
  import opened Scheduler
  import opened SchedulerInvariant
  import opened SchedulerRuns
  import ComputeInputs

  type Id = nat
  type File = nat

  const MAX_OUTSTANDING_RUNS := 4
  const MAX_OWNER_OUTSTANDING_RUNS := 2

  type Owner = ComputeInputs.Owner

  /** What a submission key is unique for in app_runs. */
  datatype RunKey = RunKey(owner: Owner, key: nat)

  datatype AppRun = AppRun(group: Id, payload: nat, jobs: set<JobId>, origin: Id)

  /** A row of app_staging_reservations. */
  datatype Reservation = Reservation(owner: Owner, paths: set<File>)

  /** A `submit` call in progress: copying its files, or in its finally block. */
  datatype Submission = Submission(
    key: RunKey, payload: nat, paths: set<File>, staged: set<File>, cleaning: bool)

  /** The staged files a job of a run reads, and the reservation they came from. */
  datatype Uploads = Uploads(origin: Id, files: set<File>)

  datatype Answer = Got(group: Id) | Conflict
  datatype Reply = Reply(key: RunKey, payload: nat, answer: Answer)

  /** `doomed` are files a release decided to unlink and has not yet. `home`, `issued`,
      `consumed` and `replies` only record what happened: which reservation a file was
      chosen for, which reservations there were, which became runs, what callers were told. */
  datatype State = State(
    tables: Tables, reservations: map<Id, Reservation>, runs: map<RunKey, AppRun>, uploads: map<JobId, Uploads>,
    submissions: map<Id, Submission>, files: set<File>, doomed: set<File>, starting: bool,
    home: map<File, Id>, issued: set<Id>, consumed: set<Id>, replies: seq<Reply>)

  // ---------------------------------------------------------------- what the caps count

  predicate Open(t: Tables, id: JobId) { id in t.jobs && !Terminal(t.jobs[id]) }

  predicate Unfinished(t: Tables, run: AppRun) { exists j | j in run.jobs :: Open(t, j) }

  function UnfinishedRuns(t: Tables, runs: map<RunKey, AppRun>): set<RunKey> {
    set k | k in runs && Unfinished(t, runs[k])
  }

  function OfOwner(runs: set<RunKey>, owner: Owner): set<RunKey> { set k | k in runs && k.owner == owner }

  function ReservedBy(reservations: map<Id, Reservation>, owner: Owner): set<Id> {
    set id | id in reservations && reservations[id].owner == owner
  }

  function Outstanding(reservations: map<Id, Reservation>, unfinished: set<RunKey>): nat {
    |reservations.Keys| + |unfinished|
  }

  function OutstandingOf(reservations: map<Id, Reservation>, unfinished: set<RunKey>, owner: Owner): nat {
    |ReservedBy(reservations, owner)| + |OfOwner(unfinished, owner)|
  }

  ghost predicate CapsOk(reservations: map<Id, Reservation>, unfinished: set<RunKey>) {
    && Outstanding(reservations, unfinished) <= MAX_OUTSTANDING_RUNS
    && forall owner :: OutstandingOf(reservations, unfinished, owner) <= MAX_OWNER_OUTSTANDING_RUNS
  }

  /** A submission may reserve: both counts are below their caps. */
  predicate Capacity(s: State, owner: Owner) {
    var unfinished := UnfinishedRuns(s.tables, s.runs);
    && Outstanding(s.reservations, unfinished) < MAX_OUTSTANDING_RUNS
    && OutstandingOf(s.reservations, unfinished, owner) < MAX_OWNER_OUTSTANDING_RUNS
  }

  /** A file some job still to be finished reads. */
  predicate Needed(t: Tables, uploads: map<JobId, Uploads>, f: File) {
    exists j | j in uploads :: f in uploads[j].files && Open(t, j)
  }

  // ---------------------------------------------------------------- submitting

  function Answered(s: State, key: RunKey, payload: nat): Reply
    requires key in s.runs
  {
    Reply(key, payload, if s.runs[key].payload == payload then Got(s.runs[key].group) else Conflict)
  }

  /** The transaction that replays a known key, refuses for capacity, or reserves. */
  function Begin(s: State, id: Id, key: RunKey, payload: nat, paths: set<File>): State {
    if s.starting || id in s.issued || !(paths !! s.home.Keys) then s
    else if key in s.runs then s.(replies := s.replies + [Answered(s, key, payload)])
    else if !Capacity(s, key.owner) then s
    else
      s.(reservations := s.reservations[id := Reservation(key.owner, paths)],
         submissions := s.submissions[id := Submission(key, payload, paths, {}, false)],
         home := Assigned(s.home, paths, id), issued := s.issued + {id})
  }

  function Assigned(home: map<File, Id>, paths: set<File>, id: Id): map<File, Id> {
    home + (map f | f in paths :: id)
  }

  /** Copying one input, or the project, to its staged path. */
  function Stage(s: State, id: Id, f: File): State {
    if id in s.submissions && !s.submissions[id].cleaning && f in s.submissions[id].paths
    then s.(files := s.files + {f},
            submissions := s.submissions[id := s.submissions[id].(staged := s.submissions[id].staged + {f})])
    else s
  }

  function GiveUp(s: State, id: Id): State {
    if id in s.submissions then s.(submissions := s.submissions[id := s.submissions[id].(cleaning := true)]) else s
  }

  /** The jobs `add_group` inserts, each with the staged files it reads. */
  datatype Task = Task(id: JobId, request: Request, files: set<File>)

  predicate NewTasks(s: State, id: Id, tasks: seq<Task>)
    requires id in s.submissions
  {
    && (forall i | 0 <= i < |tasks| :: tasks[i].id !in s.tables.jobs && tasks[i].id !in s.uploads)
    && (forall i | 0 <= i < |tasks| :: tasks[i].files <= s.submissions[id].paths)
    && (forall i, j | 0 <= i < j < |tasks| :: tasks[i].id != tasks[j].id)
  }

  function TaskIds(tasks: seq<Task>): set<JobId> { set i | 0 <= i < |tasks| :: tasks[i].id }

  function InsertJobs(jobs: map<JobId, Job>, tasks: seq<Task>, at: Time, max: Positive): map<JobId, Job> {
    if tasks == [] then jobs
    else
      var n := |tasks| - 1;
      InsertJobs(jobs, tasks[..n], at, max)[tasks[n].id := NewJob(tasks[n].request, at, Some(n), max)]
  }

  function InsertUploads(uploads: map<JobId, Uploads>, origin: Id, tasks: seq<Task>): map<JobId, Uploads> {
    if tasks == [] then uploads
    else
      var n := |tasks| - 1;
      InsertUploads(uploads, origin, tasks[..n])[tasks[n].id := Uploads(origin, tasks[n].files)]
  }

  function Tell(s: State, reply: Reply): State { s.(replies := s.replies + [reply]) }

  /** A replay gives the caller's own files and reservation up within its transaction. */
  function DropOwn(s: State, id: Id): State
    requires id in s.reservations
  {
    s.(files := s.files - s.reservations[id].paths, reservations := s.reservations - {id})
  }

  /** `add_group` for an app: replay under the caller's own reservation, refuse another
      payload, or swap the reservation for a run with its jobs. Otherwise it raises, and the
      caller's finally block follows. */
  function AddGroup(s: State, id: Id, group: Id, tasks: seq<Task>, at: Time, max: Positive): State {
    if id !in s.submissions || s.submissions[id].cleaning || s.submissions[id].staged != s.submissions[id].paths ||
       !NewTasks(s, id, tasks) then s
    else
      var sub := s.submissions[id];
      var owned := id in s.reservations && s.reservations[id].owner == sub.key.owner;
      if sub.key in s.runs then
        var told := Tell(GiveUp(s, id), Answered(s, sub.key, sub.payload));
        if s.runs[sub.key].payload == sub.payload && owned then DropOwn(told, id) else told
      else if !owned then GiveUp(s, id)
      else
        s.(tables := s.tables.(jobs := InsertJobs(s.tables.jobs, tasks, at, max)),
           uploads := InsertUploads(s.uploads, id, tasks),
           runs := s.runs[sub.key := AppRun(group, sub.payload, TaskIds(tasks), id)],
           reservations := s.reservations - {id}, submissions := s.submissions - {id},
           consumed := s.consumed + {id}, replies := s.replies + [Reply(sub.key, sub.payload, Got(group))])
  }

  /** The finally block: every own path, then the own reservation. */
  function CleanFile(s: State, id: Id, f: File): State {
    if id in s.submissions && s.submissions[id].cleaning && f in s.submissions[id].paths
    then s.(files := s.files - {f}) else s
  }

  function CleanDone(s: State, id: Id): State {
    if id in s.submissions && s.submissions[id].cleaning && s.submissions[id].paths !! s.files
    then s.(reservations := s.reservations - {id}, submissions := s.submissions - {id}) else s
  }

  // ---------------------------------------------------------------- jobs and their uploads

  /** Any scheduler transaction: claims, heartbeats, cancellations, endings, recovery. */
  ghost function JobEvent(s: State, e: Event): State {
    if e.Submitted? && e.id in s.uploads then s else s.(tables := Scheduler.Apply(s.tables, e))
  }

  /** `release_job_uploads` reads which of an ended job's files no unfinished job needs... */
  function Release(s: State, id: JobId): State {
    if id !in s.tables.jobs || Open(s.tables, id) || id !in s.uploads then s
    else s.(doomed := s.doomed + (set f | f in s.uploads[id].files && !Needed(s.tables, s.uploads, f)))
  }

  /** ... and unlinks them one by one. */
  function Unlink(s: State, f: File): State {
    if f in s.doomed then s.(files := s.files - {f}) else s
  }

  // ---------------------------------------------------------------- crash and startup

  function Crash(s: State): State { s.(submissions := map[], doomed := {}, starting := true) }

  predicate Reserved(s: State, f: File) { exists id | id in s.reservations :: f in s.reservations[id].paths }

  function ReconcileFile(s: State, f: File): State {
    if s.starting && Reserved(s, f) then s.(files := s.files - {f}) else s
  }

  function ReconcileCommit(s: State): State {
    if s.starting && (forall f | f in s.files :: !Reserved(s, f)) then s.(reservations := map[], starting := false) else s
  }

  datatype Step =
    | DoBegin(id: Id, key: RunKey, payload: nat, paths: set<File>)
    | DoStage(id: Id, file: File)
    | DoGiveUp(id: Id)
    | DoAddGroup(id: Id, group: Id, tasks: seq<Task>, at: Time, max: Positive)
    | DoCleanFile(id: Id, file: File)
    | DoCleanDone(id: Id)
    | DoJobEvent(event: Event)
    | DoRelease(job: JobId)
    | DoUnlink(file: File)
    | DoCrash
    | DoReconcileFile(file: File)
    | DoReconcileCommit

  ghost function Apply(s: State, step: Step): State {
    match step
    case DoBegin(id, key, payload, paths) => Begin(s, id, key, payload, paths)
    case DoStage(id, f) => Stage(s, id, f)
    case DoGiveUp(id) => GiveUp(s, id)
    case DoAddGroup(id, group, tasks, at, max) => AddGroup(s, id, group, tasks, at, max)
    case DoCleanFile(id, f) => CleanFile(s, id, f)
    case DoCleanDone(id) => CleanDone(s, id)
    case DoJobEvent(e) => JobEvent(s, e)
    case DoRelease(job) => Release(s, job)
    case DoUnlink(f) => Unlink(s, f)
    case DoCrash => Crash(s)
    case DoReconcileFile(f) => ReconcileFile(s, f)
    case DoReconcileCommit => ReconcileCommit(s)
  }

  ghost function Execution(steps: seq<Step>): State {
    if steps == [] then
      State(Tables(map[], map[]), map[], map[], map[], map[], {}, {}, false, map[], {}, {}, [])
    else Apply(Execution(steps[..|steps| - 1]), steps[|steps| - 1])
  }
}
