/** What every step of app run submission keeps. */
module ComputeRunsInvariant {
  import opened Wrappers
  import opened Sets
  import opened Scheduler
  import opened SchedulerInvariant
  import opened SchedulerRuns
  import opened ComputeRuns

  predicate HomesOk(home: map<File, Id>, issued: set<Id>, consumed: set<Id>) {
    consumed <= issued && forall f | f in home :: home[f] in issued
  }

  /** Every staged path was chosen for one reservation, and reservations never return. */
  predicate ReservationsOk(home: map<File, Id>, issued: set<Id>, consumed: set<Id>, reservations: map<Id, Reservation>) {
    && (forall id | id in reservations :: id in issued && id !in consumed)
    && (forall id, f | id in reservations && f in reservations[id].paths :: f in home && home[f] == id)
    && (forall f | f in home && home[f] in reservations :: f in reservations[home[f]].paths)
  }

  predicate CallersOk(home: map<File, Id>, issued: set<Id>, consumed: set<Id>, submissions: map<Id, Submission>) {
    && (forall id | id in submissions :: id in issued && id !in consumed)
    && (forall id, f | id in submissions && f in submissions[id].paths :: f in home && home[f] == id)
    && (forall f | f in home && home[f] in submissions :: f in submissions[home[f]].paths)
  }

  /** A submission still staging holds its reservation and has the files it staged. */
  predicate StagingOk(reservations: map<Id, Reservation>, submissions: map<Id, Submission>, files: set<File>) {
    forall id | id in submissions ::
      && submissions[id].staged <= submissions[id].paths
      && (id in reservations ==> reservations[id] == Reservation(submissions[id].key.owner, submissions[id].paths))
      && (!submissions[id].cleaning ==> id in reservations && submissions[id].staged <= files)
      && (id !in reservations ==> submissions[id].paths !! files)
  }

  predicate StartupOk(reservations: map<Id, Reservation>, submissions: map<Id, Submission>, starting: bool) {
    if starting then submissions == map[] else reservations.Keys <= submissions.Keys
  }

  /** A run's jobs exist, and the files they read were its own reservation's. */
  predicate RunsOk(jobs: set<JobId>, runs: map<RunKey, AppRun>, consumed: set<Id>) {
    forall k | k in runs :: runs[k].jobs <= jobs && runs[k].origin in consumed
  }

  predicate UploadsOk(jobs: set<JobId>, uploads: map<JobId, Uploads>, home: map<File, Id>, consumed: set<Id>) {
    && (forall j | j in uploads :: j in jobs && uploads[j].origin in consumed)
    && (forall j, f | j in uploads && f in uploads[j].files :: f in home && home[f] == uploads[j].origin)
  }

  predicate NeededOk(t: Tables, uploads: map<JobId, Uploads>, files: set<File>, doomed: set<File>) {
    forall j, f | j in uploads && f in uploads[j].files && ComputeRuns.Open(t, j) :: f in files && f !in doomed
  }

  predicate DoomedOk(doomed: set<File>, home: map<File, Id>, consumed: set<Id>) {
    forall f | f in doomed :: f in home && home[f] in consumed
  }

  /** Every file belongs to a reservation or submission in progress, or to a run. */
  predicate FilesOk(files: set<File>, home: map<File, Id>, consumed: set<Id>,
                    reservations: map<Id, Reservation>, submissions: map<Id, Submission>)
  {
    forall f | f in files :: f in home && (home[f] in consumed || home[f] in reservations || home[f] in submissions)
  }

  predicate RepliesOk(runs: map<RunKey, AppRun>, replies: seq<Reply>) {
    forall r | r in replies ::
      && r.key in runs
      && (match r.answer
          case Got(g) => runs[r.key].group == g && runs[r.key].payload == r.payload
          case Conflict => runs[r.key].payload != r.payload)
  }

  ghost predicate Inv(s: State) {
    && SchedulerInvariant.Inv(s.tables)
    && HomesOk(s.home, s.issued, s.consumed)
    && ReservationsOk(s.home, s.issued, s.consumed, s.reservations)
    && CallersOk(s.home, s.issued, s.consumed, s.submissions)
    && StagingOk(s.reservations, s.submissions, s.files)
    && StartupOk(s.reservations, s.submissions, s.starting)
    && RunsOk(s.tables.jobs.Keys, s.runs, s.consumed)
    && UploadsOk(s.tables.jobs.Keys, s.uploads, s.home, s.consumed)
    && NeededOk(s.tables, s.uploads, s.files, s.doomed)
    && DoomedOk(s.doomed, s.home, s.consumed)
    && FilesOk(s.files, s.home, s.consumed, s.reservations, s.submissions)
    && RepliesOk(s.runs, s.replies)
    && CapsOk(s.reservations, UnfinishedRuns(s.tables, s.runs))
  }

  lemma EmptyInv()
    ensures Inv(Execution([]))
  {
    SchedulerInvariant.EmptyInv();
    assert UnfinishedRuns(Tables(map[], map[]), map[]) == {};
    forall owner ensures OutstandingOf(map[], {}, owner) <= MAX_OWNER_OUTSTANDING_RUNS {
      assert ReservedBy(map[], owner) == {};
      assert OfOwner({}, owner) == {};
    }
  }

  // ---------------------------------------------------------------- counting

  predicate Within(reservations': map<Id, Reservation>, reservations: map<Id, Reservation>) {
    forall id | id in reservations' :: id in reservations && reservations'[id] == reservations[id]
  }

  /** Fewer reservations and fewer unfinished runs keep the caps. */
  lemma FewerKeepCaps(r: map<Id, Reservation>, u: set<RunKey>, r': map<Id, Reservation>, u': set<RunKey>)
    requires CapsOk(r, u) && Within(r', r) && u' <= u
    ensures CapsOk(r', u')
  {
    SmallerSet(r'.Keys, r.Keys);
    SmallerSet(u', u);
    forall owner ensures OutstandingOf(r', u', owner) <= MAX_OWNER_OUTSTANDING_RUNS {
      assert OutstandingOf(r, u, owner) <= MAX_OWNER_OUTSTANDING_RUNS;
      SmallerSet(ReservedBy(r', owner), ReservedBy(r, owner));
      SmallerSet(OfOwner(u', owner), OfOwner(u, owner));
    }
  }

  /** A reservation is added only under both caps. */
  lemma ReserveKeepsCaps(r: map<Id, Reservation>, u: set<RunKey>, id: Id, owner: Owner, paths: set<File>)
    requires CapsOk(r, u) && id !in r
    requires Outstanding(r, u) < MAX_OUTSTANDING_RUNS && OutstandingOf(r, u, owner) < MAX_OWNER_OUTSTANDING_RUNS
    ensures CapsOk(r[id := Reservation(owner, paths)], u)
  {
    hide ReservedBy, OfOwner;
    var r' := r[id := Reservation(owner, paths)];
    assert r'.Keys == r.Keys + {id};
    forall o ensures OutstandingOf(r', u, o) <= MAX_OWNER_OUTSTANDING_RUNS {
      assert OutstandingOf(r, u, o) <= MAX_OWNER_OUTSTANDING_RUNS;
      ReservedByOneMore(r, id, owner, paths, o);
    }
  }

  lemma ReservedByOneMore(r: map<Id, Reservation>, id: Id, owner: Owner, paths: set<File>, o: Owner)
    requires id !in r
    ensures |ReservedBy(r[id := Reservation(owner, paths)], o)| == |ReservedBy(r, o)| + (if o == owner then 1 else 0)
  {
    assert ReservedBy(r[id := Reservation(owner, paths)], o)
        == if o == owner then ReservedBy(r, o) + {id} else ReservedBy(r, o);
  }

  /** `add_group` swaps one reservation of an owner for at most one unfinished run of theirs. */
  lemma SwapKeepsCaps(r: map<Id, Reservation>, u: set<RunKey>, id: Id, key: RunKey, u': set<RunKey>)
    requires CapsOk(r, u) && id in r && r[id].owner == key.owner && u' <= u + {key}
    ensures CapsOk(r - {id}, u')
  {
    assert (r - {id}).Keys == r.Keys - {id};
    SmallerSet(u', u + {key});
    forall owner ensures OutstandingOf(r - {id}, u', owner) <= MAX_OWNER_OUTSTANDING_RUNS {
      assert OutstandingOf(r, u, owner) <= MAX_OWNER_OUTSTANDING_RUNS;
      SwapOfOwner(r, u, id, key, u', owner);
    }
  }

  lemma SwapOfOwner(r: map<Id, Reservation>, u: set<RunKey>, id: Id, key: RunKey, u': set<RunKey>, owner: Owner)
    requires id in r && r[id].owner == key.owner && u' <= u + {key}
    ensures OutstandingOf(r - {id}, u', owner) <= OutstandingOf(r, u, owner)
  {
    if owner == key.owner {
      assert ReservedBy(r - {id}, owner) == ReservedBy(r, owner) - {id};
      assert id in ReservedBy(r, owner);
      SmallerSet(OfOwner(u', owner), OfOwner(u, owner) + {key});
    } else {
      assert ReservedBy(r - {id}, owner) == ReservedBy(r, owner);
      SmallerSet(OfOwner(u', owner), OfOwner(u, owner));
    }
  }

  // ---------------------------------------------------------------- job transitions

  /** A finished run never counts again: its jobs are final. */
  lemma JobEventFinishesRuns(s: State, e: Event)
    requires SchedulerInvariant.Inv(s.tables) && RunsOk(s.tables.jobs.Keys, s.runs, s.consumed)
    ensures UnfinishedRuns(JobEvent(s, e).tables, s.runs) <= UnfinishedRuns(s.tables, s.runs)
    ensures forall j | j in s.tables.jobs && ComputeRuns.Open(JobEvent(s, e).tables, j) :: ComputeRuns.Open(s.tables, j)
    ensures s.tables.jobs.Keys <= JobEvent(s, e).tables.jobs.Keys
  {
    hide SchedulerInvariant.Inv, Scheduler.Apply, Granted;
    var s' := JobEvent(s, e);
    forall j | j in s.tables.jobs
      ensures j in s'.tables.jobs && (ComputeRuns.Open(s'.tables, j) ==> ComputeRuns.Open(s.tables, j))
    {
      StepOfJob(s.tables, e, j);
    }
    forall k | k in UnfinishedRuns(s'.tables, s.runs) ensures k in UnfinishedRuns(s.tables, s.runs) {
      var j :| j in s.runs[k].jobs && ComputeRuns.Open(s'.tables, j);
      assert ComputeRuns.Open(s.tables, j);
    }
  }

  lemma JobEventKeepsInv(s: State, e: Event)
    requires Inv(s)
    ensures Inv(JobEvent(s, e))
  {
    hide SchedulerInvariant.Inv, Scheduler.Apply, CapsOk, UnfinishedRuns, HomesOk, ReservationsOk, CallersOk,
         StagingOk, StartupOk, DoomedOk, FilesOk, RepliesOk;
    SchedulerInvariant.ApplyKeepsInv(s.tables, e);
    JobEventFinishesRuns(s, e);
    FewerKeepCaps(s.reservations, UnfinishedRuns(s.tables, s.runs),
                  s.reservations, UnfinishedRuns(JobEvent(s, e).tables, s.runs));
  }

  // ---------------------------------------------------------------- submitting

  lemma AssignedFacts(home: map<File, Id>, paths: set<File>, id: Id)
    ensures Assigned(home, paths, id).Keys == home.Keys + paths
    ensures forall f | f in home && f !in paths :: Assigned(home, paths, id)[f] == home[f]
    ensures forall f | f in paths :: Assigned(home, paths, id)[f] == id
  {
  }

  lemma AssignedKeepsOwners(home: map<File, Id>, issued: set<Id>, consumed: set<Id>, id: Id, paths: set<File>)
    requires HomesOk(home, issued, consumed) && id !in issued && paths !! home.Keys
    ensures HomesOk(Assigned(home, paths, id), issued + {id}, consumed)
  {
    hide Assigned;
    AssignedFacts(home, paths, id);
  }

  lemma AssignedKeepsReservations(home: map<File, Id>, issued: set<Id>, consumed: set<Id>, r: map<Id, Reservation>,
                                  id: Id, owner: Owner, paths: set<File>)
    requires HomesOk(home, issued, consumed) && ReservationsOk(home, issued, consumed, r)
    requires id !in issued && paths !! home.Keys
    ensures ReservationsOk(Assigned(home, paths, id), issued + {id}, consumed, r[id := Reservation(owner, paths)])
  {
    hide Assigned;
    AssignedFacts(home, paths, id);
  }

  lemma AssignedKeepsCallers(home: map<File, Id>, issued: set<Id>, consumed: set<Id>, m: map<Id, Submission>,
                             id: Id, sub: Submission)
    requires HomesOk(home, issued, consumed) && CallersOk(home, issued, consumed, m)
    requires id !in issued && sub.paths !! home.Keys
    ensures CallersOk(Assigned(home, sub.paths, id), issued + {id}, consumed, m[id := sub])
  {
    hide Assigned;
    AssignedFacts(home, sub.paths, id);
  }

  lemma AssignedKeepsUploads(home: map<File, Id>, consumed: set<Id>, jobs: set<JobId>, uploads: map<JobId, Uploads>,
                             doomed: set<File>, id: Id, paths: set<File>)
    requires UploadsOk(jobs, uploads, home, consumed) && DoomedOk(doomed, home, consumed) && paths !! home.Keys
    ensures UploadsOk(jobs, uploads, Assigned(home, paths, id), consumed)
    ensures DoomedOk(doomed, Assigned(home, paths, id), consumed)
  {
    hide Assigned;
    AssignedFacts(home, paths, id);
  }

  lemma BeginKeepsStaging(s: State, id: Id, key: RunKey, payload: nat, paths: set<File>)
    requires id !in s.issued && Inv(s) && !s.starting && paths !! s.home.Keys
    ensures var r' := s.reservations[id := Reservation(key.owner, paths)];
            var m' := s.submissions[id := Submission(key, payload, paths, {}, false)];
            && StagingOk(r', m', s.files) && StartupOk(r', m', s.starting)
            && FilesOk(s.files, Assigned(s.home, paths, id), s.consumed, r', m')
  {
    hide SchedulerInvariant.Inv, CapsOk, UnfinishedRuns, RunsOk, NeededOk, UploadsOk, RepliesOk, DoomedOk, HomesOk,
         Assigned;
    AssignedFacts(s.home, paths, id);
    assert id !in s.reservations && id !in s.submissions;
  }

  lemma BeginKeepsInv(s: State, id: Id, key: RunKey, payload: nat, paths: set<File>)
    requires Inv(s)
    ensures Inv(Begin(s, id, key, payload, paths))
  {
    hide SchedulerInvariant.Inv, CapsOk, UnfinishedRuns, Outstanding, OutstandingOf, RunsOk, NeededOk, UploadsOk,
         DoomedOk, FilesOk, StagingOk, StartupOk, CallersOk, HomesOk, Assigned;
    if !s.starting && id !in s.issued && paths !! s.home.Keys && key !in s.runs && Capacity(s, key.owner) {
      ReserveKeepsCaps(s.reservations, UnfinishedRuns(s.tables, s.runs), id, key.owner, paths);
      AssignedKeepsOwners(s.home, s.issued, s.consumed, id, paths);
      AssignedKeepsReservations(s.home, s.issued, s.consumed, s.reservations, id, key.owner, paths);
      AssignedKeepsCallers(s.home, s.issued, s.consumed, s.submissions, id, Submission(key, payload, paths, {}, false));
      AssignedKeepsUploads(s.home, s.consumed, s.tables.jobs.Keys, s.uploads, s.doomed, id, paths);
      BeginKeepsStaging(s, id, key, payload, paths);
    }
  }

  /** A submission's paths are no one else's. */
  lemma OwnFiles(s: State, id: Id, f: File)
    requires CallersOk(s.home, s.issued, s.consumed, s.submissions)
    requires UploadsOk(s.tables.jobs.Keys, s.uploads, s.home, s.consumed)
    requires id in s.submissions && f in s.submissions[id].paths
    ensures forall x | x in s.submissions && x != id :: f !in s.submissions[x].paths
    ensures forall j | j in s.uploads :: f !in s.uploads[j].files
  {
    assert s.home[f] == id && id !in s.consumed;
  }

  lemma StageKeepsCallers(s: State, id: Id, f: File)
    requires Inv(s)
    ensures var s' := Stage(s, id, f);
            && CallersOk(s'.home, s'.issued, s'.consumed, s'.submissions)
            && StagingOk(s'.reservations, s'.submissions, s'.files)
            && StartupOk(s'.reservations, s'.submissions, s'.starting)
  {
    hide SchedulerInvariant.Inv, CapsOk, UnfinishedRuns, RunsOk, UploadsOk, NeededOk, DoomedOk, RepliesOk, HomesOk,
         FilesOk, ReservationsOk;
    if id in s.submissions && f in s.submissions[id].paths {
      OwnFiles(s, id, f);
    }
  }

  lemma StageKeepsInv(s: State, id: Id, f: File)
    requires Inv(s)
    ensures Inv(Stage(s, id, f))
  {
    hide SchedulerInvariant.Inv, CapsOk, UnfinishedRuns, RunsOk, UploadsOk, DoomedOk, RepliesOk, HomesOk,
         ReservationsOk, StagingOk, StartupOk;
    StageKeepsCallers(s, id, f);
  }

  lemma GiveUpKeepsInv(s: State, id: Id)
    requires Inv(s)
    ensures Inv(GiveUp(s, id))
  {
    hide SchedulerInvariant.Inv, CapsOk, UnfinishedRuns, RunsOk, UploadsOk, NeededOk, DoomedOk, RepliesOk, HomesOk,
         ReservationsOk;
  }

  /** Losing files of a submission that is cleaning up harms no job and no other submission. */
  lemma LosingOwnFiles(s: State, id: Id, gone: set<File>)
    requires Inv(s) && id in s.submissions && s.submissions[id].cleaning && gone <= s.submissions[id].paths
    ensures NeededOk(s.tables, s.uploads, s.files - gone, s.doomed)
    ensures StagingOk(s.reservations, s.submissions, s.files - gone)
    ensures FilesOk(s.files - gone, s.home, s.consumed, s.reservations, s.submissions)
  {
    hide SchedulerInvariant.Inv, CapsOk, UnfinishedRuns, RunsOk, UploadsOk, CallersOk, DoomedOk, RepliesOk, HomesOk,
         ReservationsOk, StartupOk;
    forall f | f in gone
      ensures (forall x | x in s.submissions && x != id :: f !in s.submissions[x].paths) &&
              (forall j | j in s.uploads :: f !in s.uploads[j].files)
    {
      OwnFiles(s, id, f);
    }
  }

  lemma CleaningKeepsInv(s: State, id: Id, f: File)
    requires Inv(s)
    ensures Inv(CleanFile(s, id, f))
  {
    hide SchedulerInvariant.Inv, CapsOk, UnfinishedRuns, RunsOk, UploadsOk, NeededOk, CallersOk, DoomedOk, RepliesOk,
         HomesOk, ReservationsOk, StartupOk, StagingOk, FilesOk;
    if id in s.submissions && s.submissions[id].cleaning && f in s.submissions[id].paths {
      LosingOwnFiles(s, id, {f});
    }
  }

  lemma CleanedKeepsStaging(s: State, id: Id)
    requires Inv(s)
    ensures var s' := CleanDone(s, id);
            && StagingOk(s'.reservations, s'.submissions, s'.files)
            && StartupOk(s'.reservations, s'.submissions, s'.starting)
            && FilesOk(s'.files, s'.home, s'.consumed, s'.reservations, s'.submissions)
  {
    hide SchedulerInvariant.Inv, CapsOk, UnfinishedRuns, RunsOk, UploadsOk, NeededOk, DoomedOk, RepliesOk, HomesOk;
  }

  lemma CleanedRows(s: State, id: Id)
    requires Inv(s)
    ensures var s' := CleanDone(s, id);
            && Within(s'.reservations, s.reservations)
            && ReservationsOk(s'.home, s'.issued, s'.consumed, s'.reservations)
            && CallersOk(s'.home, s'.issued, s'.consumed, s'.submissions)
  {
    hide SchedulerInvariant.Inv, CapsOk, UnfinishedRuns, RunsOk, UploadsOk, NeededOk, DoomedOk, RepliesOk, HomesOk,
         StagingOk, StartupOk, FilesOk;
  }

  lemma CleanedKeepsInv(s: State, id: Id)
    requires Inv(s)
    ensures Inv(CleanDone(s, id))
  {
    hide SchedulerInvariant.Inv, CapsOk, UnfinishedRuns, RunsOk, UploadsOk, NeededOk, DoomedOk, RepliesOk, HomesOk,
         StagingOk, StartupOk, FilesOk;
    CleanedKeepsStaging(s, id);
    CleanedRows(s, id);
    hide ReservationsOk, CallersOk;
    FewerKeepCaps(s.reservations, UnfinishedRuns(s.tables, s.runs),
                  CleanDone(s, id).reservations, UnfinishedRuns(s.tables, s.runs));
  }

  // ---------------------------------------------------------------- add_group

  lemma LastTaskId(tasks: seq<Task>)
    requires tasks != []
    ensures TaskIds(tasks) == TaskIds(tasks[..|tasks| - 1]) + {tasks[|tasks| - 1].id}
  {
  }

  lemma TaskIdIn(tasks: seq<Task>, id: JobId)
    ensures id in TaskIds(tasks) <==> exists i | 0 <= i < |tasks| :: tasks[i].id == id
  {
  }

  /** The jobs of a new group are queued, fresh and under the scheduler's invariant. */
  lemma {:induction false} InsertedJobs(t: Tables, tasks: seq<Task>, at: Time, max: Positive)
    requires SchedulerInvariant.Inv(t)
    requires forall i | 0 <= i < |tasks| :: tasks[i].id !in t.jobs
    requires forall i, j | 0 <= i < j < |tasks| :: tasks[i].id != tasks[j].id
    ensures var t' := t.(jobs := InsertJobs(t.jobs, tasks, at, max));
            && SchedulerInvariant.Inv(t')
            && t'.jobs.Keys == t.jobs.Keys + TaskIds(tasks)
            && (forall j | j in t.jobs :: t'.jobs[j] == t.jobs[j])
    decreases |tasks|
  {
    hide SchedulerInvariant.Inv, TaskIds, NewJob;
    if tasks == [] {
      assert t.(jobs := InsertJobs(t.jobs, tasks, at, max)) == t;
      forall id ensures id !in TaskIds(tasks) { TaskIdIn(tasks, id); }
    } else {
      var n := |tasks| - 1;
      InsertedJobs(t, tasks[..n], at, max);
      LastTaskId(tasks);
      TaskIdIn(tasks[..n], tasks[n].id);
      var u := t.(jobs := InsertJobs(t.jobs, tasks[..n], at, max));
      AddKeepsInv(u, tasks[n].id, tasks[n].request, at, Some(n), max);
    }
  }

  lemma {:induction false} InsertedUploads(uploads: map<JobId, Uploads>, origin: Id, tasks: seq<Task>, paths: set<File>)
    requires forall i | 0 <= i < |tasks| :: tasks[i].id !in uploads && tasks[i].files <= paths
    ensures var u := InsertUploads(uploads, origin, tasks);
            && u.Keys == uploads.Keys + TaskIds(tasks)
            && (forall j | j in uploads :: u[j] == uploads[j])
            && (forall j | j in u && j !in uploads :: u[j].origin == origin && u[j].files <= paths)
    decreases |tasks|
  {
    if tasks == [] {
    } else {
      var n := |tasks| - 1;
      InsertedUploads(uploads, origin, tasks[..n], paths);
      LastTaskId(tasks);
    }
  }

  predicate Inserting(s: State, id: Id, tasks: seq<Task>) {
    && id in s.submissions && !s.submissions[id].cleaning && s.submissions[id].staged == s.submissions[id].paths
    && NewTasks(s, id, tasks) && s.submissions[id].key !in s.runs
    && id in s.reservations && s.reservations[id].owner == s.submissions[id].key.owner
  }

  lemma AddGroupCaps(s: State, id: Id, group: Id, tasks: seq<Task>, at: Time, max: Positive)
    requires Inv(s) && Inserting(s, id, tasks)
    ensures var s' := AddGroup(s, id, group, tasks, at, max);
            CapsOk(s'.reservations, UnfinishedRuns(s'.tables, s'.runs)) && RunsOk(s'.tables.jobs.Keys, s'.runs, s'.consumed)
  {
    hide SchedulerInvariant.Inv, CapsOk, NeededOk, UploadsOk, DoomedOk, RepliesOk, HomesOk, FilesOk, StagingOk,
         CallersOk, ReservationsOk, InsertUploads;
    InsertedJobs(s.tables, tasks, at, max);
    var s' := AddGroup(s, id, group, tasks, at, max);
    var key := s.submissions[id].key;
    forall k | k in UnfinishedRuns(s'.tables, s'.runs) && k != key ensures k in UnfinishedRuns(s.tables, s.runs) {
      var j :| j in s.runs[k].jobs && ComputeRuns.Open(s'.tables, j);
      assert ComputeRuns.Open(s.tables, j);
    }
    SwapKeepsCaps(s.reservations, UnfinishedRuns(s.tables, s.runs), id, key, UnfinishedRuns(s'.tables, s'.runs));
  }

  lemma AddGroupUploads(s: State, id: Id, group: Id, tasks: seq<Task>, at: Time, max: Positive)
    requires Inv(s) && Inserting(s, id, tasks)
    ensures var s' := AddGroup(s, id, group, tasks, at, max);
            SchedulerInvariant.Inv(s'.tables) && UploadsOk(s'.tables.jobs.Keys, s'.uploads, s'.home, s'.consumed)
  {
    hide SchedulerInvariant.Inv, CapsOk, RepliesOk, HomesOk, FilesOk, RunsOk, UnfinishedRuns, NeededOk, DoomedOk,
         StagingOk, StartupOk, ReservationsOk, InsertJobs, InsertUploads;
    InsertedJobs(s.tables, tasks, at, max);
    InsertedUploads(s.uploads, id, tasks, s.submissions[id].paths);
  }

  lemma AddGroupNeeded(s: State, id: Id, group: Id, tasks: seq<Task>, at: Time, max: Positive)
    requires Inv(s) && Inserting(s, id, tasks)
    ensures var s' := AddGroup(s, id, group, tasks, at, max); NeededOk(s'.tables, s'.uploads, s'.files, s'.doomed)
  {
    hide SchedulerInvariant.Inv, CapsOk, RepliesOk, HomesOk, FilesOk, RunsOk, UnfinishedRuns, StartupOk,
         ReservationsOk, InsertJobs, InsertUploads;
    InsertedJobs(s.tables, tasks, at, max);
    InsertedUploads(s.uploads, id, tasks, s.submissions[id].paths);
    assert s.submissions[id].paths <= s.files && s.submissions[id].paths !! s.doomed;
  }

  lemma AddGroupRows(s: State, id: Id, group: Id, tasks: seq<Task>, at: Time, max: Positive)
    requires Inv(s) && Inserting(s, id, tasks)
    ensures var s' := AddGroup(s, id, group, tasks, at, max);
            && HomesOk(s'.home, s'.issued, s'.consumed)
            && ReservationsOk(s'.home, s'.issued, s'.consumed, s'.reservations)
            && CallersOk(s'.home, s'.issued, s'.consumed, s'.submissions)
            && DoomedOk(s'.doomed, s'.home, s'.consumed)
  {
    hide SchedulerInvariant.Inv, CapsOk, NeededOk, UploadsOk, RunsOk, UnfinishedRuns, InsertJobs, InsertUploads,
         StagingOk, StartupOk, FilesOk, RepliesOk;
  }

  lemma AddGroupRecords(s: State, id: Id, group: Id, tasks: seq<Task>, at: Time, max: Positive)
    requires Inv(s) && Inserting(s, id, tasks)
    ensures var s' := AddGroup(s, id, group, tasks, at, max);
            && StagingOk(s'.reservations, s'.submissions, s'.files)
            && StartupOk(s'.reservations, s'.submissions, s'.starting)
            && FilesOk(s'.files, s'.home, s'.consumed, s'.reservations, s'.submissions)
            && RepliesOk(s'.runs, s'.replies)
  {
    hide SchedulerInvariant.Inv, CapsOk, NeededOk, UploadsOk, RunsOk, UnfinishedRuns, InsertJobs, InsertUploads,
         HomesOk, ReservationsOk, CallersOk, DoomedOk;
  }

  lemma AddGroupKeepsInv(s: State, id: Id, group: Id, tasks: seq<Task>, at: Time, max: Positive)
    requires Inv(s)
    ensures Inv(AddGroup(s, id, group, tasks, at, max))
  {
    hide SchedulerInvariant.Inv, CapsOk, UnfinishedRuns, RunsOk, UploadsOk, NeededOk, DoomedOk, RepliesOk, HomesOk,
         FilesOk, StagingOk, CallersOk, ReservationsOk, StartupOk, InsertJobs, InsertUploads;
    if Inserting(s, id, tasks) {
      AddGroupCaps(s, id, group, tasks, at, max);
      AddGroupUploads(s, id, group, tasks, at, max);
      AddGroupNeeded(s, id, group, tasks, at, max);
      AddGroupRows(s, id, group, tasks, at, max);
      AddGroupRecords(s, id, group, tasks, at, max);
    } else {
      ReplayKeepsInv(s, id, group, tasks, at, max);
    }
  }

  lemma TellKeepsInv(s: State, reply: Reply)
    requires Inv(s) && RepliesOk(s.runs, [reply])
    ensures Inv(Tell(s, reply))
  {
    hide SchedulerInvariant.Inv, CapsOk, UnfinishedRuns, RunsOk, UploadsOk, NeededOk, DoomedOk, HomesOk, FilesOk,
         StagingOk, CallersOk, ReservationsOk, StartupOk;
    assert reply in [reply];
  }

  lemma DropOwnRows(s: State, id: Id)
    requires Inv(s) && id in s.reservations && id in s.submissions && s.submissions[id].cleaning
    ensures var s' := DropOwn(s, id);
            && Within(s'.reservations, s.reservations)
            && ReservationsOk(s'.home, s'.issued, s'.consumed, s'.reservations)
            && StagingOk(s'.reservations, s'.submissions, s'.files)
            && StartupOk(s'.reservations, s'.submissions, s'.starting)
            && FilesOk(s'.files, s'.home, s'.consumed, s'.reservations, s'.submissions)
  {
    hide SchedulerInvariant.Inv, CapsOk, UnfinishedRuns, RunsOk, UploadsOk, NeededOk, CallersOk, DoomedOk, RepliesOk,
         HomesOk;
    assert s.reservations[id].paths == s.submissions[id].paths;
    LosingOwnFiles(s, id, s.reservations[id].paths);
  }

  lemma DropOwnKeepsInv(s: State, id: Id)
    requires Inv(s) && id in s.reservations && id in s.submissions && s.submissions[id].cleaning
    ensures Inv(DropOwn(s, id))
  {
    hide SchedulerInvariant.Inv, CapsOk, UnfinishedRuns, RunsOk, UploadsOk, NeededOk, CallersOk, DoomedOk, RepliesOk,
         HomesOk, ReservationsOk, StartupOk, FilesOk;
    assert s.reservations[id].paths == s.submissions[id].paths;
    hide StagingOk;
    LosingOwnFiles(s, id, s.reservations[id].paths);
    DropOwnRows(s, id);
    FewerKeepCaps(s.reservations, UnfinishedRuns(s.tables, s.runs),
                  DropOwn(s, id).reservations, UnfinishedRuns(s.tables, s.runs));
  }

  /** A replay or a refusal takes at most the caller's own reservation and files. */
  lemma ReplayKeepsInv(s: State, id: Id, group: Id, tasks: seq<Task>, at: Time, max: Positive)
    requires Inv(s) && !Inserting(s, id, tasks)
    ensures Inv(AddGroup(s, id, group, tasks, at, max))
  {
    hide Inv, InsertJobs, InsertUploads, NewTasks, DropOwn, Tell;
    if AddGroup(s, id, group, tasks, at, max) != s {
      GiveUpKeepsInv(s, id);
      var sub := s.submissions[id];
      if sub.key in s.runs {
        var reply := Answered(s, sub.key, sub.payload);
        assert RepliesOk(s.runs, [reply]);
        TellKeepsInv(GiveUp(s, id), reply);
        ToldState(s, id, reply);
        if s.runs[sub.key].payload == sub.payload && id in s.reservations && s.reservations[id].owner == sub.key.owner {
          DropOwnKeepsInv(Tell(GiveUp(s, id), reply), id);
        }
      }
    }
  }

  lemma ToldState(s: State, id: Id, reply: Reply)
    requires id in s.submissions
    ensures var t := Tell(GiveUp(s, id), reply);
            t.reservations == s.reservations && id in t.submissions && t.submissions[id].cleaning
  {
  }

  // ---------------------------------------------------------------- releases, crashes, startup

  /** A release takes only files of ended jobs that no unfinished job reads. */
  lemma ReleaseKeepsInv(s: State, id: JobId)
    requires Inv(s)
    ensures Inv(Release(s, id))
  {
    hide SchedulerInvariant.Inv, CapsOk, UnfinishedRuns, RunsOk, RepliesOk, HomesOk, FilesOk, StagingOk, CallersOk,
         ReservationsOk, StartupOk;
  }

  lemma UnlinkKeepsInv(s: State, f: File)
    requires Inv(s)
    ensures Inv(Unlink(s, f))
  {
    hide SchedulerInvariant.Inv, CapsOk, UnfinishedRuns, RunsOk, RepliesOk, HomesOk, StartupOk;
  }

  lemma CrashKeepsInv(s: State)
    requires Inv(s)
    ensures Inv(Crash(s))
  {
    hide SchedulerInvariant.Inv, CapsOk, UnfinishedRuns, RunsOk, UploadsOk, RepliesOk, HomesOk, ReservationsOk;
  }

  /** A reserved path is read by no job. */
  lemma ReservedIsUnread(s: State, f: File)
    requires ReservationsOk(s.home, s.issued, s.consumed, s.reservations) && Reserved(s, f)
    requires UploadsOk(s.tables.jobs.Keys, s.uploads, s.home, s.consumed)
    ensures forall j | j in s.uploads :: f !in s.uploads[j].files
  {
    var id :| id in s.reservations && f in s.reservations[id].paths;
    assert s.home[f] == id && id !in s.consumed;
  }

  lemma ReconcilingKeepsInv(s: State, f: File)
    requires Inv(s)
    ensures Inv(ReconcileFile(s, f))
  {
    hide SchedulerInvariant.Inv, CapsOk, UnfinishedRuns, RunsOk, UploadsOk, RepliesOk, HomesOk, ReservationsOk,
         DoomedOk;
    if s.starting && Reserved(s, f) {
      ReservedIsUnread(s, f);
    }
  }

  lemma ReconciledKeepsInv(s: State)
    requires Inv(s)
    ensures Inv(ReconcileCommit(s))
  {
    hide SchedulerInvariant.Inv, CapsOk, UnfinishedRuns, RunsOk, UploadsOk, NeededOk, RepliesOk, HomesOk, DoomedOk;
    FewerKeepCaps(s.reservations, UnfinishedRuns(s.tables, s.runs),
                  ReconcileCommit(s).reservations, UnfinishedRuns(s.tables, s.runs));
  }

  lemma ApplyKeepsInv(s: State, step: Step)
    requires Inv(s)
    ensures Inv(ComputeRuns.Apply(s, step))
  {
    hide Inv, Begin, Stage, GiveUp, AddGroup, CleanFile, CleanDone, JobEvent, Release, Unlink, Crash, ReconcileFile,
         ReconcileCommit;
    match step
    case DoBegin(id, key, payload, paths) => BeginKeepsInv(s, id, key, payload, paths);
    case DoStage(id, f) => StageKeepsInv(s, id, f);
    case DoGiveUp(id) => GiveUpKeepsInv(s, id);
    case DoAddGroup(id, group, tasks, at, max) => AddGroupKeepsInv(s, id, group, tasks, at, max);
    case DoCleanFile(id, f) => CleaningKeepsInv(s, id, f);
    case DoCleanDone(id) => CleanedKeepsInv(s, id);
    case DoJobEvent(e) => JobEventKeepsInv(s, e);
    case DoRelease(job) => ReleaseKeepsInv(s, job);
    case DoUnlink(f) => UnlinkKeepsInv(s, f);
    case DoCrash => CrashKeepsInv(s);
    case DoReconcileFile(f) => ReconcilingKeepsInv(s, f);
    case DoReconcileCommit => ReconciledKeepsInv(s);
  }

  lemma {:induction false} ExecutionInv(steps: seq<Step>)
    ensures Inv(Execution(steps))
    decreases |steps|
  {
    hide Inv, ComputeRuns.Apply;
    if steps == [] {
      EmptyInv();
    } else {
      ExecutionInv(steps[..|steps| - 1]);
      ApplyKeepsInv(Execution(steps[..|steps| - 1]), steps[|steps| - 1]);
    }
  }
}
