/** App runs, in place: the transactions of `submit` and `add_group`, the finally block,
    `release_job_uploads` and startup reconciliation, each with the loops it runs. */
module RunStores {
  import opened Wrappers
  import opened Scheduler
  import opened SchedulerRuns
  import opened ComputeRuns

  /** `referenced_uploads` of one job. */
  function Referenced(uploads: map<JobId, Uploads>, id: JobId): set<File> {
    if id in uploads then uploads[id].files else {}
  }

  class RunStore {
    var tables: Tables
    var reservations: map<Id, Reservation>
    var runs: map<RunKey, AppRun>
    var uploads: map<JobId, Uploads>
    var submissions: map<Id, Submission>
    var files: set<File>
    var doomed: set<File>
    var starting: bool
    ghost var home: map<File, Id>
    ghost var issued: set<Id>
    ghost var consumed: set<Id>
    ghost var replies: seq<Reply>

    ghost function Now(): State
      reads this
    {
      State(tables, reservations, runs, uploads, submissions, files, doomed, starting, home, issued, consumed, replies)
    }

    constructor ()
      ensures Now() == Execution([])
    {
      tables, reservations, runs, uploads := Tables(map[], map[]), map[], map[], map[];
      submissions, files, doomed, starting := map[], {}, {}, false;
      home, issued, consumed, replies := map[], {}, {}, [];
    }

    /** `submit`'s transaction: a known key is answered, else both caps are checked and a
        reservation inserted. */
    method ReserveStaging(id: Id, key: RunKey, payload: nat, paths: set<File>) returns (answer: Option<Answer>)
      requires !starting && id !in issued && paths !! home.Keys
      modifies this`reservations, this`submissions, this`home, this`issued, this`replies
      ensures Now() == Begin(old(Now()), id, key, payload, paths)
      ensures answer.Some? <==> key in runs
      ensures answer.Some? ==> answer.value == Answered(old(Now()), key, payload).answer
    {
      hide Assigned;
      if key in runs {
        answer := Some(if runs[key].payload == payload then Got(runs[key].group) else Conflict);
        replies := replies + [Reply(key, payload, answer.value)];
        return;
      }
      var unfinished := UnfinishedRuns(tables, runs);
      if |reservations.Keys| + |unfinished| >= MAX_OUTSTANDING_RUNS ||
         |ReservedBy(reservations, key.owner)| + |OfOwner(unfinished, key.owner)| >= MAX_OWNER_OUTSTANDING_RUNS
      {
        return None;
      }
      reservations := reservations[id := Reservation(key.owner, paths)];
      submissions := submissions[id := Submission(key, payload, paths, {}, false)];
      home, issued := Assigned(home, paths, id), issued + {id};
      return None;
    }

    /** `path.unlink(missing_ok=True)` for every path. */
    method UnlinkAll(paths: set<File>)
      modifies this`files
      ensures files == old(files) - paths
    {
      var left := paths;
      while left != {}
        invariant left <= paths && files == old(files) - (paths - left)
        decreases |left|
      {
        var f :| f in left;
        left := left - {f};
        files := files - {f};
      }
    }

    /** The INSERT of every child job of a group. */
    method InsertTasks(origin: Id, tasks: seq<Task>, at: Time, max: Positive)
      modifies this`tables, this`uploads
      ensures tables == old(tables).(jobs := InsertJobs(old(tables).jobs, tasks, at, max))
      ensures uploads == InsertUploads(old(uploads), origin, tasks)
    {
      for i := 0 to |tasks|
        invariant tables == old(tables).(jobs := InsertJobs(old(tables).jobs, tasks[..i], at, max))
        invariant uploads == InsertUploads(old(uploads), origin, tasks[..i])
      {
        assert tasks[..i + 1][..i] == tasks[..i];
        tables := tables.(jobs := tables.jobs[tasks[i].id := NewJob(tasks[i].request, at, Some(i), max)]);
        uploads := uploads[tasks[i].id := Uploads(origin, tasks[i].files)];
      }
      assert tasks[..|tasks|] == tasks;
    }

    /** A key that has a run already: the same payload is given it and gives up its own
        reservation and files, another payload is refused. */
    method ReplayGroup(id: Id) returns (stored: Option<Id>)
      requires id in submissions && submissions[id].key in runs
      modifies this`files, this`reservations, this`submissions, this`replies
      ensures var s := old(Now()); var sub := s.submissions[id];
              var told := Tell(GiveUp(s, id), Answered(s, sub.key, sub.payload));
              var same := s.runs[sub.key].payload == sub.payload;
              && Now() == (if same && id in s.reservations && s.reservations[id].owner == sub.key.owner
                           then DropOwn(told, id) else told)
              && stored == (if same then Some(s.runs[sub.key].group) else None)
    {
      var sub := submissions[id];
      var same := runs[sub.key].payload == sub.payload;
      replies := replies + [Reply(sub.key, sub.payload, if same then Got(runs[sub.key].group) else Conflict)];
      submissions := submissions[id := sub.(cleaning := true)];
      if !same {
        return None;
      }
      if id in reservations && reservations[id].owner == sub.key.owner {
        UnlinkAll(reservations[id].paths);
        reservations := reservations - {id};
      }
      return Some(runs[sub.key].group);
    }

    /** `add_group` for an app submission whose files are all staged. None means it raised. */
    method AddAppGroup(id: Id, group: Id, tasks: seq<Task>, at: Time, max: Positive) returns (stored: Option<Id>)
      requires id in submissions && !submissions[id].cleaning && submissions[id].staged == submissions[id].paths
      requires NewTasks(Now(), id, tasks)
      modifies this
      ensures Now() == AddGroup(old(Now()), id, group, tasks, at, max)
      ensures stored.Some? ==> old(submissions)[id].key in runs && runs[old(submissions)[id].key].group == stored.value
    {
      hide InsertJobs, InsertUploads, NewTasks, TaskIds;
      var sub := submissions[id];
      if sub.key in runs {
        stored := ReplayGroup(id);
        return;
      }
      if !(id in reservations && reservations[id].owner == sub.key.owner) {
        submissions := submissions[id := sub.(cleaning := true)];
        return None;
      }
      stored := Some(group);
      InsertGroup(id, group, tasks, at, max);
    }

    /** The reservation is swapped for the group, its jobs and the run. */
    method InsertGroup(id: Id, group: Id, tasks: seq<Task>, at: Time, max: Positive)
      requires id in submissions && !submissions[id].cleaning && submissions[id].staged == submissions[id].paths
      requires NewTasks(Now(), id, tasks) && submissions[id].key !in runs
      requires id in reservations && reservations[id].owner == submissions[id].key.owner
      modifies this
      ensures Now() == AddGroup(old(Now()), id, group, tasks, at, max)
      ensures old(submissions)[id].key in runs && runs[old(submissions)[id].key].group == group
    {
      hide InsertJobs, InsertUploads, NewTasks, TaskIds;
      var sub := submissions[id];
      reservations := reservations - {id};
      InsertTasks(id, tasks, at, max);
      runs := runs[sub.key := AppRun(group, sub.payload, TaskIds(tasks), id)];
      submissions := submissions - {id};
      consumed := consumed + {id};
      replies := replies + [Reply(sub.key, sub.payload, Got(group))];
    }

    /** The finally block of a submission that retained nothing. */
    method CleanUp(id: Id)
      requires id in submissions && submissions[id].cleaning
      modifies this`files, this`reservations, this`submissions
      ensures Now() == CleanDone(old(Now()).(files := old(files) - old(submissions)[id].paths), id)
      ensures id !in reservations && id !in submissions
    {
      UnlinkAll(submissions[id].paths);
      reservations := reservations - {id};
      submissions := submissions - {id};
    }

    /** `release_job_uploads`: what the ended job staged, unless an unfinished job needs it. */
    method ReleaseJobUploads(id: JobId)
      requires id in tables.jobs && !ComputeRuns.Open(tables, id) && doomed == {}
      modifies this`files
      ensures files == old(files) - Release(old(Now()), id).doomed
    {
      var wanted := Referenced(uploads, id);
      var stillNeeded: set<File> := {};
      var others := uploads.Keys;
      while others != {}
        invariant others <= uploads.Keys
        invariant forall f :: f in stillNeeded <==>
                    exists j | j in uploads && j !in others :: f in uploads[j].files && ComputeRuns.Open(tables, j)
        decreases |others|
      {
        var other :| other in others;
        others := others - {other};
        if other != id && other in tables.jobs && !Terminal(tables.jobs[other]) {
          stillNeeded := stillNeeded + Referenced(uploads, other);
        }
      }
      assert wanted - stillNeeded == Release(Now(), id).doomed;
      UnlinkAll(wanted - stillNeeded);
    }

    /** `reconcile_app_inputs` for staging: every reserved path, then every reservation. */
    method Reconcile()
      requires starting
      modifies this`files, this`reservations, this`starting
      ensures reservations == map[] && !starting
      ensures files == set f | f in old(files) && !Reserved(old(Now()), f)
    {
      var left := reservations.Keys;
      while left != {}
        invariant left <= reservations.Keys && reservations == old(reservations)
        invariant forall f :: f in files <==>
                    f in old(files) && forall id | id in reservations && id !in left :: f !in reservations[id].paths
        decreases |left|
      {
        var id :| id in left;
        left := left - {id};
        UnlinkAll(reservations[id].paths);
      }
      reservations := map[];
      starting := false;
    }
  }
}
