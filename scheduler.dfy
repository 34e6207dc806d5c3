/** The background jobs: four batch jobs that sync one workspace for each user a query names,
    the process-wide scheduler that `setup_scheduler` creates once and `shutdown_scheduler`
    clears, and `run_task_now`, which runs one job by name. A database query is not modelled:
    a job is given the user ids it returns, or the exception it raises. */
module Scheduler {
  import opened Wrappers
  import opened Dates
  import opened Foreign
  import MemoryStore
  import SyncService

  // ---------------- Batch jobs ----------------

  /** A database session from `SessionLocal()`. */
  class DbSession {
    var open: bool

    constructor ()
      ensures open
    {
      open := true;
    }

    /** `close`, whose exception (if any) is `failure`; a failed close leaves the session as
        it was. */
    method Close(failure: Option<string>)
      modifies this
      ensures open <==> old(open) && failure.Some?
    {
      if failure.None? {
        open := false;
      }
    }
  }

  /** Every user in `users` has a valid store of its own. */
  ghost predicate StoresFor(stores: map<int, MemoryStore.MemoryManager>, users: seq<int>)
    reads stores.Values
  {
    && (forall j | 0 <= j < |users| :: users[j] in stores && stores[users[j]].Valid() && stores[users[j]].userId == users[j])
    && (forall u, v | u in stores && v in stores && u != v :: stores[u] != stores[v])
  }

  /** Whether each store's writes succeed. */
  function Writable(stores: map<int, MemoryStore.MemoryManager>): (r: map<int, bool>)
    reads stores.Values
    ensures r.Keys == stores.Keys
  {
    map u | u in stores :: stores[u].writable
  }

  /** How many of `users` the sync of workspace `w` succeeds for, a user counted once per
      occurrence, when `writable` says whose writes succeed. */
  function Successes(db: SyncService.Database, w: MemoryStore.Workspace, users: seq<int>, writable: map<int, bool>,
                     now: DateTime, today: Date): (r: nat)
    requires forall u | u in users :: u in writable
    ensures r <= |users|
  {
    if users == [] then 0
    else
      var u := users[|users| - 1];
      Successes(db, w, users[..|users| - 1], writable, now, today)
        + if SyncService.Succeeds(db, w, u, writable[u], now, today) then 1 else 0
  }

  /** The sync of the `i`th user: only that user's store changes, and only in workspace `w`. */
  method SyncUser(svc: SyncService.SyncService, w: MemoryStore.Workspace, users: seq<int>, i: nat,
                  stores: map<int, MemoryStore.MemoryManager>, c: Collaborators, now: DateTime, today: Date)
    returns (ok: bool)
    requires StoresFor(stores, users) && i < |users|
    modifies stores[users[i]]
    ensures StoresFor(stores, users)
    ensures ok == SyncService.Succeeds(svc.db, w, users[i], old(stores[users[i]].writable), now, today)
    ensures forall u | u in stores :: stores[u].writable == old(stores[u].writable) && stores[u].snapshots == old(stores[u].snapshots)
    ensures forall u | u in stores :: SyncService.SameExcept(old(stores[u].files), stores[u].files, {w})
  {
    var store := stores[users[i]];
    ok := SyncService.SyncWorkspace(svc, w, store, c, users[i], now, today);
    forall j | 0 <= j < |users|
      ensures stores[users[j]].Valid() && stores[users[j]].userId == users[j]
    {
    }
    forall u | u in stores
      ensures stores[u] == store || (stores[u].files == old(stores[u].files) && stores[u].writable == old(stores[u].writable)
                                     && stores[u].snapshots == old(stores[u].snapshots))
    {
    }
  }

  /** The loop of a batch job: every user is synced in turn, a failing user is counted as an
      error and the loop goes on; each user's store changes in workspace `w` only. */
  method SyncUsers(svc: SyncService.SyncService, w: MemoryStore.Workspace, users: seq<int>,
                   stores: map<int, MemoryStore.MemoryManager>, c: Collaborators, now: DateTime, today: Date)
    returns (successCount: nat, errorCount: nat)
    requires StoresFor(stores, users)
    modifies stores.Values
    ensures StoresFor(stores, users)
    ensures successCount + errorCount == |users|
    ensures successCount == Successes(svc.db, w, users, old(Writable(stores)), now, today)
    ensures forall u | u in stores :: stores[u].writable == old(stores[u].writable) && stores[u].snapshots == old(stores[u].snapshots)
    ensures forall u | u in stores :: SyncService.SameExcept(old(stores[u].files), stores[u].files, {w})
  {
    successCount, errorCount := 0, 0;
    for i := 0 to |users|
      invariant StoresFor(stores, users)
      invariant successCount + errorCount == i
      invariant forall u | u in stores :: stores[u].writable == old(stores[u].writable) && stores[u].snapshots == old(stores[u].snapshots)
      invariant forall u | u in stores :: SyncService.SameExcept(old(stores[u].files), stores[u].files, {w})
      invariant successCount == Successes(svc.db, w, users[..i], old(Writable(stores)), now, today)
    {
      assert stores[users[i]] in stores.Values;
      var result := SyncUser(svc, w, users, i, stores, c, now, today);
      if result {
        successCount := successCount + 1;
      } else {
        errorCount := errorCount + 1;
      }
      assert users[..i + 1][..i] == users[..i];
    }
    assert users[..|users|] == users;
  }

  /** The user ids of a query result without repeats, each where it first occurs. */
  function Dedup(ids: seq<int>): (r: seq<int>)
    ensures |r| <= |ids|
  {
    if ids == [] then []
    else
      var init := Dedup(ids[..|ids| - 1]);
      if ids[|ids| - 1] in ids[..|ids| - 1] then init else init + [ids[|ids| - 1]]
  }

  /** `list(set(...))` keeps every id once and no other. */
  lemma {:induction false} DedupSpec(ids: seq<int>)
    ensures forall u :: u in Dedup(ids) <==> u in ids
    ensures forall i, j | 0 <= i < j < |Dedup(ids)| :: Dedup(ids)[i] != Dedup(ids)[j]
  {
    if ids != [] {
      var init, last := ids[..|ids| - 1], ids[|ids| - 1];
      DedupSpec(init);
      assert ids == init + [last];
    }
  }

  /** The users a job iterates over: the distinct users of the active goals for the goal job,
      and the query's rows as they are for the others. */
  function UsersOf(w: MemoryStore.Workspace, rows: seq<int>): seq<int> {
    if w == MemoryStore.GoalTracking then Dedup(rows) else rows
  }

  /** `regenerate_shared_memories`, `update_goal_workspaces`, `generate_weekly_nutrition_summary`
      and `generate_chat_summary`, which differ only in the workspace `w` they sync and in the
      user query, whose result (or exception) is `query`. Three steps lie outside the job's
      `try`: the local imports and `SessionLocal()`, whose exception (if any) is `opening`, and
      `db.close()` in the `finally`, whose exception is `closing`; either escapes the job as
      `raised`. The counts are what the job logs: `None` when it never reaches the loop. */
  method RunBatchJob(w: MemoryStore.Workspace, db: SyncService.Database, opening: Option<string>,
                     query: Result<seq<int>, string>, closing: Option<string>,
                     stores: map<int, MemoryStore.MemoryManager>, c: Collaborators, now: DateTime, today: Date)
    returns (session: DbSession?, counts: Option<(nat, nat)>, raised: Option<string>)
    requires opening.None? && query.Ok? ==> StoresFor(stores, UsersOf(w, query.value))
    modifies stores.Values
    ensures opening.Some? ==> session == null && raised == opening
    ensures opening.None? ==> session != null && fresh(session) && (session.open <==> closing.Some?) && raised == closing
    ensures counts.Some? <==> opening.None? && query.Ok?
    ensures counts.Some? ==>
      var users := UsersOf(w, query.value);
      && counts.value.0 + counts.value.1 == |users|
      && counts.value.0 == Successes(db, w, users, old(Writable(stores)), now, today)
    ensures forall u | u in stores :: SyncService.SameExcept(old(stores[u].files), stores[u].files, if opening.None? then {w} else {})
  {
    if opening.Some? {
      return null, None, opening;
    }
    session := new DbSession();
    if query.Raise? {
      session.Close(closing);
      return session, None, closing;
    }
    var users := UsersOf(w, query.value);
    var svc := new SyncService.SyncService(db);
    var successCount, errorCount := SyncUsers(svc, w, users, stores, c, now, today);
    session.Close(closing);
    counts, raised := Some((successCount, errorCount)), closing;
  }

  // ---------------- Manual runs ----------------

  /** The `task_mapping` of `run_task_now`. */
  function TaskOf(name: string): (r: Option<MemoryStore.Workspace>)
    ensures r.Some? ==> MemoryStore.Name(r.value) == name || (name == "shared_memory" && r.value == MemoryStore.Shared)
  {
    if name == "shared_memory" then Some(MemoryStore.Shared)
    else if name == "goal_tracking" then Some(MemoryStore.GoalTracking)
    else if name == "nutrition" then Some(MemoryStore.Nutrition)
    else if name == "chat" then Some(MemoryStore.Chat)
    else None
  }

  /** Every workspace has a task name. */
  lemma TaskNames(w: MemoryStore.Workspace)
    ensures TaskOf(if w == MemoryStore.Shared then "shared_memory" else MemoryStore.Name(w)) == Some(w)
  {
  }

  /** `run_task_now`: `False` for an unknown task name, which runs nothing; otherwise the job
      runs and the result is `True` unless an exception escapes it, which only the steps outside
      its `try` (`opening`, `closing`) can raise. */
  method RunTaskNow(name: string, db: SyncService.Database, opening: Option<string>,
                    query: Result<seq<int>, string>, closing: Option<string>,
                    stores: map<int, MemoryStore.MemoryManager>, c: Collaborators, now: DateTime, today: Date)
    returns (r: bool)
    requires TaskOf(name).Some? && opening.None? && query.Ok? ==> StoresFor(stores, UsersOf(TaskOf(name).value, query.value))
    modifies stores.Values
    ensures r <==> TaskOf(name).Some? && opening.None? && closing.None?
    ensures forall u | u in stores :: SyncService.SameExcept(old(stores[u].files), stores[u].files,
      if TaskOf(name).Some? && opening.None? then {TaskOf(name).value} else {})
  {
    var task := TaskOf(name);
    if task.None? {
      return false;
    }
    var _, _, raised := RunBatchJob(task.value, db, opening, query, closing, stores, c, now, today);
    r := raised.None?;
  }

  // ---------------- The scheduler ----------------

  /** A job of the scheduler, by its id and the workspace its task syncs; its trigger is not
      modelled. */
  datatype JobEntry = JobEntry(id: string, task: MemoryStore.Workspace)

  /** The jobs `setup_scheduler` adds, in order. */
  const Schedule: seq<JobEntry> := [
    JobEntry("daily_shared_memory_sync", MemoryStore.Shared),
    JobEntry("daily_goal_sync", MemoryStore.GoalTracking),
    JobEntry("weekly_nutrition_summary", MemoryStore.Nutrition),
    JobEntry("weekly_chat_summary", MemoryStore.Chat)]

  function Ids(jobs: seq<JobEntry>): (r: seq<string>)
    ensures |r| == |jobs| && forall i | 0 <= i < |jobs| :: r[i] == jobs[i].id
  {
    seq(|jobs|, i requires 0 <= i < |jobs| => jobs[i].id)
  }

  /** The jobs after `add_job(..., replace_existing=True)`: the job with the same id is
      replaced in place, or the new job goes last. */
  function WithJob(jobs: seq<JobEntry>, e: JobEntry): seq<JobEntry> {
    if jobs == [] then [e]
    else if jobs[0].id == e.id then [e] + jobs[1..]
    else [jobs[0]] + WithJob(jobs[1..], e)
  }

  /** A job with a new id goes last. */
  lemma {:induction false} WithNewJob(jobs: seq<JobEntry>, e: JobEntry)
    requires e.id !in Ids(jobs)
    ensures WithJob(jobs, e) == jobs + [e]
  {
    if jobs != [] {
      assert Ids(jobs) == [jobs[0].id] + Ids(jobs[1..]);
      WithNewJob(jobs[1..], e);
      assert jobs == [jobs[0]] + jobs[1..];
    }
  }

  /** A job whose id first occurs at `i` is replaced there. */
  lemma {:induction false} WithKnownJob(jobs: seq<JobEntry>, e: JobEntry, i: nat)
    requires i < |jobs| && jobs[i].id == e.id && e.id !in Ids(jobs[..i])
    ensures WithJob(jobs, e) == jobs[i := e]
  {
    if i > 0 {
      assert Ids(jobs[..i])[0] == jobs[0].id;
      assert jobs[1..][i - 1].id == e.id;
      assert Ids(jobs[1..][..i - 1]) == Ids(jobs[..i])[1..];
      WithKnownJob(jobs[1..], e, i - 1);
      assert jobs[1..][i - 1 := e] == jobs[i := e][1..];
    }
  }

  /** Adding a job keeps one job per id: a new id goes last, a known one is replaced where it is. */
  lemma WithJobSpec(jobs: seq<JobEntry>, e: JobEntry)
    ensures e.id !in Ids(jobs) ==> WithJob(jobs, e) == jobs + [e]
    ensures forall i | 0 <= i < |jobs| && jobs[i].id == e.id && e.id !in Ids(jobs[..i]) ::
      WithJob(jobs, e) == jobs[i := e]
  {
    if e.id !in Ids(jobs) {
      WithNewJob(jobs, e);
    }
    forall i | 0 <= i < |jobs| && jobs[i].id == e.id && e.id !in Ids(jobs[..i])
      ensures WithJob(jobs, e) == jobs[i := e]
    {
      WithKnownJob(jobs, e, i);
    }
  }

  function Tasks(jobs: seq<JobEntry>): (r: seq<MemoryStore.Workspace>)
    ensures |r| == |jobs| && forall i | 0 <= i < |jobs| :: r[i] == jobs[i].task
  {
    seq(|jobs|, i requires 0 <= i < |jobs| => jobs[i].task)
  }

  /** The four jobs have distinct ids, and each workspace has exactly one job. */
  lemma ScheduleSpec()
    ensures forall i, j | 0 <= i < j < |Schedule| :: Schedule[i].id != Schedule[j].id
    ensures multiset(Tasks(Schedule)) == multiset(MemoryStore.AllWorkspaces)
  {
    assert Tasks(Schedule) == MemoryStore.AllWorkspaces;
  }

  /** An `AsyncIOScheduler`: its jobs and whether it runs. */
  class AsyncScheduler {
    var jobs: seq<JobEntry>
    var running: bool

    constructor ()
      ensures jobs == [] && !running
    {
      jobs := [];
      running := false;
    }

    method AddJob(e: JobEntry)
      modifies this
      ensures jobs == WithJob(old(jobs), e) && running == old(running)
    {
      jobs := WithJob(jobs, e);
    }

    method Start()
      modifies this
      ensures running && jobs == old(jobs)
    {
      running := true;
    }

    /** `shutdown(wait=True)` */
    method Shutdown()
      modifies this
      ensures !running && jobs == old(jobs)
    {
      running := false;
    }
  }

  /** The module-level `_scheduler`. */
  class SchedulerHost {
    var current: AsyncScheduler?

    constructor ()
      ensures current == null
    {
      current := null;
    }

    /** `get_scheduler` */
    function Get(): AsyncScheduler?
      reads this
    {
      current
    }

    /** `setup_scheduler`: the existing scheduler, untouched, when there is one; otherwise a new
      one holding the four jobs, started. */
    method Setup() returns (r: AsyncScheduler)
      modifies this
      ensures current == r
      ensures old(current) != null ==> r == old(current) && r.jobs == old(current.jobs) && r.running == old(current.running)
      ensures old(current) == null ==> fresh(r) && r.jobs == Schedule && r.running
    {
      if current != null {
        return current;
      }
      r := new AsyncScheduler();
      current := r;
      r.AddJob(Schedule[0]);
      WithJobSpec(r.jobs, Schedule[1]);
      r.AddJob(Schedule[1]);
      WithJobSpec(r.jobs, Schedule[2]);
      r.AddJob(Schedule[2]);
      WithJobSpec(r.jobs, Schedule[3]);
      r.AddJob(Schedule[3]);
      r.Start();
    }

    /** `shutdown_scheduler`: stops and clears the scheduler when there is one. */
    method Shutdown()
      modifies this, if current == null then {} else {current}
      ensures current == null
      ensures old(current) != null ==> !old(current).running && old(current).jobs == old(current.jobs)
    {
      if current != null {
        current.Shutdown();
        current := null;
      }
    }
  }
}
