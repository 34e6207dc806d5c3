/** The event handlers that keep the memory workspaces in step with the database. Each handler
    is a `try` block: its statements run in order, the first exception skips the rest and is
    caught and logged, and no handler raises. A statement is an `Action`; `Perform` runs one
    action unless an earlier one has already raised. */
module MemoryEvents {
  import opened Wrappers
  import opened Dates
  import opened Foreign
  import MemoryStore
  import SyncService

  // ---------------- Keyword calls of `update_section` ----------------

  /** The parameters of `MemoryManager.update_section`, after `self`. */
  const UpdateSectionParameters: seq<string> := ["workspace", "section", "content", "replace"]

  /** The parameters of `update_section` without a default value. */
  const UpdateSectionRequired: seq<string> := ["workspace", "section", "content"]

  /** A call made with keyword arguments only: each argument's name and the text of its value. */
  type Arguments = seq<(string, string)>

  function Names(args: Arguments): (r: seq<string>)
    ensures |r| == |args| && forall i | 0 <= i < |r| :: r[i] == args[i].0
  {
    seq(|args|, i requires 0 <= i < |args| => args[i].0)
  }

  /** Python binds keyword arguments to a function with parameters `params` exactly when every
      name is one of them, no name is given twice and every parameter in `required` (those
      without a default) is given. */
  predicate BindsTo(params: seq<string>, required: seq<string>, names: seq<string>) {
    && (forall i | 0 <= i < |names| :: names[i] in params)
    && (forall i, j | 0 <= i < j < |names| :: names[i] != names[j])
    && (forall p | p in required :: p in names)
  }

  /** Keyword arguments that bind to `update_section`. */
  predicate Binds(names: seq<string>) {
    BindsTo(UpdateSectionParameters, UpdateSectionRequired, names)
  }

  /** The value passed under `name`, or "" when there is none. */
  function Lookup(args: Arguments, name: string): (r: string)
  {
    if args == [] then ""
    else if args[0].0 == name then args[0].1
    else Lookup(args[1..], name)
  }

  /** `replace` defaults to `True`. */
  function ReplaceOf(args: Arguments): bool {
    Lookup(args, "replace") != "False"
  }

  /** A name that is not a parameter of `update_section` makes every call with it raise. */
  lemma UnexpectedKeyword(args: Arguments, name: string)
    requires name !in UpdateSectionParameters
    requires exists i | 0 <= i < |args| :: args[i].0 == name
    ensures !Binds(Names(args))
  {
    var i :| 0 <= i < |args| && args[i].0 == name;
    assert Names(args)[i] == name;
  }

  /** A call that gives `workspace`, `section` and `content` once each, and nothing else, binds. */
  lemma ContentCallBinds(workspace: string, section: string, content: string)
    ensures Binds(Names([("workspace", workspace), ("section", section), ("content", content)]))
  {
    var names := Names([("workspace", workspace), ("section", section), ("content", content)]);
    assert names == ["workspace", "section", "content"];
  }

  // ---------------- Actions ----------------

  /** The statements of the handlers that can change the store or raise. */
  datatype Action =
    | UpdateSectionCall(args: Arguments)
    | SyncSharedMemory
    | SyncGoalTracking
      /** `calculate_bmr(weight=float(profile.weight), height=float(profile.height), age=profile.age, …)`
          and the calculations after it, whose results are only logged. */
    | Recalculate(weight: Option<real>, height: Option<real>, age: Option<int>)

  /** The exception an action raises, if any: a call that does not bind raises `TypeError`
      before `update_section` starts, an unknown workspace name `ValueError`; a null weight or
      height raises `TypeError` in `float(None)`, and a null age raises `TypeError` in the
      `5 * age` of `calculate_bmr` (shared/utils/nutrition_calc.py:114-117); a sync catches
      everything itself. */
  function Raised(a: Action): (r: Option<string>)
    ensures r.Some? ==> a.UpdateSectionCall? || a.Recalculate?
  {
    match a
    case UpdateSectionCall(args) =>
      if !Binds(Names(args)) then Some("TypeError")
      else if MemoryStore.ParseWorkspace(Lookup(args, "workspace")).None? then Some("ValueError")
      else None
    case Recalculate(weight, height, age) =>
      if weight.None? || height.None? || age.None? then Some("TypeError") else None
    case _ => None
  }

  /** The workspaces whose files an action may rewrite. */
  function Touches(a: Action): set<MemoryStore.Workspace> {
    match a
    case UpdateSectionCall(args) =>
      var w := MemoryStore.ParseWorkspace(Lookup(args, "workspace"));
      if w.Some? then {w.value} else {}
    case SyncSharedMemory => {MemoryStore.Shared}
    case SyncGoalTracking => {MemoryStore.GoalTracking}
    case Recalculate(_, _, _) => {}
  }

  /** `update_section` called with the keyword arguments `args`: `TypeError` before it starts
      when they do not bind; otherwise `ValueError` for an unknown workspace, or the section
      update of that one workspace. */
  method CallUpdateSection(store: MemoryStore.MemoryManager, args: Arguments, now: DateTime) returns (error: Option<string>)
    requires store.Valid()
    modifies store
    ensures store.Valid() && store.writable == old(store.writable) && store.snapshots == old(store.snapshots)
    ensures error == Raised(UpdateSectionCall(args))
    ensures error.Some? ==> store.files == old(store.files) && store.unreadable == old(store.unreadable)
    ensures SyncService.SameExcept(old(store.files), store.files, Touches(UpdateSectionCall(args)))
  {
    if !Binds(Names(args)) {
      return Some("TypeError");
    }
    var r := store.UpdateSection(Lookup(args, "workspace"), Lookup(args, "section"), Lookup(args, "content"),
      ReplaceOf(args), now);
    error := if r.Raise? then Some(r.error) else None;
  }

  /** One statement of a handler's `try` block. After an exception (`error` is `Some`) nothing
      runs; otherwise the action runs, and is listed in `done` when it does not raise. */
  method Perform(svc: SyncService.SyncService, store: MemoryStore.MemoryManager, c: Collaborators,
                 userId: int, now: DateTime, today: Date, a: Action, done: seq<Action>, error: Option<string>)
    returns (done': seq<Action>, error': Option<string>)
    requires store.Valid() && store.userId == userId
    modifies store
    ensures store.Valid() && store.writable == old(store.writable) && store.snapshots == old(store.snapshots)
    ensures error.Some? ==> done' == done && error' == error
    ensures error.None? ==> error' == Raised(a) && done' == if error'.None? then done + [a] else done
    ensures error'.Some? ==> store.files == old(store.files) && store.unreadable == old(store.unreadable)
    ensures SyncService.SameExcept(old(store.files), store.files, Touches(a))
  {
    if error.Some? {
      return done, error;
    }
    match a {
      case UpdateSectionCall(args) =>
        var e := CallUpdateSection(store, args, now);
        if e.Some? {
          return done, e;
        }
      case SyncSharedMemory =>
        var _ := SyncService.SyncShared(svc, store, c, userId, now, today);
      case SyncGoalTracking =>
        var _ := SyncService.SyncGoal(svc, store, c, userId, now, today);
      case Recalculate(weight, height, age) =>
        if weight.None? || height.None? || age.None? {
          return done, Some("TypeError");
        }
    }
    done', error' := done + [a], None;
  }

  // ---------------- The handlers ----------------

  /** The keyword arguments the handlers pass to `update_section`; the `data` payload is never
      read, because the call does not bind. */
  function DataCall(workspace: string, section: string): Arguments {
    [("workspace", workspace), ("section", section), ("data", "")]
  }

  lemma DataCallRaises(workspace: string, section: string)
    ensures Raised(UpdateSectionCall(DataCall(workspace, section))) == Some("TypeError")
  {
    assert DataCall(workspace, section)[2].0 == "data";
    UnexpectedKeyword(DataCall(workspace, section), "data");
  }

  /** `on_food_record_created`: its `update_section` call passes `data=`, which raises
      `TypeError`, so the goal sync after it never runs and the store is left as it was. */
  method OnFoodRecordCreated(svc: SyncService.SyncService, store: MemoryStore.MemoryManager, c: Collaborators,
                             userId: int, now: DateTime, today: Date)
    returns (done: seq<Action>, error: Option<string>)
    requires store.Valid() && store.userId == userId
    modifies store
    ensures done == [] && error == Some("TypeError")
    ensures store.files == old(store.files) && store.unreadable == old(store.unreadable)
    ensures store.snapshots == old(store.snapshots) && store.Valid()
  {
    DataCallRaises("nutrition", "recent_analyses");
    done, error := Perform(svc, store, c, userId, now, today, UpdateSectionCall(DataCall("nutrition", "recent_analyses")), [], None);
    done, error := Perform(svc, store, c, userId, now, today, SyncGoalTracking, done, error);
  }

  /** `on_weight_recorded`: the `weight_progress` update raises `TypeError`, so neither the goal
      sync nor the shared sync runs. */
  method OnWeightRecorded(svc: SyncService.SyncService, store: MemoryStore.MemoryManager, c: Collaborators,
                          userId: int, now: DateTime, today: Date)
    returns (done: seq<Action>, error: Option<string>)
    requires store.Valid() && store.userId == userId
    modifies store
    ensures done == [] && error == Some("TypeError")
    ensures store.files == old(store.files) && store.unreadable == old(store.unreadable)
    ensures store.snapshots == old(store.snapshots) && store.Valid()
  {
    DataCallRaises("goal_tracking", "weight_progress");
    done, error := Perform(svc, store, c, userId, now, today, UpdateSectionCall(DataCall("goal_tracking", "weight_progress")), [], None);
    done, error := Perform(svc, store, c, userId, now, today, SyncGoalTracking, done, error);
    done, error := Perform(svc, store, c, userId, now, today, SyncSharedMemory, done, error);
  }

  /** `on_goal_changed`, with `age` standing for the profile's `age` attribute (`None` when it
      is missing or null): with a profile the targets are recalculated first, and a null
      weight, height or age raises `TypeError` there (`float(None)`, or `5 * None` in
      `calculate_bmr`) and skips the goal sync; without a profile the goal workspace is always
      synced. */
  method OnGoalChanged(svc: SyncService.SyncService, store: MemoryStore.MemoryManager, c: Collaborators,
                       userId: int, age: Option<int>, now: DateTime, today: Date)
    returns (done: seq<Action>, error: Option<string>)
    requires store.Valid() && store.userId == userId
    modifies store
    ensures var p := svc.db.RowsOf(userId).profile;
      error.Some? <==> p.Some? && (p.value.weight.None? || p.value.height.None? || age.None?)
    ensures var p := svc.db.RowsOf(userId).profile;
      done == (if p.Some? && error.None? then [Recalculate(p.value.weight, p.value.height, age)] else [])
        + (if error.None? then [SyncGoalTracking] else [])
    ensures SyncService.SameExcept(old(store.files), store.files, {MemoryStore.GoalTracking})
    ensures store.snapshots == old(store.snapshots) && store.Valid()
  {
    done, error := [], None;
    var profile := svc.db.RowsOf(userId).profile;
    if profile.Some? {
      done, error := Perform(svc, store, c, userId, now, today, Recalculate(profile.value.weight, profile.value.height, age), done, error);
    }
    done, error := Perform(svc, store, c, userId, now, today, SyncGoalTracking, done, error);
  }

  /** `on_conversation_ended`: the `recent_interactions` update raises `TypeError`, so the
      `frequent_topics` update, made only when the summary has topics, never runs either. */
  method OnConversationEnded(svc: SyncService.SyncService, store: MemoryStore.MemoryManager, c: Collaborators,
                             userId: int, hasTopics: bool, now: DateTime, today: Date)
    returns (done: seq<Action>, error: Option<string>)
    requires store.Valid() && store.userId == userId
    modifies store
    ensures done == [] && error == Some("TypeError")
    ensures store.files == old(store.files) && store.unreadable == old(store.unreadable)
    ensures store.snapshots == old(store.snapshots) && store.Valid()
  {
    DataCallRaises("chat", "recent_interactions");
    done, error := Perform(svc, store, c, userId, now, today, UpdateSectionCall(DataCall("chat", "recent_interactions")), [], None);
    if hasTopics {
      done, error := Perform(svc, store, c, userId, now, today, UpdateSectionCall(DataCall("chat", "frequent_topics")), done, error);
    }
  }

  /** The profile fields the goal calculations read. */
  const CalculationFields: set<string> := {"weight", "height", "age", "activity_level", "gender"}

  /** `on_profile_updated`: the shared workspace is always synced, and the goal workspace too
      exactly when a calculation field is among the updated ones; nothing raises. */
  method OnProfileUpdated(svc: SyncService.SyncService, store: MemoryStore.MemoryManager, c: Collaborators,
                          userId: int, updatedFields: set<string>, now: DateTime, today: Date)
    returns (done: seq<Action>, error: Option<string>)
    requires store.Valid() && store.userId == userId
    modifies store
    ensures error == None
    ensures done == [SyncSharedMemory] + if CalculationFields * updatedFields != {} then [SyncGoalTracking] else []
    ensures SyncService.SameExcept(old(store.files), store.files, {MemoryStore.Shared, MemoryStore.GoalTracking})
    ensures CalculationFields * updatedFields == {} ==> SyncService.SameExcept(old(store.files), store.files, {MemoryStore.Shared})
    ensures store.snapshots == old(store.snapshots) && store.Valid()
  {
    done, error := Perform(svc, store, c, userId, now, today, SyncSharedMemory, [], None);
    if CalculationFields * updatedFields != {} {
      done, error := Perform(svc, store, c, userId, now, today, SyncGoalTracking, done, error);
    }
  }

  /** `on_allergy_updated` and `on_disease_updated`: one shared sync, and nothing else. */
  method OnSharedRowsUpdated(svc: SyncService.SyncService, store: MemoryStore.MemoryManager, c: Collaborators,
                             userId: int, now: DateTime, today: Date)
    returns (done: seq<Action>, error: Option<string>)
    requires store.Valid() && store.userId == userId
    modifies store
    ensures done == [SyncSharedMemory] && error == None
    ensures SyncService.SameExcept(old(store.files), store.files, {MemoryStore.Shared})
    ensures store.snapshots == old(store.snapshots) && store.Valid()
  {
    done, error := Perform(svc, store, c, userId, now, today, SyncSharedMemory, [], None);
  }

  /** `on_food_record_created` with the analysis entry passed as `content=`, the keyword
      `update_section` takes: the call binds and names a known workspace, so it never raises,
      and the goal sync after it runs. */
  method OnFoodRecordCreatedWithContent(svc: SyncService.SyncService, store: MemoryStore.MemoryManager, c: Collaborators,
                                        userId: int, entry: string, now: DateTime, today: Date)
    returns (done: seq<Action>, error: Option<string>)
    requires store.Valid() && store.userId == userId
    modifies store
    ensures error == None
    ensures done == [UpdateSectionCall([("workspace", "nutrition"), ("section", "recent_analyses"), ("content", entry)]), SyncGoalTracking]
    ensures SyncService.SameExcept(old(store.files), store.files, {MemoryStore.Nutrition, MemoryStore.GoalTracking})
    ensures store.snapshots == old(store.snapshots) && store.Valid()
  {
    ContentCallBinds("nutrition", "recent_analyses", entry);
    MemoryStore.WorkspaceNames(MemoryStore.Nutrition, MemoryStore.Nutrition);
    var call := UpdateSectionCall([("workspace", "nutrition"), ("section", "recent_analyses"), ("content", entry)]);
    assert Lookup(call.args, "workspace") == "nutrition";
    done, error := Perform(svc, store, c, userId, now, today, call, [], None);
    done, error := Perform(svc, store, c, userId, now, today, SyncGoalTracking, done, error);
  }
}
