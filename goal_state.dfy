/** The state record of the goal-tracking agent and the nodes that update it in place. */
module GoalTracking {
  import opened Wrappers
  import opened Text
  import opened Dates
  import opened Foreign
  import NutritionCalc
  import MemoryStore
  import MarkdownDoc
  import opened GoalNodes

  /** An active goal row; `goal_type` and `target_weight` may be absent. */
  datatype GoalEntry = GoalEntry(goalType: Option<int>, targetWeight: Option<real>)

  /** `goal.get("goal_type", GoalType.MAINTAIN)` */
  function GoalTypeOf(g: GoalEntry): int {
    g.goalType.GetOr(3)
  }

  /** The goal the targets follow: the first active goal's type, else maintain. */
  function PrimaryGoalType(goals: seq<GoalEntry>): int {
    if goals == [] then 3 else GoalTypeOf(goals[0])
  }

  /** `macro_targets` handed to `calculate_remaining_budget`. */
  function TargetsMap(t: NutritionCalc.Macros): map<string, real> {
    map["protein" := t.protein as real, "carbs" := t.carbs as real, "fat" := t.fat as real,
        "calories" := t.calories as real]
  }

  const ZeroConsumed: map<string, real> := map["calories" := 0.0, "protein" := 0.0, "carbs" := 0.0, "fat" := 0.0]

  /** The macro dict the targets node stores: the daily targets for the primary goal, the
      calories within half a kcal of the TDEE plus that goal's adjustment. */
  function MacroTargetsOf(tdee: real, goals: seq<GoalEntry>): (r: NutritionCalc.Macros)
    ensures NutritionCalc.Near(r.calories, tdee + NutritionCalc.CalorieAdjustment(PrimaryGoalType(goals)) as real)
  {
    var t := NutritionCalc.CalculateDailyTargets(tdee, PrimaryGoalType(goals));
    NutritionCalc.Macros(t.calories, t.protein, t.carbs, t.fat)
  }

  /** The budget the progress node records: each target less what was eaten, nothing eaten
      when the state has no consumption record. */
  function BudgetLeft(targets: NutritionCalc.Macros, consumed: Option<map<string, real>>): (r: NutritionCalc.Macros)
    ensures forall key | NutritionCalc.MacroKey(key) ::
      NutritionCalc.Near(NutritionCalc.MacroField(r, key),
        NutritionCalc.MacroField(targets, key) as real - NutritionCalc.Get0(consumed.GetOr(map[]), key))
  {
    NutritionCalc.RemainingBudget(TargetsMap(targets), consumed.GetOr(ZeroConsumed))
  }

  /** Whether progress is computed: an active goal with a non-zero target weight, and at least
      two weight records. */
  predicate TracksProgress(goals: seq<GoalEntry>, weights: seq<Option<real>>) {
    goals != [] && |weights| >= 2 && goals[0].targetWeight.Some? && goals[0].targetWeight.value != 0.0
  }

  /** The goal progress after the node: recomputed from the first and the last weight record
      when tracked, else left as it was. */
  function ProgressAfter(goals: seq<GoalEntry>, weights: seq<Option<real>>, previous: Option<NutritionCalc.Progress>)
    : (r: Option<NutritionCalc.Progress>)
    ensures !TracksProgress(goals, weights) ==> r == previous
    ensures TracksProgress(goals, weights) ==> r.Some? && 0.0 <= r.value.progressPercentage <= 100.0
    ensures TracksProgress(goals, weights) ==>
      r.value.trend == NutritionCalc.TrendOf(weights[|weights| - 1].GetOr(0.0) - weights[0].GetOr(0.0), GoalTypeOf(goals[0]))
  {
    if TracksProgress(goals, weights) then
      Some(NutritionCalc.GoalProgress(weights[0].GetOr(0.0), weights[|weights| - 1].GetOr(0.0),
        goals[0].targetWeight.value, GoalTypeOf(goals[0])))
    else previous
  }

  /** `today_consumed.get(key, 0)` as the status text shows it. */
  function ConsumedText(c: Collaborators, consumed: Option<map<string, real>>, key: string): string {
    if consumed.Some? && key in consumed.value then c.showReal(consumed.value[key]) else "0"
  }

  /** A whole-number field of an optional macro dict, 0 when the dict is absent. */
  function MacroText(m: Option<NutritionCalc.Macros>, field: NutritionCalc.Macros -> int): string {
    if m.Some? then IntToString(field(m.value)) else "0"
  }

  /** The 今日状态 section body. */
  function StatusText(c: Collaborators, consumed: Option<map<string, real>>, remaining: Option<NutritionCalc.Macros>,
                      targets: Option<NutritionCalc.Macros>, now: DateTime): string {
    "- 已摄入卡路里: " + ConsumedText(c, consumed, "calories") + " kcal\n"
    + "- 剩余配额: " + MacroText(remaining, (m: NutritionCalc.Macros) => m.calories) + " kcal\n"
    + "- 蛋白质: " + ConsumedText(c, consumed, "protein") + "g / " + MacroText(targets, (m: NutritionCalc.Macros) => m.protein) + "g\n"
    + "- 碳水: " + ConsumedText(c, consumed, "carbs") + "g / " + MacroText(targets, (m: NutritionCalc.Macros) => m.carbs) + "g\n"
    + "- 脂肪: " + ConsumedText(c, consumed, "fat") + "g / " + MacroText(targets, (m: NutritionCalc.Macros) => m.fat) + "g\n"
    + "- 更新时间: " + MinuteStamp(now)
  }

  function Bullets(items: seq<string>): (r: seq<string>)
    ensures |r| == |items|
    ensures forall i :: 0 <= i < |items| ==> r[i] == "- " + items[i]
  {
    if items == [] then [] else Bullets(items[..|items| - 1]) + ["- " + items[|items| - 1]]
  }

  /** The Agent 生成的建议 section body: one bullet per suggestion. */
  function SuggestionsText(items: seq<string>): string {
    Join(Bullets(items), "\n")
  }

  /** The section lists the suggestions back, one bullet per line, when none holds a newline. */
  lemma SuggestionsTextLines(items: seq<string>)
    requires items != []
    requires forall i :: 0 <= i < |items| ==> '\n' !in items[i]
    ensures Split(SuggestionsText(items), '\n') == Bullets(items)
  {
    var b := Bullets(items);
    forall i | 0 <= i < |b|
      ensures '\n' !in b[i]
    {
      BulletFlat(items[i]);
    }
    JoinSplit(b, '\n');
  }

  lemma BulletFlat(x: string)
    requires '\n' !in x
    ensures '\n' !in "- " + x
  {
    assert ("- " + x)[2..] == x;
  }

  /** The goal-tracking file after the save node, from what it held before. */
  function SavedGoals(current: Option<string>, status: string, suggestions: seq<string>, now: DateTime): string {
    var first := MarkdownDoc.UpdateSectionText(current, "今日状态", MarkdownDoc.Replace(status), IsoDateTime(now));
    if suggestions == [] then first
    else MarkdownDoc.UpdateSectionText(Some(first), "Agent 生成的建议", MarkdownDoc.Replace(SuggestionsText(suggestions)), IsoDateTime(now))
  }

  /** The `current_step` names the nodes write: "context_loaded", "bmr_calculated",
      "targets_calculated", "progress_tracked", "suggestions_generated", "saved_to_md" and
      "completed"; `NotStarted` is the empty name of a fresh state. */
  datatype Step = NotStarted | ContextLoaded | BmrCalculated | TargetsCalculated | ProgressTracked
                | SuggestionsGenerated | SavedToMd | Completed

  const MissingProfile: string := "Missing user profile for BMR calculation"
  const MissingTdee: string := "Missing TDEE for target calculation"
  const MissingTargets: string := "Missing daily targets for progress tracking"
  const FailurePrefix: string := "Suggestion generation failed: "
  const NoModelAdvice: string := "暂无个性化建议"
  const FailedAdvice: string := "建议生成失败，请稍后重试"

  /** Every field of the state record, for stating what a node leaves alone. */
  datatype StateView = StateView(
    userMemory: Option<string>, goalsMemory: Option<string>, userProfile: Option<Profile>,
    activeGoals: seq<GoalEntry>, todayConsumed: Option<map<string, real>>, weightHistory: seq<Option<real>>,
    bmr: Option<real>, tdee: Option<real>, dailyCalorieTarget: Option<int>,
    macroTargets: Option<NutritionCalc.Macros>, remainingBudget: Option<NutritionCalc.Macros>,
    goalProgress: Option<NutritionCalc.Progress>, suggestions: seq<string>, warnings: seq<string>,
    progressSummary: Option<string>, currentStep: Step, errorMessage: Option<string>)

  /** `GoalTrackingState`, updated in place by the nodes. */
  class GoalState {
    const userId: int
    var userMemory: Option<string>
    var goalsMemory: Option<string>
    var userProfile: Option<Profile>
    var activeGoals: seq<GoalEntry>
    var todayConsumed: Option<map<string, real>>
    var weightHistory: seq<Option<real>>
    var bmr: Option<real>
    var tdee: Option<real>
    var dailyCalorieTarget: Option<int>
    var macroTargets: Option<NutritionCalc.Macros>
    var remainingBudget: Option<NutritionCalc.Macros>
    var goalProgress: Option<NutritionCalc.Progress>
    var suggestions: seq<string>
    var warnings: seq<string>
    var progressSummary: Option<string>
    var currentStep: Step
    var errorMessage: Option<string>

    function View(): StateView
      reads this
    {
      StateView(userMemory, goalsMemory, userProfile, activeGoals, todayConsumed, weightHistory,
        bmr, tdee, dailyCalorieTarget, macroTargets, remainingBudget, goalProgress,
        suggestions, warnings, progressSummary, currentStep, errorMessage)
    }

    /** The input record: a user, plus the goal, consumption and weight data a caller supplies. */
    constructor (userId: int, activeGoals: seq<GoalEntry>, todayConsumed: Option<map<string, real>>,
                 weightHistory: seq<Option<real>>)
      ensures this.userId == userId
      ensures View() == StateView(None, None, None, activeGoals, todayConsumed, weightHistory,
        None, None, None, None, None, None, [], [], None, NotStarted, None)
    {
      this.userId := userId;
      userMemory := None;
      goalsMemory := None;
      userProfile := None;
      this.activeGoals := activeGoals;
      this.todayConsumed := todayConsumed;
      this.weightHistory := weightHistory;
      bmr := None;
      tdee := None;
      dailyCalorieTarget := None;
      macroTargets := None;
      remainingBudget := None;
      goalProgress := None;
      suggestions := [];
      warnings := [];
      progressSummary := None;
      currentStep := NotStarted;
      errorMessage := None;
    }

    /** `load_user_context`: both workspaces are read, and the profile is parsed only from a
        non-empty shared workspace. `failure` stands for the message of an exception raised
        while the configuration and the analysis model are set up, before any workspace is
        read; then only the error is recorded. */
    method LoadUserContext(store: MemoryStore.MemoryManager, failure: Option<string>)
      requires store.userId == userId
      modifies this
      ensures failure.Some? ==>
        View() == old(View()).(errorMessage := Some("Failed to load user context: " + failure.value))
      ensures failure.None? ==>
        var shared := MemoryStore.ReadIn(store.files, store.unreadable, MemoryStore.Shared);
        View() == old(View()).(
          userMemory := shared,
          goalsMemory := MemoryStore.ReadIn(store.files, store.unreadable, MemoryStore.GoalTracking),
          userProfile := if MemoryStore.HasText(shared) then Some(ProfileOf(shared.value)) else None,
          currentStep := ContextLoaded)
      ensures failure.None? && userProfile.Some? ==> ValidProfile(userProfile.value)
    {
      if failure.Some? {
        errorMessage := Some("Failed to load user context: " + failure.value);
        return;
      }
      ghost var before := View();
      var shared := MemoryStore.ReadIn(store.files, store.unreadable, MemoryStore.Shared);
      var goals := MemoryStore.ReadIn(store.files, store.unreadable, MemoryStore.GoalTracking);
      userMemory := shared;
      goalsMemory := goals;
      if MemoryStore.HasText(shared) {
        var profile := ExtractProfileFromMemory(shared.value);
        userProfile := Some(profile);
      } else {
        userProfile := None;
      }
      currentStep := ContextLoaded;
      assert View() == before.(userMemory := shared, goalsMemory := goals, userProfile := userProfile,
                               currentStep := ContextLoaded);
    }

    /** `calculate_bmr_tdee_node`: without a profile only the error is set. */
    method CalculateBmrTdee()
      modifies this
      ensures old(userProfile).None? ==>
        View() == old(View()).(errorMessage := Some(MissingProfile))
      ensures old(userProfile).Some? ==>
        var p := old(userProfile).value;
        && bmr == Some(NutritionCalc.CalculateBmr(p.weight, p.height, p.age, p.gender))
        && tdee == Some(NutritionCalc.CalculateTdee(bmr.value, p.activityLevel))
        && View() == old(View()).(bmr := bmr, tdee := tdee, currentStep := BmrCalculated)
      ensures old(userProfile).Some? ==>
        var p := old(userProfile).value;
        NutritionCalc.Abs(bmr.value - NutritionCalc.MifflinStJeor(p.weight, p.height, p.age, p.gender)) <= 0.05
    {
      if userProfile.None? {
        errorMessage := Some(MissingProfile);
        return;
      }
      var p := userProfile.value;
      var b := NutritionCalc.CalculateBmr(p.weight, p.height, p.age, p.gender);
      bmr := Some(b);
      tdee := Some(NutritionCalc.CalculateTdee(b, p.activityLevel));
      currentStep := BmrCalculated;
    }

    /** `calculate_daily_targets_node`: a missing or zero TDEE is an error; otherwise the
        targets follow the first active goal, maintain by default. */
    method CalculateDailyTargets()
      modifies this
      ensures old(tdee).None? || old(tdee).value == 0.0 ==>
        View() == old(View()).(errorMessage := Some(MissingTdee))
      ensures old(tdee).Some? && old(tdee).value != 0.0 ==>
        var t := MacroTargetsOf(old(tdee).value, activeGoals);
        && dailyCalorieTarget == Some(t.calories)
        && macroTargets == Some(t)
        && View() == old(View()).(dailyCalorieTarget := dailyCalorieTarget, macroTargets := macroTargets,
                                  currentStep := TargetsCalculated)
    {
      if tdee.None? || tdee.value == 0.0 {
        errorMessage := Some(MissingTdee);
        return;
      }
      var t := MacroTargetsOf(tdee.value, activeGoals);
      dailyCalorieTarget := Some(t.calories);
      macroTargets := Some(t);
      currentStep := TargetsCalculated;
    }

    /** `track_today_progress_node`: the budget left today, and the goal progress when the
        goal and the weight history allow it. */
    method TrackTodayProgress()
      modifies this
      ensures old(macroTargets).None? ==>
        View() == old(View()).(errorMessage := Some(MissingTargets))
      ensures old(macroTargets).Some? ==>
        && remainingBudget == Some(BudgetLeft(old(macroTargets).value, todayConsumed))
        && goalProgress == ProgressAfter(activeGoals, weightHistory, old(goalProgress))
        && View() == old(View()).(remainingBudget := remainingBudget, goalProgress := goalProgress,
                                  currentStep := ProgressTracked)
    {
      if macroTargets.None? {
        errorMessage := Some(MissingTargets);
        return;
      }
      remainingBudget := Some(BudgetLeft(macroTargets.value, todayConsumed));
      goalProgress := ProgressAfter(activeGoals, weightHistory, goalProgress);
      currentStep := ProgressTracked;
    }

    /** `generate_suggestions_node`. `reply` stands for the model call: None when no model is
        configured, `Raise` when the call fails, else the reply text. */
    method GenerateSuggestions(reading: ColonReading, reply: Option<Result<string, string>>)
      modifies this
      ensures reply.None? ==>
        View() == old(View()).(suggestions := [NoModelAdvice], warnings := [], currentStep := SuggestionsGenerated)
      ensures reply.Some? && reply.value.Raise? ==>
        View() == old(View()).(suggestions := [FailedAdvice], warnings := [],
                               errorMessage := Some(FailurePrefix + reply.value.error))
      ensures reply.Some? && reply.value.Ok? ==>
        var r := ParseReply(reading, reply.value.value);
        View() == old(View()).(suggestions := r.suggestions, warnings := r.warnings,
                               progressSummary := Some(r.summary), currentStep := SuggestionsGenerated)
      ensures suggestions != []
    {
      if reply.None? {
        StoreAdvice([NoModelAdvice], [], progressSummary, SuggestionsGenerated, errorMessage);
      } else if reply.value.Raise? {
        StoreAdvice([FailedAdvice], [], progressSummary, currentStep, Some(FailurePrefix + reply.value.error));
      } else {
        var r := ParseSuggestionResponse(reading, reply.value.value);
        StoreAdvice(r.suggestions, r.warnings, Some(r.summary), SuggestionsGenerated, errorMessage);
      }
    }

    /** The fields the suggestion node writes, written together. */
    method StoreAdvice(s: seq<string>, w: seq<string>, summary: Option<string>, step: Step, error: Option<string>)
      modifies this
      ensures View() == old(View()).(suggestions := s, warnings := w, progressSummary := summary,
                                     currentStep := step, errorMessage := error)
    {
      suggestions, warnings, progressSummary, currentStep, errorMessage := s, w, summary, step, error;
    }

    /** `save_to_goals_md_node`, with `now` standing for `datetime.now()`: the status section is
        always rewritten and the suggestions section only when there are suggestions. */
    method SaveToGoalsMd(store: MemoryStore.MemoryManager, c: Collaborators, now: DateTime)
      requires store.Valid() && store.userId == userId
      modifies this, store
      ensures store.Valid()
      ensures store.snapshots == old(store.snapshots) && store.writable == old(store.writable)
      ensures old(store.writable) ==> store.files == old(store.files)[MemoryStore.GoalTracking :=
        SavedGoals(old(MemoryStore.ReadIn(store.files, store.unreadable, MemoryStore.GoalTracking)),
          StatusText(c, todayConsumed, remainingBudget, macroTargets, now), suggestions, now)]
      ensures old(store.writable) ==> store.unreadable == old(store.unreadable) - {MemoryStore.GoalTracking}
      ensures !old(store.writable) ==> store.files == old(store.files) && store.unreadable == old(store.unreadable)
      ensures View() == old(View()).(currentStep := SavedToMd)
    {
      var status := StatusText(c, todayConsumed, remainingBudget, macroTargets, now);
      assert MemoryStore.ParseWorkspace("goal_tracking") == Some(MemoryStore.GoalTracking);
      ghost var files0, unreadable0 := store.files, store.unreadable;
      ghost var current := MemoryStore.ReadIn(store.files, store.unreadable, MemoryStore.GoalTracking);
      ghost var first := MarkdownDoc.UpdateSectionText(current, "今日状态", MarkdownDoc.Replace(status), IsoDateTime(now));
      var saved := store.UpdateSection("goal_tracking", "今日状态", status, true, now);
      assert store.writable ==> store.files == files0[MemoryStore.GoalTracking := first]
                                && store.unreadable == unreadable0 - {MemoryStore.GoalTracking};
      if suggestions != [] {
        assert store.writable ==> MemoryStore.ReadIn(store.files, store.unreadable, MemoryStore.GoalTracking) == Some(first);
        saved := store.UpdateSection("goal_tracking", "Agent 生成的建议", SuggestionsText(suggestions), true, now);
      }
      assert store.writable ==> store.files == files0[MemoryStore.GoalTracking := SavedGoals(current, status, suggestions, now)];
      currentStep := SavedToMd;
    }

    /** `format_output_node` */
    method FormatOutput()
      modifies this
      ensures View() == old(View()).(currentStep := Completed)
    {
      currentStep := Completed;
    }
  }
}
