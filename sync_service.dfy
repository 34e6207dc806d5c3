/** The sync service: builds the data of each workspace from the user's database rows, renders
    it and writes it through the memory store. A database query is not modelled: each field of
    `UserRows` holds the rows one query returns, in that query's order. */
module SyncService {
  import opened Wrappers
  import opened Text
  import opened Dates
  import opened Foreign
  import opened Schemas
  import NutritionCalc
  import MarkdownRenderer
  import MemoryStore

  // ---------------- Database rows ----------------

  /** A `UserProfile` row; every column is nullable. */
  datatype ProfileRow = ProfileRow(
    birthDate: Option<Date> := None,
    gender: Option<int> := None,
    height: Option<real> := None,
    weight: Option<real> := None,
    activityLevel: Option<int> := None)

  datatype AllergyRow = AllergyRow(allergenName: string, severityLevel: Option<int>, reactionDescription: Option<string>)

  datatype DiseaseRow = DiseaseRow(diseaseName: string, diseaseCode: Option<string>, severityLevel: Option<int>, notes: Option<string>)

  datatype GoalRow = GoalRow(id: int, goalType: int, targetWeight: Option<real>, targetDate: Option<Date>)

  /** A `WeightRecord`, with the date part of `measured_at`. */
  datatype WeightRow = WeightRow(weight: real, measuredOn: Date)

  datatype SummaryRow = SummaryRow(
    totalCalories: Option<real>, totalProtein: Option<real>, totalCarbohydrates: Option<real>, totalFat: Option<real>)

  datatype FoodRecordRow = FoodRecordRow(id: int, foodName: Option<string>, recordDate: Date, mealType: int)

  /** The first `NutritionDetail` of a food record. */
  datatype DetailRow = DetailRow(calories: Option<real>, confidenceScore: Option<real>)

  datatype SessionRow = SessionRow(id: int, title: Option<string>, createdAt: Option<DateTime>)

  datatype MessageRow = MessageRow(content: Option<string>)

  /** What the queries of one user return. */
  datatype UserRows = UserRows(
    /** the user's `UserProfile`, if any */
    profile: Option<ProfileRow> := None,
    allergies: seq<AllergyRow> := [],
    /** the diseases with `is_current` */
    currentDiseases: seq<DiseaseRow> := [],
    /** the first goal with `current_status == 1` */
    activeGoal: Option<GoalRow> := None,
    /** weight records, oldest first */
    weights: seq<WeightRow> := [],
    /** today's `DailyNutritionSummary` */
    todaySummary: Option<SummaryRow> := None,
    /** the summaries of the last seven days */
    weekSummaries: seq<SummaryRow> := [],
    /** completed food records (`analysis_status == 3`) of the last thirty days */
    monthRecords: seq<FoodRecordRow> := [],
    /** completed food records, newest first */
    completedRecords: seq<FoodRecordRow> := [],
    /** the first nutrition detail of each food record that has one */
    details: map<int, DetailRow> := map[],
    /** conversation sessions, newest first */
    sessions: seq<SessionRow> := [],
    /** the user messages (`message_type == 1`) of each session, newest first */
    userMessages: map<int, seq<MessageRow>> := map[])

  /** The rows of every user, and which user ids have a `User` row. */
  datatype Database = Database(users: set<int>, rows: map<int, UserRows>) {
    function RowsOf(userId: int): UserRows {
      if userId in rows then rows[userId] else UserRows()
    }
  }

  // ---------------- Python truthiness ----------------

  predicate TruthyInt(x: Option<int>) { x.Some? && x.value != 0 }

  predicate TruthyReal(x: Option<real>) { x.Some? && x.value != 0.0 }

  predicate TruthyText(x: Option<string>) { x.Some? && x.value != "" }

  /** `x or d` */
  function OrInt(x: Option<int>, d: int): int {
    if TruthyInt(x) then x.value else d
  }

  /** `float(x) if x else d` */
  function OrReal(x: Option<real>, d: real): real {
    if TruthyReal(x) then x.value else d
  }

  // ---------------- Shared workspace ----------------

  /** `SeverityLevel(v) if v else SeverityLevel.MODERATE`; `None` where the enum raises. */
  function SeverityFrom(v: Option<int>): Option<SeverityLevel> {
    if TruthyInt(v) then SeverityOf(v.value) else Some(Moderate)
  }

  /** `ActivityLevel(v) if v else ActivityLevel.LIGHT`; `None` where the enum raises. */
  function ActivityFrom(v: Option<int>): Option<ActivityLevel> {
    if TruthyInt(v) then ActivityOf(v.value) else Some(Light)
  }

  /** The allergy list comprehension: one `AllergyInfo` per row, or `None` when some row's
      severity is not a `SeverityLevel`. */
  function Allergies(rows: seq<AllergyRow>): (r: Option<seq<AllergyInfo>>)
    ensures r.Some? <==> forall a | a in rows :: SeverityFrom(a.severityLevel).Some?
    ensures r.Some? ==> |r.value| == |rows| && forall i | 0 <= i < |rows| ::
      && r.value[i].name == rows[i].allergenName
      && r.value[i].reaction == rows[i].reactionDescription
      && SeverityFrom(rows[i].severityLevel) == Some(r.value[i].severity)
  {
    if rows == [] then Some([])
    else
      var last := rows[|rows| - 1];
      match (Allergies(rows[..|rows| - 1]), SeverityFrom(last.severityLevel))
      case (Some(init), Some(s)) =>
        assert rows == rows[..|rows| - 1] + [last];
        Some(init + [AllergyInfo(last.allergenName, s, last.reactionDescription)])
      case _ =>
        assert last in rows;
        assert forall a | a in rows[..|rows| - 1] :: a in rows;
        None
  }

  function DiseaseOf(d: DiseaseRow): DiseaseInfo {
    DiseaseInfo(d.diseaseName, d.diseaseCode, if d.severityLevel == Some(1) then "控制中" else "活跃", d.notes)
  }

  /** The disease list comprehension: a current disease is 控制中 exactly when its severity is
      1 and 活跃 otherwise. */
  function Diseases(rows: seq<DiseaseRow>): (r: seq<DiseaseInfo>)
    ensures |r| == |rows|
    ensures forall i | 0 <= i < |rows| :: r[i].name == rows[i].diseaseName && r[i].icdCode == rows[i].diseaseCode
    ensures forall i | 0 <= i < |rows| :: r[i].status in {"控制中", "活跃"} && (r[i].status == "控制中" <==> rows[i].severityLevel == Some(1))
  {
    seq(|rows|, i requires 0 <= i < |rows| => DiseaseOf(rows[i]))
  }

  /** The keyword table of `_extract_dietary_restrictions`, in its insertion order. */
  const RestrictionTable: seq<(string, string)> :=
    [("糖尿病", "低糖饮食"), ("高血压", "低钠饮食"), ("高血脂", "低脂饮食"), ("痛风", "低嘌呤饮食"), ("肾病", "低蛋白饮食")]

  function RestrictionText(restriction: string, name: string): string {
    restriction + " (" + name + ")"
  }

  function AvoidText(name: string): string {
    "避免" + name
  }

  /** What a disease named `name` contributes for the table entries `table`, in table order. */
  function Matches(name: string, table: seq<(string, string)>): seq<string> {
    if table == [] then []
    else
      var e := table[|table| - 1];
      Matches(name, table[..|table| - 1]) + (if Contains(name, e.0) then [RestrictionText(e.1, name)] else [])
  }

  function DiseaseRestrictions(diseases: seq<DiseaseInfo>): seq<string> {
    if diseases == [] then []
    else DiseaseRestrictions(diseases[..|diseases| - 1]) + Matches(diseases[|diseases| - 1].name, RestrictionTable)
  }

  function AvoidTexts(allergies: seq<AllergyInfo>): (r: seq<string>)
    ensures |r| == |allergies|
  {
    if allergies == [] then []
    else AvoidTexts(allergies[..|allergies| - 1]) + [AvoidText(allergies[|allergies| - 1].name)]
  }

  /** The restrictions `_extract_dietary_restrictions` returns: the disease ones first, then
      one avoidance per allergy, in order. */
  function Restrictions(diseases: seq<DiseaseInfo>, allergies: seq<AllergyInfo>): seq<string> {
    DiseaseRestrictions(diseases) + AvoidTexts(allergies)
  }

  lemma {:induction false} MatchesMembers(name: string, table: seq<(string, string)>, s: string)
    ensures s in Matches(name, table) <==> exists e | e in table :: Contains(name, e.0) && s == RestrictionText(e.1, name)
  {
    if table != [] {
      var init, e := table[..|table| - 1], table[|table| - 1];
      MatchesMembers(name, init, s);
      assert table == init + [e];
    }
  }

  lemma {:induction false} DiseaseRestrictionsMembers(diseases: seq<DiseaseInfo>, s: string)
    ensures s in DiseaseRestrictions(diseases) <==>
      exists d, e | d in diseases && e in RestrictionTable :: Contains(d.name, e.0) && s == RestrictionText(e.1, d.name)
  {
    if diseases != [] {
      var init, d := diseases[..|diseases| - 1], diseases[|diseases| - 1];
      DiseaseRestrictionsMembers(init, s);
      MatchesMembers(d.name, RestrictionTable, s);
      assert diseases == init + [d];
    }
  }

  lemma {:induction false} AvoidTextsAt(allergies: seq<AllergyInfo>)
    ensures forall k | 0 <= k < |allergies| :: AvoidTexts(allergies)[k] == AvoidText(allergies[k].name)
  {
    if allergies != [] {
      AvoidTextsAt(allergies[..|allergies| - 1]);
    }
  }

  lemma {:induction false} AvoidTextsMembers(allergies: seq<AllergyInfo>, s: string)
    ensures s in AvoidTexts(allergies) <==> exists a | a in allergies :: s == AvoidText(a.name)
  {
    if allergies != [] {
      var init, a := allergies[..|allergies| - 1], allergies[|allergies| - 1];
      AvoidTextsMembers(init, s);
      assert allergies == init + [a];
    }
  }

  /** A restriction is listed exactly when a disease name contains a keyword of the table (as
      that keyword's restriction, followed by the disease name) or when it is the avoidance of
      an allergen. */
  lemma RestrictionsMembers(diseases: seq<DiseaseInfo>, allergies: seq<AllergyInfo>, s: string)
    ensures s in Restrictions(diseases, allergies) <==>
      || (exists d, e | d in diseases && e in RestrictionTable :: Contains(d.name, e.0) && s == RestrictionText(e.1, d.name))
      || (exists a | a in allergies :: s == AvoidText(a.name))
  {
    var dr, av := DiseaseRestrictions(diseases), AvoidTexts(allergies);
    DiseaseRestrictionsMembers(diseases, s);
    AvoidTextsMembers(allergies, s);
    assert s in dr + av <==> s in dr || s in av;
  }

  /** The allergy avoidances close the list, one per allergy and in order. */
  lemma RestrictionsEndWithAvoidances(diseases: seq<DiseaseInfo>, allergies: seq<AllergyInfo>)
    ensures var r := Restrictions(diseases, allergies);
      |r| >= |allergies| && forall k | 0 <= k < |allergies| :: r[|r| - |allergies| + k] == AvoidText(allergies[k].name)
  {
    AvoidTextsAt(allergies);
  }

  /** `_extract_dietary_restrictions`: for each disease, each table entry whose keyword occurs
      in the disease name, then each allergy. */
  method ExtractDietaryRestrictions(diseases: seq<DiseaseInfo>, allergies: seq<AllergyInfo>) returns (restrictions: seq<string>)
    ensures restrictions == Restrictions(diseases, allergies)
  {
    restrictions := [];
    for i := 0 to |diseases|
      invariant restrictions == DiseaseRestrictions(diseases[..i])
    {
      var name := diseases[i].name;
      for j := 0 to |RestrictionTable|
        invariant restrictions == DiseaseRestrictions(diseases[..i]) + Matches(name, RestrictionTable[..j])
      {
        var (keyword, restriction) := RestrictionTable[j];
        assert RestrictionTable[..j + 1][..j] == RestrictionTable[..j];
        if Contains(name, keyword) {
          restrictions := restrictions + [RestrictionText(restriction, name)];
        }
      }
      assert RestrictionTable[..|RestrictionTable|] == RestrictionTable;
      assert diseases[..i + 1][..i] == diseases[..i];
    }
    assert diseases[..|diseases|] == diseases;
    for k := 0 to |allergies|
      invariant restrictions == DiseaseRestrictions(diseases) + AvoidTexts(allergies[..k])
    {
      assert allergies[..k + 1][..k] == allergies[..k];
      restrictions := restrictions + [AvoidText(allergies[k].name)];
    }
    assert allergies[..|allergies|] == allergies;
  }

  /** `calculate_age(birth_date) if birth_date else 30` */
  function AgeOf(birth: Option<Date>, today: Date): int {
    if birth.Some? then NutritionCalc.CalculateAge(birth.value, today) else 30
  }

  /** The `SharedMemoryData` of `sync_shared_memory` for a user with a profile; `None` where
      an allergy severity or the activity level is not a member of its enum (the ValueError
      the sync turns into `False`). */
  function SharedDataOf(userId: int, p: ProfileRow, allergies: seq<AllergyRow>, diseases: seq<DiseaseRow>,
                        now: DateTime, today: Date): (r: Option<SharedMemoryData>)
    ensures r.Some? <==> (forall a | a in allergies :: SeverityFrom(a.severityLevel).Some?) && ActivityFrom(p.activityLevel).Some?
    ensures r.Some? ==>
      && r.value.userId == userId && r.value.lastUpdated == now
      && |r.value.allergies| == |allergies| && |r.value.diseases| == |diseases| && r.value.medications == []
      && r.value.foodPreferences == FoodPreferences([], [], Restrictions(r.value.diseases, r.value.allergies))
      && r.value.behaviorPatterns == BehaviorPatterns()
  {
    match (Allergies(allergies), ActivityFrom(p.activityLevel))
    case (Some(al), Some(level)) =>
      var ds := Diseases(diseases);
      Some(SharedMemoryData(
        userId := userId, lastUpdated := now,
        gender := OrInt(p.gender, 1), age := AgeOf(p.birthDate, today),
        height := OrReal(p.height, 170.0), weight := OrReal(p.weight, 70.0),
        activityLevel := level, allergies := al, diseases := ds, medications := [],
        foodPreferences := FoodPreferences([], [], Restrictions(ds, al)),
        behaviorPatterns := BehaviorPatterns()))
    case _ => None
  }

  /** Missing or zero profile fields read as gender 1, age 30, 170 cm, 70 kg and a light
      activity level; present ones are taken as they are. */
  lemma SharedProfileDefaults(userId: int, p: ProfileRow, now: DateTime, today: Date)
    requires ActivityFrom(p.activityLevel).Some?
    ensures var r := SharedDataOf(userId, p, [], [], now, today);
      && r.Some?
      && r.value.gender == (if TruthyInt(p.gender) then p.gender.value else 1)
      && r.value.age == (if p.birthDate.Some? then NutritionCalc.CalculateAge(p.birthDate.value, today) else 30)
      && r.value.height == (if TruthyReal(p.height) then p.height.value else 170.0)
      && r.value.weight == (if TruthyReal(p.weight) then p.weight.value else 70.0)
      && (TruthyInt(p.activityLevel) ==> ActivityValue(r.value.activityLevel) == p.activityLevel.value)
      && (!TruthyInt(p.activityLevel) ==> r.value.activityLevel == Light)
      && r.value.foodPreferences.dietaryRestrictions == []
  {
    EnumValuesRoundTrip();
  }

  // ---------------- Goal tracking workspace ----------------

  /** The `ActiveGoal` built from the goal row; `None` where its goal type is not a `GoalType`.
      A zero target weight reads as no target. */
  function ActiveGoalOf(g: GoalRow): (r: Option<ActiveGoal>)
    ensures r.Some? <==> 1 <= g.goalType <= 5
    ensures r.Some? ==> r.value.goalId == g.id && GoalTypeValue(r.value.goalType) == g.goalType && r.value.status == "进行中"
    ensures r.Some? ==> r.value.targetWeight == (if TruthyReal(g.targetWeight) then g.targetWeight else None)
  {
    match GoalTypeOf(g.goalType)
    case None => None
    case Some(t) => Some(ActiveGoal(g.id, t, if TruthyReal(g.targetWeight) then g.targetWeight else None, g.targetDate, "进行中"))
  }

  /** The `DailyTargets` record: the integer targets as floats. */
  function TargetsOf(t: NutritionCalc.Targets): DailyTargets {
    DailyTargets(t.calories as real, t.protein as real, t.carbs as real, t.fat as real, t.calorieAdjustment as real)
  }

  /** The weight progress, present only with weight records and a target weight: from the
      oldest to the newest record. */
  function ProgressOf(weights: seq<WeightRow>, goal: ActiveGoal): (r: Option<WeightProgress>)
    ensures r.Some? <==> weights != [] && TruthyReal(goal.targetWeight)
    ensures r.Some? ==>
      && r.value.startingDate == weights[0].measuredOn && r.value.currentDate == weights[|weights| - 1].measuredOn
      && r.value.startingWeight == weights[0].weight && r.value.currentWeight == weights[|weights| - 1].weight
      && 0.0 <= r.value.progressPercentage <= 100.0
      && r.value.targetRemaining.Some? && r.value.targetRemaining.value >= 0.0
  {
    if weights != [] && TruthyReal(goal.targetWeight) then
      var first, last := weights[0], weights[|weights| - 1];
      var p := NutritionCalc.GoalProgress(first.weight, last.weight, goal.targetWeight.value, GoalTypeValue(goal.goalType));
      Some(WeightProgress(p.startingWeight, first.measuredOn, p.currentWeight, last.measuredOn,
        p.weightChange, Some(p.remaining), p.progressPercentage))
    else None
  }

  /** Today's status: what today's summary records as consumed (a missing or zero column reads
      as 0), and the targets minus that. */
  function TodayStatusOf(targets: DailyTargets, summary: Option<SummaryRow>, now: DateTime): (r: TodayStatus)
    ensures r.lastUpdated == now
    ensures r.consumedCalories + r.remainingCalories == targets.calories
    ensures r.consumedProtein + r.remainingProtein == targets.protein
    ensures r.consumedCarbs + r.remainingCarbs == targets.carbs
    ensures r.consumedFat + r.remainingFat == targets.fat
    ensures summary.None? ==> r.consumedCalories == r.consumedProtein == r.consumedCarbs == r.consumedFat == 0.0
    ensures summary.Some? ==>
      && r.consumedCalories == OrReal(summary.value.totalCalories, 0.0)
      && r.consumedProtein == OrReal(summary.value.totalProtein, 0.0)
      && r.consumedCarbs == OrReal(summary.value.totalCarbohydrates, 0.0)
      && r.consumedFat == OrReal(summary.value.totalFat, 0.0)
  {
    match summary
    case None =>
      TodayStatus(now, remainingCalories := targets.calories, remainingProtein := targets.protein,
        remainingCarbs := targets.carbs, remainingFat := targets.fat)
    case Some(s) =>
      var cal, pro := OrReal(s.totalCalories, 0.0), OrReal(s.totalProtein, 0.0);
      var carb, fat := OrReal(s.totalCarbohydrates, 0.0), OrReal(s.totalFat, 0.0);
      TodayStatus(now, cal, pro, carb, fat, targets.calories - cal, targets.protein - pro, targets.carbs - carb, targets.fat - fat)
  }

  /** The `GoalTrackingData` of `sync_goal_tracking` for a user with a profile; `None` where the
      active goal's type is not a `GoalType`. */
  function GoalDataOf(userId: int, p: ProfileRow, goal: Option<GoalRow>, weights: seq<WeightRow>,
                      summary: Option<SummaryRow>, now: DateTime, today: Date): (r: Option<GoalTrackingData>)
    ensures r.None? <==> goal.Some? && !(1 <= goal.value.goalType <= 5)
    ensures r.Some? ==> r.value.userId == userId && r.value.lastUpdated == now
    ensures r.Some? ==> r.value.activeGoal.Some? == goal.Some? && r.value.dailyTargets.Some? && r.value.bmrTdee.Some?
    ensures r.Some? ==> r.value.milestones == [] && r.value.suggestions == [] && r.value.warnings == []
  {
    if goal.Some? && ActiveGoalOf(goal.value).None? then None
    else
      var active := if goal.Some? then ActiveGoalOf(goal.value) else None;
      var bmr := NutritionCalc.CalculateBmr(OrReal(p.weight, 70.0), OrReal(p.height, 170.0), AgeOf(p.birthDate, today), OrInt(p.gender, 1));
      var level := OrInt(p.activityLevel, 2);
      var tdee := NutritionCalc.CalculateTdee(bmr, level);
      var goalType := if active.Some? then active.value.goalType else Maintain;
      var targets := TargetsOf(NutritionCalc.CalculateDailyTargets(tdee, GoalTypeValue(goalType)));
      Some(GoalTrackingData(
        userId := userId, lastUpdated := now, activeGoal := active,
        bmrTdee := Some(BmrTdeeData(bmr, tdee, NutritionCalc.ActivityFactor(level), now)),
        dailyTargets := Some(targets),
        weightProgress := if active.Some? then ProgressOf(weights, active.value) else None,
        todayStatus := TodayStatusOf(targets, summary, now),
        milestones := [], suggestions := [], warnings := []))
  }

  /** The baseline: BMR from the profile (70 kg, 170 cm, age 30 and gender 1 where missing),
      TDEE at the profile's activity level (2 where missing), and the daily targets of the active
      goal's type, or of MAINTAIN (no calorie adjustment) without an active goal. */
  lemma GoalBaseline(userId: int, p: ProfileRow, goal: Option<GoalRow>, weights: seq<WeightRow>,
                     summary: Option<SummaryRow>, now: DateTime, today: Date)
    requires goal.None? || 1 <= goal.value.goalType <= 5
    ensures var r := GoalDataOf(userId, p, goal, weights, summary, now, today).value;
      var bmr := NutritionCalc.CalculateBmr(OrReal(p.weight, 70.0), OrReal(p.height, 170.0), AgeOf(p.birthDate, today), OrInt(p.gender, 1));
      var tdee := NutritionCalc.CalculateTdee(bmr, OrInt(p.activityLevel, 2));
      var goalType := if goal.Some? then goal.value.goalType else 3;
      && r.bmrTdee.value.bmr == bmr && r.bmrTdee.value.tdee == tdee
      && r.bmrTdee.value.activityFactor == NutritionCalc.ActivityFactor(OrInt(p.activityLevel, 2))
      && r.dailyTargets.value.calorieAdjustment == NutritionCalc.CalorieAdjustment(goalType) as real
      && NutritionCalc.Abs(r.dailyTargets.value.calories - (tdee + NutritionCalc.CalorieAdjustment(goalType) as real)) <= 0.5
      && (goal.None? ==> r.dailyTargets.value.calorieAdjustment == 0.0)
  {
  }

  /** Today's consumption and what remains add up to the daily targets, and the weight progress
      is there exactly when there is an active goal with a target weight and at least one weight
      record. */
  lemma GoalTodayAndProgress(userId: int, p: ProfileRow, goal: Option<GoalRow>, weights: seq<WeightRow>,
                             summary: Option<SummaryRow>, now: DateTime, today: Date)
    requires goal.None? || 1 <= goal.value.goalType <= 5
    ensures var r := GoalDataOf(userId, p, goal, weights, summary, now, today).value;
      && r.todayStatus.consumedCalories + r.todayStatus.remainingCalories == r.dailyTargets.value.calories
      && r.todayStatus.consumedProtein + r.todayStatus.remainingProtein == r.dailyTargets.value.protein
      && r.todayStatus.consumedCarbs + r.todayStatus.remainingCarbs == r.dailyTargets.value.carbs
      && r.todayStatus.consumedFat + r.todayStatus.remainingFat == r.dailyTargets.value.fat
      && (r.weightProgress.Some? <==> goal.Some? && TruthyReal(goal.value.targetWeight) && weights != [])
      && (r.weightProgress.Some? ==> 0.0 <= r.weightProgress.value.progressPercentage <= 100.0)
  {
  }

  // ---------------- Sorting and dictionaries ----------------

  predicate SortedDesc<T>(xs: seq<T>, key: T -> int) {
    forall i, j | 0 <= i < j < |xs| :: key(xs[i]) >= key(xs[j])
  }

  /** Inserts `x`, which comes after every element of `xs` in the input, behind every element
      whose key is at least its own. */
  function InsertDesc<T>(x: T, xs: seq<T>, key: T -> int): (r: seq<T>)
    ensures |r| == |xs| + 1
  {
    if xs == [] then [x]
    else if key(xs[0]) >= key(x) then [xs[0]] + InsertDesc(x, xs[1..], key)
    else [x] + xs
  }

  /** `sorted(xs, key=key, reverse=True)`: a stable sort by descending key. */
  function SortDesc<T>(xs: seq<T>, key: T -> int): (r: seq<T>)
    ensures |r| == |xs|
  {
    if xs == [] then [] else InsertDesc(xs[|xs| - 1], SortDesc(xs[..|xs| - 1], key), key)
  }

  lemma {:induction false} InsertDescPerm<T>(x: T, xs: seq<T>, key: T -> int)
    ensures multiset(InsertDesc(x, xs, key)) == multiset(xs) + multiset{x}
  {
    if xs != [] && key(xs[0]) >= key(x) {
      InsertDescPerm(x, xs[1..], key);
      assert xs == [xs[0]] + xs[1..];
    }
  }

  lemma {:induction false} InsertDescSorted<T>(x: T, xs: seq<T>, key: T -> int)
    requires SortedDesc(xs, key)
    ensures SortedDesc(InsertDesc(x, xs, key), key)
  {
    if xs != [] && key(xs[0]) >= key(x) {
      var rest := InsertDesc(x, xs[1..], key);
      InsertDescSorted(x, xs[1..], key);
      InsertDescPerm(x, xs[1..], key);
      forall k | 0 <= k < |rest|
        ensures key(xs[0]) >= key(rest[k])
      {
        assert rest[k] in multiset(rest);
        if rest[k] != x {
          assert rest[k] in multiset(xs[1..]);
          var m :| 0 <= m < |xs[1..]| && xs[1..][m] == rest[k];
          assert xs[m + 1] == rest[k];
        }
      }
    }
  }

  /** The sort orders by descending key and only permutes its input. */
  lemma {:induction false} SortDescSpec<T>(xs: seq<T>, key: T -> int)
    ensures SortedDesc(SortDesc(xs, key), key)
    ensures multiset(SortDesc(xs, key)) == multiset(xs)
  {
    if xs != [] {
      var init := xs[..|xs| - 1];
      SortDescSpec(init, key);
      InsertDescSorted(xs[|xs| - 1], SortDesc(init, key), key);
      InsertDescPerm(xs[|xs| - 1], SortDesc(init, key), key);
      assert xs == init + [xs[|xs| - 1]];
    }
  }

  /** `d.items()` of a dictionary whose keys all have values, in insertion order. */
  function Entries<V>(d: Dict<V>): (r: seq<(string, V)>)
    requires forall k | k in d.keys :: k in d.values
    ensures |r| == |d.keys|
    ensures forall i | 0 <= i < |r| :: r[i] == (d.keys[i], d.values[d.keys[i]])
  {
    seq(|d.keys|, i requires 0 <= i < |d.keys| => (d.keys[i], d.values[d.keys[i]]))
  }

  // ---------------- Nutrition workspace ----------------

  function CaloriesOf(s: SummaryRow): real { OrReal(s.totalCalories, 0.0) }
  function ProteinOf(s: SummaryRow): real { OrReal(s.totalProtein, 0.0) }
  function CarbsOf(s: SummaryRow): real { OrReal(s.totalCarbohydrates, 0.0) }
  function FatOf(s: SummaryRow): real { OrReal(s.totalFat, 0.0) }

  /** `sum(f(s) for s in rows)` */
  function Sum(rows: seq<SummaryRow>, f: SummaryRow -> real): real {
    if rows == [] then 0.0 else Sum(rows[..|rows| - 1], f) + f(rows[|rows| - 1])
  }

  /** `round(sum(...) / len(rows), 1)` */
  function Average(rows: seq<SummaryRow>, f: SummaryRow -> real): real
    requires rows != []
  {
    NutritionCalc.Round1(Sum(rows, f) / |rows| as real)
  }

  /** The seven-day diet summary: the defaults without summaries, otherwise per-day averages
      rounded to one decimal, and regular meals when at least five days have a summary. */
  function DietSummaryOf(rows: seq<SummaryRow>): (r: DietSummary)
    ensures rows == [] ==> r == DietSummary()
    ensures r.periodDays == 7
    ensures r.mealRegularity == "良好" <==> rows == [] || |rows| >= 5
    ensures r.mealRegularity in {"良好", "需改善"}
  {
    if rows == [] then DietSummary()
    else DietSummary(7, Average(rows, CaloriesOf), Average(rows, ProteinOf), Average(rows, CarbsOf), Average(rows, FatOf),
      if |rows| >= 5 then "良好" else "需改善")
  }

  lemma {:induction false} SumBounds(rows: seq<SummaryRow>, f: SummaryRow -> real, lo: real, hi: real)
    requires forall s | s in rows :: lo <= f(s) <= hi
    ensures |rows| as real * lo <= Sum(rows, f) <= |rows| as real * hi
  {
    if rows != [] {
      var init := rows[..|rows| - 1];
      assert forall s | s in init :: s in rows;
      assert rows[|rows| - 1] in rows;
      SumBounds(init, f, lo, hi);
      StepBounds(|init|, Sum(init, f), f(rows[|rows| - 1]), lo, hi);
    }
  }

  lemma StepBounds(n: nat, total: real, x: real, lo: real, hi: real)
    requires n as real * lo <= total <= n as real * hi && lo <= x <= hi
    ensures (n + 1) as real * lo <= total + x <= (n + 1) as real * hi
  {
    assert (n + 1) as real * lo == n as real * lo + lo;
    assert (n + 1) as real * hi == n as real * hi + hi;
  }

  /** A rounded average lies within the daily values' range, up to the rounding. */
  lemma AverageBounds(rows: seq<SummaryRow>, f: SummaryRow -> real, lo: real, hi: real)
    requires rows != []
    requires forall s | s in rows :: lo <= f(s) <= hi
    ensures lo - 0.05 <= Average(rows, f) <= hi + 0.05
  {
    SumBounds(rows, f, lo, hi);
    var n := |rows| as real;
    var m := Sum(rows, f) / n;
    assert m * n == Sum(rows, f);
    assert lo <= m <= hi;
  }

  /** An entry of `food_counts`. */
  datatype FoodCount = FoodCount(count: int, totalCalories: real, healthLevels: seq<string>)

  /** The health level a confidence score maps to. */
  function LevelOf(confidence: real): (r: string)
    ensures r in {"A", "B", "C"}
  {
    if confidence >= 0.8 then "A" else if confidence >= 0.6 then "B" else "C"
  }

  /** What one record adds to `food_counts`: nothing without a food name; otherwise one more
      occurrence of its name (a new entry at the end when the name is new), its detail's calories
      and, with a confidence score, that score's health level. */
  function CountRecord(counts: Dict<FoodCount>, r: FoodRecordRow, details: map<int, DetailRow>): (c: Dict<FoodCount>)
    ensures (forall k | k in counts.keys :: k in counts.values) ==> forall k | k in c.keys :: k in c.values
  {
    if !TruthyText(r.foodName) then counts
    else
      var name := r.foodName.value;
      var added := if name in counts.values then counts
        else Dict(counts.keys + [name], counts.values[name := FoodCount(0, 0.0, [])]);
      var e := added.values[name];
      var e1 := e.(count := e.count + 1);
      var e2 := if r.id !in details then e1
        else
          var d := details[r.id];
          e1.(totalCalories := e1.totalCalories + OrReal(d.calories, 0.0),
              healthLevels := if TruthyReal(d.confidenceScore) then e1.healthLevels + [LevelOf(d.confidenceScore.value)] else e1.healthLevels);
      Dict(added.keys, added.values[name := e2])
  }

  /** `food_counts` after the loop over `records`. */
  function FoodCounts(records: seq<FoodRecordRow>, details: map<int, DetailRow>): (c: Dict<FoodCount>)
    ensures forall k | k in c.keys :: k in c.values
  {
    if records == [] then Dict([], map[])
    else CountRecord(FoodCounts(records[..|records| - 1], details), records[|records| - 1], details)
  }

  /** How many of the records carry the food name `name`. */
  function NamedCount(records: seq<FoodRecordRow>, name: string): nat {
    if records == [] then 0
    else NamedCount(records[..|records| - 1], name) + (if records[|records| - 1].foodName == Some(name) then 1 else 0)
  }

  predicate LevelsValid(counts: Dict<FoodCount>) {
    forall k | k in counts.values :: forall l | l in counts.values[k].healthLevels :: l in {"A", "B", "C"}
  }

  /** One record adds one occurrence to its non-empty name, and nothing else. */
  lemma CountRecordStep(counts: Dict<FoodCount>, r: FoodRecordRow, details: map<int, DetailRow>)
    requires counts.Valid() && LevelsValid(counts) && "" !in counts.values
    ensures var c := CountRecord(counts, r, details);
      && c.Valid() && LevelsValid(c) && "" !in c.values
      && (forall k :: k in c.values <==> k in counts.values || (TruthyText(r.foodName) && k == r.foodName.value))
      && (forall k | k in c.values ::
            c.values[k].count == (if k in counts.values then counts.values[k].count else 0) + (if r.foodName == Some(k) then 1 else 0))
  {
    if TruthyText(r.foodName) && r.foodName.value !in counts.values {
      assert forall i | 0 <= i < |counts.keys| :: counts.keys[i] in counts.values;
    }
  }

  /** `food_counts` is a dictionary with an entry for exactly the non-empty food names of the
      records, each counting the records with that name, in first-occurrence order. */
  lemma {:induction false} FoodCountsSpec(records: seq<FoodRecordRow>, details: map<int, DetailRow>)
    ensures FoodCounts(records, details).Valid() && LevelsValid(FoodCounts(records, details))
    ensures forall k :: k in FoodCounts(records, details).values <==> k != "" && NamedCount(records, k) > 0
    ensures forall k | k in FoodCounts(records, details).values :: FoodCounts(records, details).values[k].count == NamedCount(records, k)
  {
    if records != [] {
      var init, r := records[..|records| - 1], records[|records| - 1];
      FoodCountsSpec(init, details);
      CountRecordStep(FoodCounts(init, details), r, details);
    }
  }

  /** `max(set(levels), key=levels.count)` over the candidates `cands`: a candidate with the
      largest count. Python walks the set in hash order, which varies between runs, so on a
      tie the level it returns is not determined; this model takes the first listed one. */
  function ModeAmong(levels: seq<string>, cands: seq<string>): (r: string)
    requires cands != []
    ensures r in cands && forall c | c in cands :: multiset(levels)[c] <= multiset(levels)[r]
  {
    if |cands| == 1 then cands[0]
    else
      var m := ModeAmong(levels, cands[..|cands| - 1]);
      var last := cands[|cands| - 1];
      assert cands == cands[..|cands| - 1] + [last];
      if multiset(levels)[last] > multiset(levels)[m] then last else m
  }

  /** The most frequent health level. */
  function Mode(levels: seq<string>): (r: string)
    requires levels != []
    ensures r in levels && forall l | l in levels :: multiset(levels)[l] <= multiset(levels)[r]
  {
    ModeAmong(levels, levels)
  }

  function FoodKey(e: (string, FoodCount)): int { e.1.count }

  /** One `FrequentFood`: the average calories rounded to a whole number (`round(x, 0)`), and
      the most frequent health level, or B without one. */
  function FrequentFoodOf(e: (string, FoodCount)): (r: FrequentFood)
    ensures r.name == e.0 && r.frequency == e.1.count
    ensures r.healthLevel == "B" || r.healthLevel in e.1.healthLevels
  {
    var avg := if e.1.count > 0 then e.1.totalCalories / e.1.count as real else 0.0;
    FrequentFood(e.0, e.1.count, NutritionCalc.Round(avg) as real,
      if e.1.healthLevels == [] then "B" else Mode(e.1.healthLevels))
  }

  /** `sorted(d.items(), key=key, reverse=True)[:n]` */
  function TopEntries<V>(d: Dict<V>, key: ((string, V)) -> int, n: nat): (r: seq<(string, V)>)
    requires forall k | k in d.keys :: k in d.values
    ensures |r| <= n
  {
    MarkdownRenderer.First(SortDesc(Entries(d), key), n)
  }

  /** The first `n` entries by descending key are entries of the dictionary. */
  lemma TopEntriesFrom<V>(d: Dict<V>, key: ((string, V)) -> int, n: nat)
    requires d.Valid()
    ensures var t := TopEntries(d, key, n);
      && SortedDesc(t, key)
      && (forall i | 0 <= i < |t| :: t[i].0 in d.values && t[i].1 == d.values[t[i].0])
  {
    var entries := Entries(d);
    var sorted := SortDesc(entries, key);
    SortDescSpec(entries, key);
    var t := TopEntries(d, key, n);
    forall i | 0 <= i < |t|
      ensures t[i].0 in d.values && t[i].1 == d.values[t[i].0]
    {
      assert t[i] == sorted[i];
      assert sorted[i] in multiset(entries);
      var j :| 0 <= j < |entries| && entries[j] == sorted[i];
    }
  }

  /** An entry left out of the first `n` has a key no larger than the last one kept, of which
      there are then `n`. */
  lemma TopEntriesComplete<V>(d: Dict<V>, key: ((string, V)) -> int, n: nat, k: string)
    requires d.Valid() && n > 0 && k in d.values
    requires forall i | 0 <= i < |TopEntries(d, key, n)| :: TopEntries(d, key, n)[i].0 != k
    ensures |TopEntries(d, key, n)| == n && key((k, d.values[k])) <= key(TopEntries(d, key, n)[n - 1])
  {
    var entries := Entries(d);
    var sorted := SortDesc(entries, key);
    SortDescSpec(entries, key);
    var t := TopEntries(d, key, n);
    assert t == sorted[..|t|];
    var j :| 0 <= j < |d.keys| && d.keys[j] == k;
    assert entries[j] in multiset(sorted);
    var p :| 0 <= p < |sorted| && sorted[p] == entries[j];
    assert sorted[p].0 == k;
    forall i | 0 <= i < |t|
      ensures sorted[i].0 != k
    {
      assert t[i] == sorted[i];
    }
    assert p >= |t|;
    assert |t| == n;
    assert key(sorted[n - 1]) >= key(sorted[p]);
  }

  /** The ten most frequent foods, most frequent first. */
  function TopFoods(counts: Dict<FoodCount>): (r: seq<FrequentFood>)
    requires forall k | k in counts.keys :: k in counts.values
    ensures |r| <= 10
  {
    var top := TopEntries(counts, FoodKey, 10);
    seq(|top|, i requires 0 <= i < |top| => FrequentFoodOf(top[i]))
  }

  /** The `frequent_foods` of `sync_nutrition_workspace`. */
  function FrequentFoods(records: seq<FoodRecordRow>, details: map<int, DetailRow>): seq<FrequentFood> {
    TopFoods(FoodCounts(records, details))
  }

  /** The top foods of a tally: most frequent first, each an entry of the tally with its count
      and a health level A, B or C. */
  lemma TopFoodsFrom(counts: Dict<FoodCount>)
    requires counts.Valid() && LevelsValid(counts)
    ensures var r := TopFoods(counts);
      && (forall i, j | 0 <= i < j < |r| :: r[i].frequency >= r[j].frequency)
      && (forall i | 0 <= i < |r| :: r[i].name in counts.values && r[i].frequency == counts.values[r[i].name].count)
      && (forall i | 0 <= i < |r| :: r[i].healthLevel in {"A", "B", "C"})
  {
    TopEntriesFrom(counts, FoodKey, 10);
    var top := TopEntries(counts, FoodKey, 10);
    var r := TopFoods(counts);
    assert |r| == |top| && forall i | 0 <= i < |r| :: r[i] == FrequentFoodOf(top[i]);
  }

  /** A tally entry left out of the top foods counts no more than the tenth. */
  lemma TopFoodsComplete(counts: Dict<FoodCount>, k: string)
    requires counts.Valid() && k in counts.values
    requires forall i | 0 <= i < |TopFoods(counts)| :: TopFoods(counts)[i].name != k
    ensures |TopFoods(counts)| == 10 && counts.values[k].count <= TopFoods(counts)[9].frequency
  {
    var top := TopEntries(counts, FoodKey, 10);
    var r := TopFoods(counts);
    assert |r| == |top| && forall i | 0 <= i < |r| :: r[i].name == top[i].0 && r[i].frequency == top[i].1.count;
    TopEntriesComplete(counts, FoodKey, 10, k);
  }

  /** The frequent foods are at most ten, most frequent first; each is a non-empty food name of
      the records with its exact number of records and a health level A, B or C; and a food left
      out is one that occurs no more often than the tenth. */
  lemma FrequentFoodsSpec(records: seq<FoodRecordRow>, details: map<int, DetailRow>)
    ensures var r := FrequentFoods(records, details);
      && |r| <= 10
      && (forall i, j | 0 <= i < j < |r| :: r[i].frequency >= r[j].frequency)
      && (forall i | 0 <= i < |r| :: r[i].name != "" && r[i].frequency == NamedCount(records, r[i].name) > 0)
      && (forall i | 0 <= i < |r| :: r[i].healthLevel in {"A", "B", "C"})
      && (forall n | n != "" && NamedCount(records, n) > 0 && (forall i | 0 <= i < |r| :: r[i].name != n) ::
            |r| == 10 && NamedCount(records, n) <= r[9].frequency)
  {
    FoodCountsSpec(records, details);
    var counts := FoodCounts(records, details);
    TopFoodsFrom(counts);
    forall n | n != "" && NamedCount(records, n) > 0 && (forall i | 0 <= i < |TopFoods(counts)| :: TopFoods(counts)[i].name != n)
      ensures |TopFoods(counts)| == 10 && NamedCount(records, n) <= TopFoods(counts)[9].frequency
    {
      TopFoodsComplete(counts, n);
    }
  }

  /** `meal_type_map.get(meal_type, "未知")` */
  function MealTypeName(m: int): (r: string)
    ensures r in {"早餐", "午餐", "晚餐", "加餐", "夜宵", "未知"}
    ensures r == "未知" <==> !(1 <= m <= 5)
  {
    if m == 1 then "早餐" else if m == 2 then "午餐" else if m == 3 then "晚餐"
    else if m == 4 then "加餐" else if m == 5 then "夜宵" else "未知"
  }

  /** One recent analysis: the record's date and meal, one food (未识别 without a name), the
      detail's calories or 0, and level A. */
  function AnalysisOf(r: FoodRecordRow, d: DetailRow): (a: RecentAnalysis)
    ensures a.date == r.recordDate && |a.foods| == 1 && a.healthLevel == "A"
    ensures !TruthyText(r.foodName) ==> a.foods == ["未识别"]
  {
    RecentAnalysis(r.recordDate, MealTypeName(r.mealType),
      if TruthyText(r.foodName) then [r.foodName.value] else ["未识别"], OrReal(d.calories, 0.0), "A")
  }

  /** The `recent_analyses` list: one analysis per record that has a nutrition detail, in the
      records' order. */
  function RecentAnalyses(records: seq<FoodRecordRow>, details: map<int, DetailRow>): (r: seq<RecentAnalysis>)
    ensures |r| <= |records|
  {
    if records == [] then []
    else
      var r := records[|records| - 1];
      RecentAnalyses(records[..|records| - 1], details) + (if r.id in details then [AnalysisOf(r, details[r.id])] else [])
  }

  /** Every recent analysis comes from a record with a detail and names one food; there is one
      per such record, so none when no record has a detail. */
  lemma {:induction false} RecentAnalysesSpec(records: seq<FoodRecordRow>, details: map<int, DetailRow>)
    ensures RecentAnalyses(records, details) == [] <==> forall r | r in records :: r.id !in details
    ensures forall a | a in RecentAnalyses(records, details) ::
      (exists r | r in records :: r.id in details && a == AnalysisOf(r, details[r.id])) && |a.foods| == 1 && a.healthLevel == "A"
  {
    if records != [] {
      var init, r := records[..|records| - 1], records[|records| - 1];
      RecentAnalysesSpec(init, details);
      assert records == init + [r];
    }
  }

  /** The `NutritionWorkspaceData` of `sync_nutrition_workspace`; nothing here raises. */
  function NutritionDataOf(userId: int, rows: UserRows, now: DateTime): (r: NutritionWorkspaceData)
    ensures r.userId == userId && r.lastUpdated == now && r.nutritionTrends == []
    ensures |r.frequentFoods| <= 10 && |r.recentAnalyses| <= 5
  {
    var recent := MarkdownRenderer.First(rows.completedRecords, 5);
    NutritionWorkspaceData(userId, now, DietSummaryOf(rows.weekSummaries), FrequentFoods(rows.monthRecords, rows.details),
      [], RecentAnalyses(recent, rows.details))
  }

  // ---------------- Chat workspace ----------------

  /** `session.title or "一般咨询"` */
  function TopicOf(s: SessionRow): (r: string)
    ensures r != ""
  {
    if TruthyText(s.title) then s.title.value else "一般咨询"
  }

  /** The session's three newest user messages. */
  function MessagesOf(userMessages: map<int, seq<MessageRow>>, id: int): (r: seq<MessageRow>)
    ensures |r| <= 3
  {
    MarkdownRenderer.First(if id in userMessages then userMessages[id] else [], 3)
  }

  /** The summary of a session, from the oldest of its messages: the question cut to 100
      characters, or 未记录 without content. */
  function InteractionOf(s: SessionRow, topic: string, m: MessageRow, today: Date): (r: InteractionSummary)
    ensures |r.userQuestion| <= 100 && r.keyPoints == [] && r.topic == topic
  {
    InteractionSummary(if s.createdAt.Some? then s.createdAt.value.date else today, topic,
      if TruthyText(m.content) then Take(m.content.value, 100) else "未记录", [])
  }

  /** `topic_counts` and `recent_interactions` of the loop over the sessions. */
  datatype ChatTally = ChatTally(topicCounts: Dict<int>, interactions: seq<InteractionSummary>)

  /** One session with user messages counts once for its topic and, while fewer than five
      interactions are listed, adds its summary; a session without messages changes nothing. */
  function CountSession(t: ChatTally, s: SessionRow, messages: seq<MessageRow>, today: Date): (n: ChatTally)
  {
    if messages == [] then t
    else
      var topic := TopicOf(s);
      var counts := t.topicCounts;
      var next := if topic in counts.values then Dict(counts.keys, counts.values[topic := counts.values[topic] + 1])
        else Dict(counts.keys + [topic], counts.values[topic := 1]);
      ChatTally(next,
        if |t.interactions| < 5 then t.interactions + [InteractionOf(s, topic, messages[|messages| - 1], today)] else t.interactions)
  }

  /** The tally after the loop over `sessions`. */
  function TallyChat(sessions: seq<SessionRow>, userMessages: map<int, seq<MessageRow>>, today: Date): (t: ChatTally)
  {
    if sessions == [] then ChatTally(Dict([], map[]), [])
    else
      var s := sessions[|sessions| - 1];
      CountSession(TallyChat(sessions[..|sessions| - 1], userMessages, today), s, MessagesOf(userMessages, s.id), today)
  }

  /** How many sessions have user messages, and how many of those have the topic `topic`. */
  function Asked(sessions: seq<SessionRow>, userMessages: map<int, seq<MessageRow>>): nat {
    if sessions == [] then 0
    else Asked(sessions[..|sessions| - 1], userMessages) + (if MessagesOf(userMessages, sessions[|sessions| - 1].id) != [] then 1 else 0)
  }

  function TopicCount(sessions: seq<SessionRow>, userMessages: map<int, seq<MessageRow>>, topic: string): nat {
    if sessions == [] then 0
    else
      var s := sessions[|sessions| - 1];
      TopicCount(sessions[..|sessions| - 1], userMessages, topic) + (if MessagesOf(userMessages, s.id) != [] && TopicOf(s) == topic then 1 else 0)
  }

  predicate QuestionsShort(interactions: seq<InteractionSummary>) {
    forall x | x in interactions :: |x.userQuestion| <= 100 && x.keyPoints == []
  }

  /** One session adds one to its topic's count when it has messages, and nothing else. */
  lemma CountSessionStep(t: ChatTally, s: SessionRow, messages: seq<MessageRow>, today: Date)
    requires t.topicCounts.Valid() && QuestionsShort(t.interactions)
    ensures var n := CountSession(t, s, messages, today);
      && n.topicCounts.Valid() && QuestionsShort(n.interactions)
      && (forall k :: k in n.topicCounts.values <==> k in t.topicCounts.values || (messages != [] && k == TopicOf(s)))
      && (forall k | k in n.topicCounts.values ::
            n.topicCounts.values[k] == (if k in t.topicCounts.values then t.topicCounts.values[k] else 0) + (if messages != [] && TopicOf(s) == k then 1 else 0))
      && |n.interactions| == if messages != [] && |t.interactions| < 5 then |t.interactions| + 1 else |t.interactions|
  {
    var counts := t.topicCounts;
    if messages != [] && TopicOf(s) !in counts.values {
      assert forall i | 0 <= i < |counts.keys| :: counts.keys[i] in counts.values;
    }
  }

  /** The tally counts, for exactly the topics of the sessions with user messages, how many
      such sessions have that topic; it summarises the first five such sessions (or all of them
      when there are fewer), each question cut to 100 characters. */
  lemma {:induction false} TallyChatSpec(sessions: seq<SessionRow>, userMessages: map<int, seq<MessageRow>>, today: Date)
    ensures var t := TallyChat(sessions, userMessages, today);
      && t.topicCounts.Valid() && QuestionsShort(t.interactions)
      && (forall k :: k in t.topicCounts.values <==> TopicCount(sessions, userMessages, k) > 0)
      && (forall k | k in t.topicCounts.values :: t.topicCounts.values[k] == TopicCount(sessions, userMessages, k))
      && |t.interactions| == if Asked(sessions, userMessages) < 5 then Asked(sessions, userMessages) else 5
  {
    if sessions != [] {
      var init, s := sessions[..|sessions| - 1], sessions[|sessions| - 1];
      TallyChatSpec(init, userMessages, today);
      CountSessionStep(TallyChat(init, userMessages, today), s, MessagesOf(userMessages, s.id), today);
    }
  }

  function TopicKey(e: (string, int)): int { e.1 }

  /** The five most asked topics, most asked first. */
  function FrequentTopics(counts: Dict<int>): (r: seq<FrequentTopic>)
    requires forall k | k in counts.keys :: k in counts.values
    ensures |r| <= 5
  {
    var top := TopEntries(counts, TopicKey, 5);
    seq(|top|, i requires 0 <= i < |top| => FrequentTopic(top[i].0, top[i].1))
  }

  /** A topic left out of the frequent topics is asked no more often than the fifth. */
  lemma FrequentTopicsComplete(counts: Dict<int>, k: string)
    requires counts.Valid() && k in counts.values
    requires forall i | 0 <= i < |FrequentTopics(counts)| :: FrequentTopics(counts)[i].topic != k
    ensures |FrequentTopics(counts)| == 5 && counts.values[k] <= FrequentTopics(counts)[4].count
  {
    var top := TopEntries(counts, TopicKey, 5);
    var r := FrequentTopics(counts);
    assert |r| == |top| && forall i | 0 <= i < |r| :: r[i].topic == top[i].0 && r[i].count == top[i].1;
    TopEntriesComplete(counts, TopicKey, 5, k);
  }

  /** The frequent topics are at most five, most asked first, each a topic of the sessions with
      the number of its sessions that have user messages; a topic left out is asked no more
      often than the fifth. */
  lemma FrequentTopicsSpec(sessions: seq<SessionRow>, userMessages: map<int, seq<MessageRow>>, today: Date)
    ensures var counts := TallyChat(sessions, userMessages, today).topicCounts;
      counts.Valid() &&
      var r := FrequentTopics(counts);
      && (forall i, j | 0 <= i < j < |r| :: r[i].count >= r[j].count)
      && (forall i | 0 <= i < |r| :: r[i].count == TopicCount(sessions, userMessages, r[i].topic) > 0)
      && (forall k | TopicCount(sessions, userMessages, k) > 0 && (forall i | 0 <= i < |r| :: r[i].topic != k) ::
            |r| == 5 && TopicCount(sessions, userMessages, k) <= r[4].count)
  {
    TallyChatSpec(sessions, userMessages, today);
    var counts := TallyChat(sessions, userMessages, today).topicCounts;
    TopEntriesFrom(counts, TopicKey, 5);
    forall k | TopicCount(sessions, userMessages, k) > 0 && (forall i | 0 <= i < |FrequentTopics(counts)| :: FrequentTopics(counts)[i].topic != k)
      ensures |FrequentTopics(counts)| == 5 && TopicCount(sessions, userMessages, k) <= FrequentTopics(counts)[4].count
    {
      FrequentTopicsComplete(counts, k);
    }
  }

  /** The `ChatWorkspaceData` of `sync_chat_workspace`, over the ten newest sessions; nothing
      here raises. */
  function ChatDataOf(userId: int, rows: UserRows, now: DateTime, today: Date): (r: ChatWorkspaceData)
    ensures r.userId == userId && r.lastUpdated == now && r.userFeedback == [] && r.preferences == ConversationPreferences()
    ensures |r.frequentTopics| <= 5 && |r.recentInteractions| <= 5
  {
    var sessions := MarkdownRenderer.First(rows.sessions, 10);
    TallyChatSpec(sessions, rows.userMessages, today);
    var t := TallyChat(sessions, rows.userMessages, today);
    ChatWorkspaceData(userId, now, ConversationPreferences(), FrequentTopics(t.topicCounts), t.interactions, [])
  }

  // ---------------- The loops of the sync ----------------

  /** The loop filling `food_counts`. */
  method CountFoods(records: seq<FoodRecordRow>, details: map<int, DetailRow>) returns (counts: Dict<FoodCount>)
    ensures counts == FoodCounts(records, details)
  {
    counts := Dict([], map[]);
    for i := 0 to |records|
      invariant counts == FoodCounts(records[..i], details)
    {
      var record := records[i];
      assert records[..i + 1][..i] == records[..i];
      if TruthyText(record.foodName) {
        var name := record.foodName.value;
        if name !in counts.values {
          counts := Dict(counts.keys + [name], counts.values[name := FoodCount(0, 0.0, [])]);
        }
        var entry := counts.values[name];
        entry := entry.(count := entry.count + 1);
        if record.id in details {
          var detail := details[record.id];
          entry := entry.(totalCalories := entry.totalCalories + OrReal(detail.calories, 0.0));
          if TruthyReal(detail.confidenceScore) {
            entry := entry.(healthLevels := entry.healthLevels + [LevelOf(detail.confidenceScore.value)]);
          }
        }
        counts := counts.(values := counts.values[name := entry]);
      }
    }
    assert records[..|records|] == records;
  }

  /** The loop over the recent records: an analysis for each record with a detail. */
  method CollectRecentAnalyses(records: seq<FoodRecordRow>, details: map<int, DetailRow>) returns (analyses: seq<RecentAnalysis>)
    ensures analyses == RecentAnalyses(records, details)
  {
    analyses := [];
    for i := 0 to |records|
      invariant analyses == RecentAnalyses(records[..i], details)
    {
      assert records[..i + 1][..i] == records[..i];
      if records[i].id in details {
        analyses := analyses + [AnalysisOf(records[i], details[records[i].id])];
      }
    }
    assert records[..|records|] == records;
  }

  /** The loop over the sessions filling `topic_counts` and `recent_interactions`. */
  method TallyConversations(sessions: seq<SessionRow>, userMessages: map<int, seq<MessageRow>>, today: Date)
    returns (topicCounts: Dict<int>, interactions: seq<InteractionSummary>)
    ensures ChatTally(topicCounts, interactions) == TallyChat(sessions, userMessages, today)
  {
    topicCounts, interactions := Dict([], map[]), [];
    for i := 0 to |sessions|
      invariant ChatTally(topicCounts, interactions) == TallyChat(sessions[..i], userMessages, today)
    {
      var session := sessions[i];
      assert sessions[..i + 1][..i] == sessions[..i];
      var messages := MessagesOf(userMessages, session.id);
      if messages != [] {
        var topic := TopicOf(session);
        var count := if topic in topicCounts.values then topicCounts.values[topic] else 0;
        if topic !in topicCounts.values {
          topicCounts := topicCounts.(keys := topicCounts.keys + [topic]);
        }
        topicCounts := topicCounts.(values := topicCounts.values[topic := count + 1]);
        if |interactions| < 5 {
          interactions := interactions + [InteractionOf(session, topic, messages[|messages| - 1], today)];
        }
      }
    }
    assert sessions[..|sessions|] == sessions;
  }

  /** `write_workspace` of a workspace name: `True` and the new content exactly when the disk
      accepts the write. */
  method Save(store: MemoryStore.MemoryManager, w: MemoryStore.Workspace, content: string) returns (ok: bool)
    requires store.Valid()
    modifies store
    ensures store.Valid() && store.writable == old(store.writable) && store.snapshots == old(store.snapshots)
    ensures ok == old(store.writable)
    ensures ok ==> store.files == old(store.files)[w := content] && store.unreadable == old(store.unreadable) - {w}
    ensures !ok ==> store.files == old(store.files) && store.unreadable == old(store.unreadable)
  {
    MemoryStore.WorkspaceNames(w, w);
    var r := store.Write(MemoryStore.Name(w), content);
    ok := r == Ok(true);
  }

  /** What `sync_shared_memory` renders: nothing for an unknown user or one without a
      profile, or when an enum conversion raises. */
  function SharedOutcome(db: Database, userId: int, now: DateTime, today: Date): Option<SharedMemoryData> {
    var rows := db.RowsOf(userId);
    if userId !in db.users || rows.profile.None? then None
    else SharedDataOf(userId, rows.profile.value, rows.allergies, rows.currentDiseases, now, today)
  }

  /** What `sync_goal_tracking` renders: nothing without a profile or when the active goal's
      type raises. */
  function GoalOutcome(db: Database, userId: int, now: DateTime, today: Date): Option<GoalTrackingData> {
    var rows := db.RowsOf(userId);
    if rows.profile.None? then None
    else GoalDataOf(userId, rows.profile.value, rows.activeGoal, rows.weights, rows.todaySummary, now, today)
  }

  /** The text `sync_shared_memory` writes, or `None` when its data cannot be built. */
  function SharedText(db: Database, c: Collaborators, userId: int, now: DateTime, today: Date): Option<string> {
    var data := SharedOutcome(db, userId, now, today);
    if data.Some? then Some(MarkdownRenderer.RenderSharedMemory(c, data.value)) else None
  }

  /** The text `sync_goal_tracking` writes, or `None` when its data cannot be built. */
  function GoalText(db: Database, c: Collaborators, userId: int, now: DateTime, today: Date): Option<string> {
    var data := GoalOutcome(db, userId, now, today);
    if data.Some? then Some(MarkdownRenderer.RenderGoalTracking(c, data.value)) else None
  }

  /** Workspace `w` of `g` is what a sync writing `text` to a store with files `f` leaves:
      the text when there is one and the store is writable, else `f`'s entry. */
  predicate Synced(f: map<MemoryStore.Workspace, string>, g: map<MemoryStore.Workspace, string>,
                   w: MemoryStore.Workspace, text: Option<string>, writable: bool) {
    if writable && text.Some? then w in g && g[w] == text.value
    else (w in f <==> w in g) && (w in f ==> g[w] == f[w])
  }

  /** Every workspace of `g` is what its own sync, writing the text given for it, leaves. */
  predicate AllSynced(f: map<MemoryStore.Workspace, string>, g: map<MemoryStore.Workspace, string>,
                      shared: Option<string>, goal: Option<string>, nutrition: Option<string>, chat: Option<string>, writable: bool) {
    Synced(f, g, MemoryStore.Shared, shared, writable) && Synced(f, g, MemoryStore.GoalTracking, goal, writable) &&
    Synced(f, g, MemoryStore.Nutrition, nutrition, writable) && Synced(f, g, MemoryStore.Chat, chat, writable)
  }

  /** A sync of another workspace keeps what an earlier sync left in `w`. */
  lemma SyncedThrough(f: map<MemoryStore.Workspace, string>, g: map<MemoryStore.Workspace, string>, h: map<MemoryStore.Workspace, string>,
                      w: MemoryStore.Workspace, text: Option<string>, writable: bool, ws: set<MemoryStore.Workspace>)
    requires Synced(f, g, w, text, writable) && SameExcept(g, h, ws) && w !in ws
    ensures Synced(f, h, w, text, writable)
  {}

  /** A sync of another workspace before the sync of `w` does not change what that sync leaves. */
  lemma SyncedAfter(e: map<MemoryStore.Workspace, string>, f: map<MemoryStore.Workspace, string>, g: map<MemoryStore.Workspace, string>,
                    w: MemoryStore.Workspace, text: Option<string>, writable: bool, ws: set<MemoryStore.Workspace>)
    requires SameExcept(e, f, ws) && w !in ws && Synced(f, g, w, text, writable)
    ensures Synced(e, g, w, text, writable)
  {}

  /** Two syncs in a row, each touching only its own workspace, leave `w` as its own sync left it. */
  lemma SyncedPair(f0: map<MemoryStore.Workspace, string>, f1: map<MemoryStore.Workspace, string>, f2: map<MemoryStore.Workspace, string>,
                   first: MemoryStore.Workspace, second: MemoryStore.Workspace, t1: Option<string>, t2: Option<string>, writable: bool)
    requires first != second
    requires Synced(f0, f1, first, t1, writable) && SameExcept(f0, f1, {first})
    requires Synced(f1, f2, second, t2, writable) && SameExcept(f1, f2, {second})
    ensures Synced(f0, f2, first, t1, writable) && Synced(f0, f2, second, t2, writable)
    ensures SameExcept(f0, f2, {first, second})
  {
    SyncedThrough(f0, f1, f2, first, t1, writable, {second});
    SyncedAfter(f0, f1, f2, second, t2, writable, {first});
  }

  /** The profile syncs (shared, goal) and then the activity syncs (nutrition, chat) leave
      every workspace as its own sync left it. */
  lemma SyncsInTwoSteps(f0: map<MemoryStore.Workspace, string>, f1: map<MemoryStore.Workspace, string>, f2: map<MemoryStore.Workspace, string>,
                        shared: Option<string>, goal: Option<string>, nutrition: Option<string>, chat: Option<string>, writable: bool)
    requires Synced(f0, f1, MemoryStore.Shared, shared, writable) && Synced(f0, f1, MemoryStore.GoalTracking, goal, writable)
    requires SameExcept(f0, f1, {MemoryStore.Shared, MemoryStore.GoalTracking})
    requires Synced(f1, f2, MemoryStore.Nutrition, nutrition, writable) && Synced(f1, f2, MemoryStore.Chat, chat, writable)
    requires SameExcept(f1, f2, {MemoryStore.Nutrition, MemoryStore.Chat})
    ensures AllSynced(f0, f2, shared, goal, nutrition, chat, writable)
  {
    var activity := {MemoryStore.Nutrition, MemoryStore.Chat};
    var profile := {MemoryStore.Shared, MemoryStore.GoalTracking};
    SyncedThrough(f0, f1, f2, MemoryStore.Shared, shared, writable, activity);
    SyncedThrough(f0, f1, f2, MemoryStore.GoalTracking, goal, writable, activity);
    SyncedAfter(f0, f1, f2, MemoryStore.Nutrition, nutrition, writable, profile);
    SyncedAfter(f0, f1, f2, MemoryStore.Chat, chat, writable, profile);
  }

  // ---------------- The service ----------------

  /** `SyncService`: reads the database and rewrites the user's workspaces. Every sync catches
      its exceptions and reports them as `false`. */
  class SyncService {
    const db: Database

    constructor (db: Database)
      ensures this.db == db
    {
      this.db := db;
    }

    /** `sync_shared_memory` */
    method SyncSharedMemory(userId: int, store: MemoryStore.MemoryManager, c: Collaborators, now: DateTime, today: Date)
      returns (ok: bool)
      requires store.Valid() && store.userId == userId
      modifies store
      ensures store.Valid() && store.writable == old(store.writable) && store.snapshots == old(store.snapshots)
      ensures !ok ==> store.files == old(store.files)
      ensures ok <==> SharedOutcome(db, userId, now, today).Some? && old(store.writable)
      ensures ok ==> store.files == old(store.files)[MemoryStore.Shared := MarkdownRenderer.RenderSharedMemory(c, SharedOutcome(db, userId, now, today).value)]
    {
      if userId !in db.users {
        return false;
      }
      var rows := db.RowsOf(userId);
      if rows.profile.None? {
        return false;
      }
      var profile := rows.profile.value;
      var allergies := Allergies(rows.allergies);
      if allergies.None? {
        return false;
      }
      var diseases := Diseases(rows.currentDiseases);
      var restrictions := ExtractDietaryRestrictions(diseases, allergies.value);
      var level := ActivityFrom(profile.activityLevel);
      if level.None? {
        return false;
      }
      var data := SharedMemoryData(
        userId := userId, lastUpdated := now,
        gender := OrInt(profile.gender, 1), age := AgeOf(profile.birthDate, today),
        height := OrReal(profile.height, 170.0), weight := OrReal(profile.weight, 70.0),
        activityLevel := level.value, allergies := allergies.value, diseases := diseases, medications := [],
        foodPreferences := FoodPreferences([], [], restrictions),
        behaviorPatterns := BehaviorPatterns());
      assert SharedOutcome(db, userId, now, today) == Some(data);
      ok := Save(store, MemoryStore.Shared, MarkdownRenderer.RenderSharedMemory(c, data));
    }

    /** `sync_goal_tracking` */
    method SyncGoalTracking(userId: int, store: MemoryStore.MemoryManager, c: Collaborators, now: DateTime, today: Date)
      returns (ok: bool)
      requires store.Valid() && store.userId == userId
      modifies store
      ensures store.Valid() && store.writable == old(store.writable) && store.snapshots == old(store.snapshots)
      ensures !ok ==> store.files == old(store.files)
      ensures ok <==> GoalOutcome(db, userId, now, today).Some? && old(store.writable)
      ensures ok ==> store.files == old(store.files)[MemoryStore.GoalTracking := MarkdownRenderer.RenderGoalTracking(c, GoalOutcome(db, userId, now, today).value)]
    {
      var rows := db.RowsOf(userId);
      if rows.profile.None? {
        return false;
      }
      var data := GoalDataOf(userId, rows.profile.value, rows.activeGoal, rows.weights, rows.todaySummary, now, today);
      if data.None? {
        return false;
      }
      ok := Save(store, MemoryStore.GoalTracking, MarkdownRenderer.RenderGoalTracking(c, data.value));
    }

    /** `sync_nutrition_workspace` */
    method SyncNutritionWorkspace(userId: int, store: MemoryStore.MemoryManager, c: Collaborators, now: DateTime)
      returns (ok: bool)
      requires store.Valid() && store.userId == userId
      modifies store
      ensures store.Valid() && store.writable == old(store.writable) && store.snapshots == old(store.snapshots)
      ensures !ok ==> store.files == old(store.files)
      ensures ok == old(store.writable)
      ensures ok ==> store.files == old(store.files)[MemoryStore.Nutrition := MarkdownRenderer.RenderNutrition(c, NutritionDataOf(userId, db.RowsOf(userId), now))]
    {
      var rows := db.RowsOf(userId);
      var counts := CountFoods(rows.monthRecords, rows.details);
      FoodCountsSpec(rows.monthRecords, rows.details);
      var frequent := TopFoods(counts);
      var recent := CollectRecentAnalyses(MarkdownRenderer.First(rows.completedRecords, 5), rows.details);
      var data := NutritionWorkspaceData(userId, now, DietSummaryOf(rows.weekSummaries), frequent, [], recent);
      assert data == NutritionDataOf(userId, rows, now);
      ok := Save(store, MemoryStore.Nutrition, MarkdownRenderer.RenderNutrition(c, data));
    }

    /** `sync_chat_workspace` */
    method SyncChatWorkspace(userId: int, store: MemoryStore.MemoryManager, c: Collaborators, now: DateTime, today: Date)
      returns (ok: bool)
      requires store.Valid() && store.userId == userId
      modifies store
      ensures store.Valid() && store.writable == old(store.writable) && store.snapshots == old(store.snapshots)
      ensures !ok ==> store.files == old(store.files)
      ensures ok == old(store.writable)
      ensures ok ==> store.files == old(store.files)[MemoryStore.Chat := MarkdownRenderer.RenderChat(c, ChatDataOf(userId, db.RowsOf(userId), now, today))]
    {
      var rows := db.RowsOf(userId);
      var sessions := MarkdownRenderer.First(rows.sessions, 10);
      var topicCounts, interactions := TallyConversations(sessions, rows.userMessages, today);
      TallyChatSpec(sessions, rows.userMessages, today);
      var data := ChatWorkspaceData(userId, now, ConversationPreferences(), FrequentTopics(topicCounts), interactions, []);
      assert data == ChatDataOf(userId, rows, now, today);
      ok := Save(store, MemoryStore.Chat, MarkdownRenderer.RenderChat(c, data));
    }

    /** `full_sync`: all four syncs run, in order, whatever each returns, so every workspace
        ends as its own sync leaves it; the result is `all` of the four results. */
    method FullSync(userId: int, store: MemoryStore.MemoryManager, c: Collaborators, now: DateTime, today: Date)
      returns (success: bool)
      requires store.Valid() && store.userId == userId
      modifies store
      ensures store.Valid() && store.writable == old(store.writable) && store.snapshots == old(store.snapshots)
      ensures success <==> SharedOutcome(db, userId, now, today).Some? && GoalOutcome(db, userId, now, today).Some? && old(store.writable)
      ensures !old(store.writable) ==> store.files == old(store.files)
      ensures AllSynced(old(store.files), store.files, SharedText(db, c, userId, now, today), GoalText(db, c, userId, now, today),
                        Some(MarkdownRenderer.RenderNutrition(c, NutritionDataOf(userId, db.RowsOf(userId), now))),
                        Some(MarkdownRenderer.RenderChat(c, ChatDataOf(userId, db.RowsOf(userId), now, today))), old(store.writable))
    {
      ghost var f0 := store.files;
      var shared, goal := SyncProfileFiles(this, store, c, userId, now, today);
      ghost var f1 := store.files;
      var nutrition, chat := SyncActivityFiles(this, store, c, userId, now, today);
      SyncsInTwoSteps(f0, f1, store.files, SharedText(db, c, userId, now, today), GoalText(db, c, userId, now, today),
                      Some(MarkdownRenderer.RenderNutrition(c, NutritionDataOf(userId, db.RowsOf(userId), now))),
                      Some(MarkdownRenderer.RenderChat(c, ChatDataOf(userId, db.RowsOf(userId), now, today))), old(store.writable));
      success := shared && goal && nutrition && chat;
    }
  }

  // ---------------- One sync, seen from its callers ----------------

  /** `g` holds the same files as `f` outside `ws`. */
  predicate SameExcept(f: map<MemoryStore.Workspace, string>, g: map<MemoryStore.Workspace, string>, ws: set<MemoryStore.Workspace>) {
    forall w | w !in ws :: (w in f <==> w in g) && (w in f ==> f[w] == g[w])
  }

  /** Whether the sync of workspace `w` returns `True` for a store whose writes succeed exactly
      when `writable`. */
  predicate Succeeds(db: Database, w: MemoryStore.Workspace, userId: int, writable: bool, now: DateTime, today: Date) {
    match w
    case Shared => SharedOutcome(db, userId, now, today).Some? && writable
    case GoalTracking => GoalOutcome(db, userId, now, today).Some? && writable
    case _ => writable
  }

  method SyncShared(svc: SyncService, store: MemoryStore.MemoryManager, c: Collaborators, userId: int, now: DateTime, today: Date)
    returns (ok: bool)
    requires store.Valid() && store.userId == userId
    modifies store
    ensures store.Valid() && store.writable == old(store.writable) && store.snapshots == old(store.snapshots)
    ensures ok == Succeeds(svc.db, MemoryStore.Shared, userId, old(store.writable), now, today)
    ensures !ok ==> store.files == old(store.files)
    ensures SameExcept(old(store.files), store.files, {MemoryStore.Shared})
    ensures ok ==> MemoryStore.Shared in store.files
    ensures Synced(old(store.files), store.files, MemoryStore.Shared, SharedText(svc.db, c, userId, now, today), old(store.writable))
  {
    ok := svc.SyncSharedMemory(userId, store, c, now, today);
  }

  method SyncGoal(svc: SyncService, store: MemoryStore.MemoryManager, c: Collaborators, userId: int, now: DateTime, today: Date)
    returns (ok: bool)
    requires store.Valid() && store.userId == userId
    modifies store
    ensures store.Valid() && store.writable == old(store.writable) && store.snapshots == old(store.snapshots)
    ensures ok == Succeeds(svc.db, MemoryStore.GoalTracking, userId, old(store.writable), now, today)
    ensures !ok ==> store.files == old(store.files)
    ensures SameExcept(old(store.files), store.files, {MemoryStore.GoalTracking})
    ensures Synced(old(store.files), store.files, MemoryStore.GoalTracking, GoalText(svc.db, c, userId, now, today), old(store.writable))
  {
    ok := svc.SyncGoalTracking(userId, store, c, now, today);
  }

  method SyncNutrition(svc: SyncService, store: MemoryStore.MemoryManager, c: Collaborators, userId: int, now: DateTime)
    returns (ok: bool)
    requires store.Valid() && store.userId == userId
    modifies store
    ensures store.Valid() && store.writable == old(store.writable) && store.snapshots == old(store.snapshots)
    ensures ok == old(store.writable)
    ensures !ok ==> store.files == old(store.files)
    ensures SameExcept(old(store.files), store.files, {MemoryStore.Nutrition})
    ensures Synced(old(store.files), store.files, MemoryStore.Nutrition, Some(MarkdownRenderer.RenderNutrition(c, NutritionDataOf(userId, svc.db.RowsOf(userId), now))), old(store.writable))
  {
    ok := svc.SyncNutritionWorkspace(userId, store, c, now);
  }

  method SyncChat(svc: SyncService, store: MemoryStore.MemoryManager, c: Collaborators, userId: int, now: DateTime, today: Date)
    returns (ok: bool)
    requires store.Valid() && store.userId == userId
    modifies store
    ensures store.Valid() && store.writable == old(store.writable) && store.snapshots == old(store.snapshots)
    ensures ok == old(store.writable)
    ensures !ok ==> store.files == old(store.files)
    ensures SameExcept(old(store.files), store.files, {MemoryStore.Chat})
    ensures Synced(old(store.files), store.files, MemoryStore.Chat, Some(MarkdownRenderer.RenderChat(c, ChatDataOf(userId, svc.db.RowsOf(userId), now, today))), old(store.writable))
  {
    ok := svc.SyncChatWorkspace(userId, store, c, now, today);
  }

  /** `sync_shared_memory` then `sync_goal_tracking`. */
  method SyncProfileFiles(svc: SyncService, store: MemoryStore.MemoryManager, c: Collaborators, userId: int, now: DateTime, today: Date)
    returns (shared: bool, goal: bool)
    requires store.Valid() && store.userId == userId
    modifies store
    ensures store.Valid() && store.writable == old(store.writable) && store.snapshots == old(store.snapshots)
    ensures shared == Succeeds(svc.db, MemoryStore.Shared, userId, old(store.writable), now, today)
    ensures goal == Succeeds(svc.db, MemoryStore.GoalTracking, userId, old(store.writable), now, today)
    ensures !old(store.writable) ==> store.files == old(store.files)
    ensures Synced(old(store.files), store.files, MemoryStore.Shared, SharedText(svc.db, c, userId, now, today), old(store.writable))
    ensures Synced(old(store.files), store.files, MemoryStore.GoalTracking, GoalText(svc.db, c, userId, now, today), old(store.writable))
    ensures SameExcept(old(store.files), store.files, {MemoryStore.Shared, MemoryStore.GoalTracking})
  {
    ghost var f0 := store.files;
    shared := SyncShared(svc, store, c, userId, now, today);
    ghost var f1 := store.files;
    goal := SyncGoal(svc, store, c, userId, now, today);
    SyncedPair(f0, f1, store.files, MemoryStore.Shared, MemoryStore.GoalTracking,
               SharedText(svc.db, c, userId, now, today), GoalText(svc.db, c, userId, now, today), old(store.writable));
  }

  /** `sync_nutrition_workspace` then `sync_chat_workspace`. */
  method SyncActivityFiles(svc: SyncService, store: MemoryStore.MemoryManager, c: Collaborators, userId: int, now: DateTime, today: Date)
    returns (nutrition: bool, chat: bool)
    requires store.Valid() && store.userId == userId
    modifies store
    ensures store.Valid() && store.writable == old(store.writable) && store.snapshots == old(store.snapshots)
    ensures nutrition == old(store.writable) && chat == old(store.writable)
    ensures !old(store.writable) ==> store.files == old(store.files)
    ensures Synced(old(store.files), store.files, MemoryStore.Nutrition,
                   Some(MarkdownRenderer.RenderNutrition(c, NutritionDataOf(userId, svc.db.RowsOf(userId), now))), old(store.writable))
    ensures Synced(old(store.files), store.files, MemoryStore.Chat,
                   Some(MarkdownRenderer.RenderChat(c, ChatDataOf(userId, svc.db.RowsOf(userId), now, today))), old(store.writable))
    ensures SameExcept(old(store.files), store.files, {MemoryStore.Nutrition, MemoryStore.Chat})
  {
    ghost var f0 := store.files;
    nutrition := SyncNutrition(svc, store, c, userId, now);
    ghost var f1 := store.files;
    chat := SyncChat(svc, store, c, userId, now, today);
    SyncedPair(f0, f1, store.files, MemoryStore.Nutrition, MemoryStore.Chat,
               Some(MarkdownRenderer.RenderNutrition(c, NutritionDataOf(userId, svc.db.RowsOf(userId), now))),
               Some(MarkdownRenderer.RenderChat(c, ChatDataOf(userId, svc.db.RowsOf(userId), now, today))), old(store.writable));
  }

  /** The sync of workspace `w`: its result, and no other workspace touched. */
  method SyncWorkspace(svc: SyncService, w: MemoryStore.Workspace, store: MemoryStore.MemoryManager, c: Collaborators,
                       userId: int, now: DateTime, today: Date)
    returns (ok: bool)
    requires store.Valid() && store.userId == userId
    modifies store
    ensures store.Valid() && store.writable == old(store.writable) && store.snapshots == old(store.snapshots)
    ensures ok == Succeeds(svc.db, w, userId, old(store.writable), now, today)
    ensures !ok ==> store.files == old(store.files)
    ensures SameExcept(old(store.files), store.files, {w})
  {
    match w {
      case Shared => ok := SyncShared(svc, store, c, userId, now, today);
      case GoalTracking => ok := SyncGoal(svc, store, c, userId, now, today);
      case Nutrition => ok := SyncNutrition(svc, store, c, userId, now);
      case Chat => ok := SyncChat(svc, store, c, userId, now, today);
    }
  }
}
