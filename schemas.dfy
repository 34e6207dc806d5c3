/** The records stored in the four memory workspaces, with the defaults each field
    takes when it is not given. Python's `float` fields are `real`, `Optional[X]` is
    `Option<X>`, lists are sequences and dicts are maps. A `default_factory=datetime.now`
    timestamp has no default here: the caller passes the time. */
module Schemas {
  import opened Wrappers
  import opened Dates

  /** 健康目标类型, an IntEnum */
  datatype GoalType = LoseWeight | GainWeight | Maintain | BuildMuscle | LoseFat

  /** 严重程度等级, an IntEnum */
  datatype SeverityLevel = Mild | Moderate | Severe

  /** 活动水平, an IntEnum */
  datatype ActivityLevel = Sedentary | Light | ModerateActivity | Active | VeryActive

  function GoalTypeValue(g: GoalType): int {
    match g
    case LoseWeight => 1
    case GainWeight => 2
    case Maintain => 3
    case BuildMuscle => 4
    case LoseFat => 5
  }

  /** `GoalType(v)`: the member with value `v`; any other value raises ValueError (None). */
  function GoalTypeOf(v: int): (r: Option<GoalType>)
    ensures r.Some? <==> 1 <= v <= 5
    ensures r.Some? ==> GoalTypeValue(r.value) == v
  {
    if v == 1 then Some(LoseWeight)
    else if v == 2 then Some(GainWeight)
    else if v == 3 then Some(Maintain)
    else if v == 4 then Some(BuildMuscle)
    else if v == 5 then Some(LoseFat)
    else None
  }

  function SeverityValue(s: SeverityLevel): int {
    match s
    case Mild => 1
    case Moderate => 2
    case Severe => 3
  }

  /** `SeverityLevel(v)`; values outside 1..3 raise ValueError (None). */
  function SeverityOf(v: int): (r: Option<SeverityLevel>)
    ensures r.Some? <==> 1 <= v <= 3
    ensures r.Some? ==> SeverityValue(r.value) == v
  {
    if v == 1 then Some(Mild)
    else if v == 2 then Some(Moderate)
    else if v == 3 then Some(Severe)
    else None
  }

  function ActivityValue(a: ActivityLevel): int {
    match a
    case Sedentary => 1
    case Light => 2
    case ModerateActivity => 3
    case Active => 4
    case VeryActive => 5
  }

  /** `ActivityLevel(v)`; values outside 1..5 raise ValueError (None). */
  function ActivityOf(v: int): (r: Option<ActivityLevel>)
    ensures r.Some? <==> 1 <= v <= 5
    ensures r.Some? ==> ActivityValue(r.value) == v
  {
    if v == 1 then Some(Sedentary)
    else if v == 2 then Some(Light)
    else if v == 3 then Some(ModerateActivity)
    else if v == 4 then Some(Active)
    else if v == 5 then Some(VeryActive)
    else None
  }

  /** The three enums are exactly the integer ranges 1..5, 1..3 and 1..5: converting a
      member to its value and back gives the member, and distinct members have distinct values. */
  lemma EnumValuesRoundTrip()
    ensures forall g: GoalType :: 1 <= GoalTypeValue(g) <= 5 && GoalTypeOf(GoalTypeValue(g)) == Some(g)
    ensures forall s: SeverityLevel :: 1 <= SeverityValue(s) <= 3 && SeverityOf(SeverityValue(s)) == Some(s)
    ensures forall a: ActivityLevel :: 1 <= ActivityValue(a) <= 5 && ActivityOf(ActivityValue(a)) == Some(a)
  {
    forall g: GoalType ensures 1 <= GoalTypeValue(g) <= 5 && GoalTypeOf(GoalTypeValue(g)) == Some(g) {
      match g
      case LoseWeight =>
      case GainWeight =>
      case Maintain =>
      case BuildMuscle =>
      case LoseFat =>
    }
    forall s: SeverityLevel ensures 1 <= SeverityValue(s) <= 3 && SeverityOf(SeverityValue(s)) == Some(s) {
      match s
      case Mild =>
      case Moderate =>
      case Severe =>
    }
    forall a: ActivityLevel ensures 1 <= ActivityValue(a) <= 5 && ActivityOf(ActivityValue(a)) == Some(a) {
      match a
      case Sedentary =>
      case Light =>
      case ModerateActivity =>
      case Active =>
      case VeryActive =>
    }
  }

  /** The named members carry the values the source assigns them. */
  lemma GoalTypeMembers()
    ensures GoalTypeValue(LoseWeight) == 1 && GoalTypeValue(GainWeight) == 2
    ensures GoalTypeValue(Maintain) == 3 && GoalTypeValue(BuildMuscle) == 4
    ensures GoalTypeValue(LoseFat) == 5
  {
  }

  // ---------------- Shared memory workspace ----------------

  datatype AllergyInfo = AllergyInfo(name: string, severity: SeverityLevel, reaction: Option<string> := None)

  datatype DiseaseInfo = DiseaseInfo(
    name: string,
    icdCode: Option<string> := None,
    /** 控制中/活跃/已痊愈 */
    status: string := "控制中",
    notes: Option<string> := None)

  datatype MedicationInfo = MedicationInfo(name: string, dosage: string, frequency: string)

  datatype FoodPreferences = FoodPreferences(
    likedFoods: seq<string> := [],
    dislikedFoods: seq<string> := [],
    dietaryRestrictions: seq<string> := [])

  /** A Python dict with its insertion order: the key order and the mapping. */
  datatype Dict<V> = Dict(keys: seq<string>, values: map<string, V>) {
    ghost predicate Valid() {
      && (forall i, j :: 0 <= i < j < |keys| ==> keys[i] != keys[j])
      && (forall k :: k in values <==> k in keys)
    }
  }

  function DefaultMealTimes(): Dict<string> {
    Dict(["breakfast", "lunch", "dinner"], map["breakfast" := "07:30", "lunch" := "12:30", "dinner" := "19:00"])
  }

  function DefaultSleepSchedule(): Dict<string> {
    Dict(["bedtime", "wake_time"], map["bedtime" := "23:00", "wake_time" := "06:30"])
  }

  datatype BehaviorPatterns = BehaviorPatterns(
    mealTimes: Dict<string> := DefaultMealTimes(),
    sleepSchedule: Dict<string> := DefaultSleepSchedule(),
    /** values of the exercise dict are shown with `str()`; they are kept as that text */
    exerciseRoutine: Option<Dict<string>> := None,
    budgetLevel: string := "中等")

  datatype SharedMemoryData = SharedMemoryData(
    userId: int,
    lastUpdated: DateTime,
    schemaVersion: string := "1.0",
    /** 1=男, 2=女, 3=其他 */
    gender: int,
    age: int,
    height: real,
    weight: real,
    activityLevel: ActivityLevel := Light,
    allergies: seq<AllergyInfo> := [],
    diseases: seq<DiseaseInfo> := [],
    medications: seq<MedicationInfo> := [],
    foodPreferences: FoodPreferences := FoodPreferences(),
    behaviorPatterns: BehaviorPatterns := BehaviorPatterns())

  // ---------------- Goal tracking workspace ----------------

  datatype ActiveGoal = ActiveGoal(
    goalId: int,
    goalType: GoalType,
    targetWeight: Option<real> := None,
    targetDate: Option<Date> := None,
    /** 进行中/已完成/已暂停/已取消 */
    status: string := "进行中")

  datatype BmrTdeeData = BmrTdeeData(bmr: real, tdee: real, activityFactor: real, calculatedAt: DateTime)

  datatype DailyTargets = DailyTargets(
    calories: real, protein: real, carbs: real, fat: real,
    calorieAdjustment: real := 0.0)

  datatype WeightProgress = WeightProgress(
    startingWeight: real,
    startingDate: Date,
    currentWeight: real,
    currentDate: Date,
    weightChange: real,
    targetRemaining: Option<real> := None,
    progressPercentage: real := 0.0)

  datatype TodayStatus = TodayStatus(
    lastUpdated: DateTime,
    consumedCalories: real := 0.0,
    consumedProtein: real := 0.0,
    consumedCarbs: real := 0.0,
    consumedFat: real := 0.0,
    remainingCalories: real := 0.0,
    remainingProtein: real := 0.0,
    remainingCarbs: real := 0.0,
    remainingFat: real := 0.0)

  datatype Milestone = Milestone(
    description: string,
    targetDate: Option<Date> := None,
    achievedDate: Option<Date> := None,
    completed: bool := false)

  datatype GoalTrackingData = GoalTrackingData(
    userId: int,
    lastUpdated: DateTime,
    activeGoal: Option<ActiveGoal> := None,
    bmrTdee: Option<BmrTdeeData> := None,
    dailyTargets: Option<DailyTargets> := None,
    weightProgress: Option<WeightProgress> := None,
    todayStatus: TodayStatus := TodayStatus(lastUpdated),
    milestones: seq<Milestone> := [],
    suggestions: seq<string> := [],
    warnings: seq<string> := [])

  // ---------------- Nutrition workspace ----------------

  datatype DietSummary = DietSummary(
    periodDays: int := 7,
    avgCalories: real := 0.0,
    avgProtein: real := 0.0,
    avgCarbs: real := 0.0,
    avgFat: real := 0.0,
    mealRegularity: string := "良好")

  datatype FrequentFood = FrequentFood(name: string, frequency: int, avgCalories: real, healthLevel: string := "B")

  datatype NutritionTrend = NutritionTrend(metric: string, currentWeek: real, lastWeek: real, trend: string := "→")

  datatype RecentAnalysis = RecentAnalysis(date: Date, mealType: string, foods: seq<string>, calories: real, healthLevel: string)

  datatype NutritionWorkspaceData = NutritionWorkspaceData(
    userId: int,
    lastUpdated: DateTime,
    dietSummary: DietSummary := DietSummary(),
    frequentFoods: seq<FrequentFood> := [],
    nutritionTrends: seq<NutritionTrend> := [],
    recentAnalyses: seq<RecentAnalysis> := [])

  // ---------------- Chat workspace ----------------

  datatype ConversationPreferences = ConversationPreferences(
    prefersDetailedExplanation: bool := true,
    likesDataDrivenAdvice: bool := true,
    responseStyle: string := "专业友善",
    topicsOfInterest: seq<string> := [])

  datatype FrequentTopic = FrequentTopic(topic: string, count: int, lastAsked: Option<Date> := None)

  datatype InteractionSummary = InteractionSummary(date: Date, topic: string, userQuestion: string, keyPoints: seq<string> := [])

  /** sentiment: 正面/中性/负面 */
  datatype UserFeedback = UserFeedback(date: Date, feedback: string, sentiment: string := "中性")

  datatype ChatWorkspaceData = ChatWorkspaceData(
    userId: int,
    lastUpdated: DateTime,
    preferences: ConversationPreferences := ConversationPreferences(),
    frequentTopics: seq<FrequentTopic> := [],
    recentInteractions: seq<InteractionSummary> := [],
    userFeedback: seq<UserFeedback> := [])

  datatype UserMemoryData = UserMemoryData(
    shared: Option<SharedMemoryData> := None,
    goalTracking: Option<GoalTrackingData> := None,
    nutrition: Option<NutritionWorkspaceData> := None,
    chat: Option<ChatWorkspaceData> := None)

  // ---------------- Defaults ----------------

  /** The defaults that the renderers and the sync service rely on. */
  lemma RecordDefaults(now: DateTime, uid: int)
    ensures var d := DietSummary();
      d.periodDays == 7 && d.avgCalories == d.avgProtein == d.avgCarbs == d.avgFat == 0.0
      && d.mealRegularity == "良好"
    ensures var t := TodayStatus(now);
      t.consumedCalories == t.consumedProtein == t.consumedCarbs == t.consumedFat == 0.0
      && t.remainingCalories == t.remainingProtein == t.remainingCarbs == t.remainingFat == 0.0
    ensures var s := SharedMemoryData(userId := uid, lastUpdated := now, gender := 1, age := 30, height := 170.0, weight := 70.0);
      s.schemaVersion == "1.0" && s.activityLevel == Light && ActivityValue(s.activityLevel) == 2
      && s.allergies == [] && s.diseases == [] && s.medications == []
      && s.behaviorPatterns.budgetLevel == "中等"
      && s.behaviorPatterns.mealTimes.values["breakfast"] == "07:30"
    ensures DiseaseInfo("高血压").status == "控制中"
    ensures FrequentFood("米饭", 3, 200.0).healthLevel == "B"
    ensures var g := GoalTrackingData(userId := uid, lastUpdated := now);
      g.activeGoal.None? && g.milestones == [] && g.suggestions == [] && g.warnings == []
      && g.todayStatus == TodayStatus(now)
    ensures ActiveGoal(1, LoseWeight).status == "进行中"
    ensures ConversationPreferences().responseStyle == "专业友善"
    ensures UserFeedback(now.date, "").sentiment == "中性"
  {
  }
}
