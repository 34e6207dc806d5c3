/** Nutrition arithmetic: age, BMR (Mifflin–St Jeor), TDEE, daily targets, remaining
    budget, meal impact and weight-goal progress. Python floats are `real`; Python's
    `round` is round-half-to-even on the exact value. */
module NutritionCalc {
  import opened Wrappers
  import opened Dates
  import opened Text

  // ---------------- Python's round ----------------

  function Abs(x: real): (r: real)
    ensures r >= 0.0 && (r == x || r == -x)
  {
    if x < 0.0 then -x else x
  }

  /** `round(x)`: the nearest integer, ties to the even one. */
  function Round(x: real): (r: int)
    ensures x - 0.5 <= r as real <= x + 0.5
  {
    var f := x.Floor;
    var frac := x - f as real;
    if frac < 0.5 then f
    else if frac > 0.5 then f + 1
    else if f % 2 == 0 then f else f + 1
  }

  /** `round(x, 1)` */
  function Round1(x: real): (r: real)
    ensures x - 0.05 <= r <= x + 0.05
  {
    Round(x * 10.0) as real / 10.0
  }

  /** `round(x, 2)` */
  function Round2(x: real): (r: real)
    ensures x - 0.005 <= r <= x + 0.005
  {
    Round(x * 100.0) as real / 100.0
  }

  lemma RoundMonotone(x: real, y: real)
    requires x <= y
    ensures Round(x) <= Round(y)
  {
    var fx, fy := x.Floor, y.Floor;
    if fx == fy {
      assert x - fx as real <= y - fy as real;
    } else {
      assert fx < fy;
    }
  }

  lemma RoundOfInt(n: int)
    ensures Round(n as real) == n
  {
    assert (n as real).Floor == n;
  }

  lemma Round1Monotone(x: real, y: real)
    requires x <= y
    ensures Round1(x) <= Round1(y)
  {
    RoundMonotone(x * 10.0, y * 10.0);
  }

  lemma Round2Monotone(x: real, y: real)
    requires x <= y
    ensures Round2(x) <= Round2(y)
  {
    RoundMonotone(x * 100.0, y * 100.0);
  }

  /** Whole numbers survive rounding unchanged. */
  lemma RoundOfWhole(n: int)
    ensures Round1(n as real) == n as real && Round2(n as real) == n as real
  {
    RoundOfInt(n * 10);
    RoundOfInt(n * 100);
  }

  // ---------------- Tables ----------------

  /** ACTIVITY_FACTORS.get(level, LIGHT's factor) */
  function ActivityFactor(level: int): (r: real)
    ensures 1.2 <= r <= 1.9
    ensures !(1 <= level <= 5) ==> r == 1.375
  {
    if level == 1 then 1.2
    else if level == 2 then 1.375
    else if level == 3 then 1.55
    else if level == 4 then 1.725
    else if level == 5 then 1.9
    else 1.375
  }

  /** A more active level always has a larger factor, and every level outside 1..5
      behaves exactly like LIGHT (2). */
  lemma ActivityFactorOrdered(a: int, b: int)
    ensures 1 <= a < b <= 5 ==> ActivityFactor(a) < ActivityFactor(b)
    ensures !(1 <= a <= 5) ==> ActivityFactor(a) == ActivityFactor(2)
  {
  }

  /** ACTIVITY_DESCRIPTIONS.get(level, "轻度活动") */
  function ActivityDescription(level: int): string {
    if level == 1 then "久坐（很少或无运动）"
    else if level == 2 then "轻度活动（轻松运动/每周1-3天）"
    else if level == 3 then "中度活动（中等运动/每周3-5天）"
    else if level == 4 then "重度活动（剧烈运动/每周6-7天）"
    else if level == 5 then "超重度活动（极剧烈运动/体力劳动）"
    else "轻度活动"
  }

  /** CALORIE_ADJUSTMENTS.get(goal, 0): a deficit exactly for the two losing goals, a
      surplus exactly for gaining weight and building muscle, nothing otherwise. */
  function CalorieAdjustment(goal: int): (r: int)
    ensures r < 0 <==> goal == 1 || goal == 5
    ensures r > 0 <==> goal == 2 || goal == 4
    ensures -500 <= r <= 300
  {
    if goal == 1 then -500
    else if goal == 2 then 300
    else if goal == 3 then 0
    else if goal == 4 then 200
    else if goal == 5 then -400
    else 0
  }

  datatype Ratios = Ratios(protein: real, carbs: real, fat: real)

  /** MACRO_RATIOS.get(goal, MACRO_RATIOS[MAINTAIN]) */
  function MacroRatios(goal: int): (r: Ratios)
    ensures r.protein + r.carbs + r.fat == 1.0
    ensures r.protein > 0.0 && r.carbs > 0.0 && r.fat > 0.0
    ensures !(1 <= goal <= 5) ==> r == Ratios(0.25, 0.50, 0.25)
  {
    if goal == 1 || goal == 5 then Ratios(0.30, 0.35, 0.35)
    else if goal == 4 then Ratios(0.35, 0.40, 0.25)
    else Ratios(0.25, 0.50, 0.25)
  }

  /** `get_goal_type_name` */
  function GoalTypeName(goal: int): (r: string)
    ensures r == "未知目标" <==> !(1 <= goal <= 5)
  {
    if goal == 1 then "减重"
    else if goal == 2 then "增重"
    else if goal == 3 then "维持"
    else if goal == 4 then "增肌"
    else if goal == 5 then "减脂"
    else "未知目标"
  }

  // ---------------- Age, BMR, TDEE, targets ----------------

  /** `calculate_age`, with `date.today()` passed in as `today`. */
  function CalculateAge(birth: Date, today: Date): (r: int)
    ensures r == today.year - birth.year - 1 <==> MonthDayBefore(today, birth)
    ensures r == today.year - birth.year <==> !MonthDayBefore(today, birth)
  {
    today.year - birth.year - (if MonthDayBefore(today, birth) then 1 else 0)
  }

  /** On the n-th birthday the age is n; on the day before (same month), it is n - 1. */
  lemma AgeAroundBirthday(birth: Date, n: int)
    ensures CalculateAge(birth, Date(birth.year + n, birth.month, birth.day)) == n
    ensures CalculateAge(birth, Date(birth.year + n, birth.month, birth.day - 1)) == n - 1
  {
  }

  /** The Mifflin–St Jeor equation: gender 1 uses +5, every other gender the female -161. */
  function MifflinStJeor(weight: real, height: real, age: int, gender: int): real {
    10.0 * weight + 6.25 * height - 5.0 * age as real + (if gender == 1 then 5.0 else -161.0)
  }

  /** `calculate_bmr`: the equation rounded to one decimal. */
  function CalculateBmr(weight: real, height: real, age: int, gender: int): (r: real)
    ensures Abs(r - MifflinStJeor(weight, height, age, gender)) <= 0.05
  {
    Round1(MifflinStJeor(weight, height, age, gender))
  }

  /** Before rounding, gender 1 is 166 kcal above any other gender for the same body. */
  lemma BmrGenderGap(weight: real, height: real, age: int, other: int)
    requires other != 1
    ensures MifflinStJeor(weight, height, age, 1) - MifflinStJeor(weight, height, age, other) == 166.0
  {
  }

  /** The rounded BMR never decreases with weight or height and never increases with age. */
  lemma BmrMonotone(w1: real, h1: real, a1: int, w2: real, h2: real, a2: int, gender: int)
    requires w1 <= w2 && h1 <= h2 && a1 >= a2
    ensures CalculateBmr(w1, h1, a1, gender) <= CalculateBmr(w2, h2, a2, gender)
  {
    Round1Monotone(MifflinStJeor(w1, h1, a1, gender), MifflinStJeor(w2, h2, a2, gender));
  }

  /** `calculate_tdee` */
  function CalculateTdee(bmr: real, level: int): (r: real)
    ensures Abs(r - bmr * ActivityFactor(level)) <= 0.05
  {
    Round1(bmr * ActivityFactor(level))
  }

  /** For a non-negative BMR, a more active level never yields a smaller TDEE. */
  lemma TdeeMonotoneInLevel(bmr: real, a: int, b: int)
    requires bmr >= 0.0 && 1 <= a <= b <= 5
    ensures CalculateTdee(bmr, a) <= CalculateTdee(bmr, b)
  {
    ActivityFactorOrdered(a, b);
    assert bmr * ActivityFactor(a) <= bmr * ActivityFactor(b);
    Round1Monotone(bmr * ActivityFactor(a), bmr * ActivityFactor(b));
  }

  /** Grams of protein, carbs and fat for a calorie target (4, 4 and 9 kcal per gram). */
  datatype Grams = Grams(protein: real, carbs: real, fat: real)

  function MacroGrams(calories: real, ratios: Ratios): (g: Grams)
    requires ratios.protein + ratios.carbs + ratios.fat == 1.0
    ensures 4.0 * g.protein + 4.0 * g.carbs + 9.0 * g.fat == calories
  {
    Grams(calories * ratios.protein / 4.0, calories * ratios.carbs / 4.0, calories * ratios.fat / 9.0)
  }

  /** The dict `calculate_daily_targets` returns; every entry is a Python int. */
  datatype Targets = Targets(calories: int, protein: int, carbs: int, fat: int, calorieAdjustment: int)

  /** `calculate_daily_targets`: the calorie target is TDEE plus the goal's adjustment (which is
      also returned), and the grams convert back to that target before rounding. */
  function CalculateDailyTargets(tdee: real, goal: int): (r: Targets)
    ensures r.calorieAdjustment == CalorieAdjustment(goal)
    ensures Abs(r.calories as real - (tdee + r.calorieAdjustment as real)) <= 0.5
    ensures var g := MacroGrams(tdee + r.calorieAdjustment as real, MacroRatios(goal));
      && Abs(r.protein as real - g.protein) <= 0.5
      && Abs(r.carbs as real - g.carbs) <= 0.5
      && Abs(r.fat as real - g.fat) <= 0.5
  {
    var adjustment := CalorieAdjustment(goal);
    var target := tdee + adjustment as real;
    var g := MacroGrams(target, MacroRatios(goal));
    Targets(Round(target), Round(g.protein), Round(g.carbs), Round(g.fat), adjustment)
  }

  /** An unknown goal type is planned exactly like MAINTAIN. */
  lemma UnknownGoalIsMaintain(tdee: real, goal: int)
    requires !(1 <= goal <= 5)
    ensures CalculateDailyTargets(tdee, goal) == CalculateDailyTargets(tdee, 3)
  {
  }

  datatype UserData = UserData(weight: real, height: real, age: int, gender: string)

  datatype NutritionProfile = NutritionProfile(
    bmr: real, tdee: real, activityFactor: real, activityDescription: string,
    dailyTargets: Targets, macroRatios: Ratios, userData: UserData)

  /** `calculate_full_nutrition_profile`: BMR feeds TDEE, which feeds the daily targets. */
  function FullNutritionProfile(weight: real, height: real, age: int, gender: int, level: int, goal: int): (r: NutritionProfile)
    ensures r.tdee == CalculateTdee(r.bmr, level) && r.dailyTargets == CalculateDailyTargets(r.tdee, goal)
    ensures Abs(r.bmr - MifflinStJeor(weight, height, age, gender)) <= 0.05
    ensures r.userData.gender == (if gender == 1 then "男" else "女")
  {
    var bmr := CalculateBmr(weight, height, age, gender);
    var tdee := CalculateTdee(bmr, level);
    NutritionProfile(bmr, tdee, ActivityFactor(level), ActivityDescription(level),
      CalculateDailyTargets(tdee, goal), MacroRatios(goal),
      UserData(weight, height, age, if gender == 1 then "男" else "女"))
  }

  // ---------------- Budget and meal impact ----------------

  /** `d.get(key, 0)` on a dict of numbers. */
  function Get0(d: map<string, real>, key: string): real {
    if key in d then d[key] else 0.0
  }

  datatype Macros = Macros(calories: int, protein: int, carbs: int, fat: int)

  /** Within half a unit of the exact difference. */
  predicate Near(n: int, x: real) {
    x - 0.5 <= n as real <= x + 0.5
  }

  /** The four dict keys of a macro record. */
  predicate MacroKey(key: string) {
    key == "calories" || key == "protein" || key == "carbs" || key == "fat"
  }

  /** `macros[key]` on the dict form of a macro record. */
  function MacroField(m: Macros, key: string): int
    requires MacroKey(key)
  {
    if key == "calories" then m.calories
    else if key == "protein" then m.protein
    else if key == "carbs" then m.carbs
    else m.fat
  }

  /** `calculate_remaining_budget`: per macro, target minus consumed, missing keys read as 0. */
  function RemainingBudget(targets: map<string, real>, consumed: map<string, real>): (r: Macros)
    ensures forall key | MacroKey(key) :: Near(MacroField(r, key), Get0(targets, key) - Get0(consumed, key))
  {
    Macros(
      Round(Get0(targets, "calories") - Get0(consumed, "calories")),
      Round(Get0(targets, "protein") - Get0(consumed, "protein")),
      Round(Get0(targets, "carbs") - Get0(consumed, "carbs")),
      Round(Get0(targets, "fat") - Get0(consumed, "fat")))
  }

  /** When a difference is a whole number, the budget holds it exactly. */
  lemma NearIsExact(n: int, m: int)
    requires Near(n, m as real)
    ensures n == m
  {
  }

  datatype Impact = Impact(mealPercentage: real, fitsBudget: bool, remainingAfter: Macros, exceededBy: real)

  /** `calculate_meal_impact`; `daily_targets["calories"]` raises KeyError when absent. */
  function MealImpact(meal: map<string, real>, targets: map<string, real>, before: map<string, real>): (r: Result<Impact, string>)
    ensures r.Raise? <==> "calories" !in targets
    ensures r.Ok? ==>
      var left := Get0(before, "calories") - Get0(meal, "calories");
      && (r.value.fitsBudget <==> left >= 0.0)
      && r.value.exceededBy >= 0.0
      && (r.value.exceededBy == 0.0 <==> r.value.fitsBudget)
      && (!r.value.fitsBudget ==> r.value.exceededBy == -left)
    ensures r.Ok? ==>
      forall key | MacroKey(key) :: Near(MacroField(r.value.remainingAfter, key), Get0(before, key) - Get0(meal, key))
    ensures r.Ok? && targets["calories"] <= 0.0 ==> r.value.mealPercentage == 0.0
    ensures r.Ok? && targets["calories"] > 0.0 ==>
      Abs(r.value.mealPercentage - Get0(meal, "calories") / targets["calories"] * 100.0) <= 0.05
  {
    if "calories" !in targets then Raise("KeyError")
    else
      var pct := if targets["calories"] > 0.0 then Get0(meal, "calories") / targets["calories"] * 100.0 else 0.0;
      var left := Get0(before, "calories") - Get0(meal, "calories");
      var fits := left >= 0.0;
      RoundOfWhole(0);
      Ok(Impact(
        Round1(pct),
        fits,
        RemainingBudget(before, meal),
        if !fits then (if 0.0 >= -left then 0.0 else -left) else 0.0))
  }

  // ---------------- Goal progress ----------------

  datatype Trend = Stable | OnTrack | OffTrack {
    function Name(): string {
      match this
      case Stable => "stable"
      case OnTrack => "on_track"
      case OffTrack => "off_track"
    }
  }

  datatype Progress = Progress(
    startingWeight: real, currentWeight: real, targetWeight: real,
    weightChange: real, remaining: real, progressPercentage: real, trend: Trend)

  predicate LosingGoal(goal: int) { goal == 1 || goal == 5 }

  /** The weight moved against the goal's direction. */
  predicate MovedAway(start: real, current: real, goal: int) {
    (LosingGoal(goal) && current > start) || (goal == 2 && current < start)
  }

  /** The percentage before the clamp: the share of the needed change achieved, negated when
      the weight moved against the goal; all-or-nothing when no change is needed. */
  function RawProgress(start: real, current: real, target: real, goal: int): real {
    var needed := Abs(target - start);
    if needed > 0.0 then
      var p := Abs(current - start) / needed * 100.0;
      if MovedAway(start, current, goal) then -p else p
    else if current == target then 100.0 else 0.0
  }

  function Clamp(p: real): (r: real)
    ensures 0.0 <= r <= 100.0
    ensures 0.0 <= p <= 100.0 ==> r == p
  {
    if 100.0 <= p then 100.0 else if p <= 0.0 then 0.0 else p
  }

  function TrendOf(change: real, goal: int): (t: Trend)
    ensures t == Stable <==> Abs(change) < 0.5
    ensures t == OnTrack <==> Abs(change) >= 0.5 && ((LosingGoal(goal) && change < 0.0) || (goal == 2 && change > 0.0))
  {
    if Abs(change) < 0.5 then Stable
    else if (LosingGoal(goal) && change < 0.0) || (goal == 2 && change > 0.0) then OnTrack
    else OffTrack
  }

  /** `calculate_goal_progress` */
  function GoalProgress(start: real, current: real, target: real, goal: int): (r: Progress)
    ensures 0.0 <= r.progressPercentage <= 100.0
    ensures target != start && !MovedAway(start, current, goal) ==>
      Abs(r.progressPercentage - Clamp(Abs(current - start) / Abs(target - start) * 100.0)) <= 0.05
    ensures r.trend == TrendOf(current - start, goal)
    ensures r.remaining >= 0.0 && Abs(r.remaining - Abs(target - current)) <= 0.005
    ensures Abs(r.weightChange - (current - start)) <= 0.005
  {
    var change := current - start;
    var c := Clamp(RawProgress(start, current, target, goal));
    RoundOfWhole(0);
    RoundOfWhole(100);
    Round2Monotone(0.0, Abs(target - current));
    Round1Monotone(0.0, c);
    Round1Monotone(c, 100.0);
    Progress(start, current, target, Round2(change), Round2(Abs(target - current)),
      Round1(c), TrendOf(change, goal))
  }

  /** Moving away from the goal reports 0%, never a negative number. */
  lemma ProgressMovedAway(start: real, current: real, target: real, goal: int)
    requires target != start && MovedAway(start, current, goal)
    ensures GoalProgress(start, current, target, goal).progressPercentage == 0.0
  {
    DivNonNegative(Abs(current - start), Abs(target - start));
    RoundOfWhole(0);
  }

  /** Reaching or passing the goal in its direction reports 100%. */
  lemma ProgressReached(start: real, current: real, target: real, goal: int)
    requires target != start && !MovedAway(start, current, goal)
    requires Abs(current - start) >= Abs(target - start)
    ensures GoalProgress(start, current, target, goal).progressPercentage == 100.0
  {
    DivAtLeastOne(Abs(current - start), Abs(target - start));
    RoundOfWhole(100);
  }

  /** When no change is needed, the result is 100% if the current weight is the target
      and 0% otherwise. */
  lemma ProgressNoChangeNeeded(start: real, current: real, target: real, goal: int)
    requires target == start
    ensures GoalProgress(start, current, target, goal).progressPercentage == (if current == target then 100.0 else 0.0)
  {
    RoundOfWhole(0);
    RoundOfWhole(100);
  }

  lemma DivAtLeastOne(a: real, b: real)
    requires a >= b > 0.0
    ensures a / b * 100.0 >= 100.0
  {
  }

  lemma DivNonNegative(a: real, b: real)
    requires a >= 0.0 && b > 0.0
    ensures a / b * 100.0 >= 0.0
  {
  }

  /** Losing from 80 kg towards 70 kg: at 75 kg the progress is 50% and on track; at 82 kg
      the negated progress is clamped to 0 and the trend is off track. */
  lemma ProgressExamples()
    ensures GoalProgress(80.0, 75.0, 70.0, 1).progressPercentage == 50.0
    ensures GoalProgress(80.0, 75.0, 70.0, 1).trend == OnTrack
    ensures GoalProgress(80.0, 82.0, 70.0, 1).progressPercentage == 0.0
    ensures GoalProgress(80.0, 82.0, 70.0, 1).trend == OffTrack
  {
    RoundOfWhole(50);
    RoundOfWhole(0);
  }
}
