/** The agent orchestrator: it combines the food-image analysis of the nutrition agent with the
    user's goal status and long-term memory. What an agent run streams, or that it raises, is an
    input; so are the database rows the goal status is computed from. */
module Orchestrator {
  import opened Wrappers
  import opened Text
  import opened Dates
  import opened Foreign
  import NutritionCalc
  import MemoryStore
  import SyncService
  import MemoryEvents
  import Schemas

  // ---------------- Preferences read from the shared workspace ----------------

  datatype Category = Allergies | Diseases | Restrictions

  /** The `prefs` dict: its `allergies`, `diseases` and `dietary_restrictions` lists. */
  datatype Preferences = Preferences(allergies: seq<string>, diseases: seq<string>, dietaryRestrictions: seq<string>)

  const NoPreferences := Preferences([], [], [])

  function Items(p: Preferences, c: Category): seq<string> {
    match c
    case Allergies => p.allergies
    case Diseases => p.diseases
    case Restrictions => p.dietaryRestrictions
  }

  /** `prefs[c].append(item)` */
  function Add(p: Preferences, c: Category, item: string): (r: Preferences)
    ensures Items(r, c) == Items(p, c) + [item]
    ensures forall d | d != c :: Items(r, d) == Items(p, d)
  {
    match c
    case Allergies => p.(allergies := p.allergies + [item])
    case Diseases => p.(diseases := p.diseases + [item])
    case Restrictions => p.(dietaryRestrictions := p.dietaryRestrictions + [item])
  }

  /** The lists of `p` followed by those of `q`. */
  function Concat(p: Preferences, q: Preferences): Preferences {
    Preferences(p.allergies + q.allergies, p.diseases + q.diseases, p.dietaryRestrictions + q.dietaryRestrictions)
  }

  /** Two readings of the shared workspace: the parser as written, and a strict one in which
      every other `### ` heading also closes the current list and the placeholder bullets the
      renderer writes for empty lists are dropped. */
  datatype Reading = AsWritten | Strict

  /** What a line does to the current list: `Some(Some(c))` opens list `c`, `Some(None)` closes
      it, `None` leaves it as it is. */
  function HeadingOf(mode: Reading, line: string): Option<Option<Category>> {
    if Contains(line, "### 过敏原") then Some(Some(Allergies))
    else if Contains(line, "### 疾病") then Some(Some(Diseases))
    else if Contains(line, "### 饮食限制") then Some(Some(Restrictions))
    else if "## " <= line then Some(None)
    else if mode == Strict && "### " <= line then Some(None)
    else None
  }

  /** The item of a `- ` bullet: `line[2:].split('(')[0].strip()`. */
  function ItemOf(line: string): (r: string)
    requires |line| >= 2
    ensures '(' !in r
  {
    StripWithin(BeforeParen(line[2..]));
    Strip(BeforeParen(line[2..]))
  }

  /** The bullets the renderer writes under these headings when a list is empty. */
  const Placeholders: set<string> := {"无已知过敏原", "无已知疾病", "无正在服用的药物", "无特殊饮食限制"}

  /** An item is kept when it is non-empty, does not contain 暂无 and is not 无. */
  predicate Kept(mode: Reading, item: string) {
    && item != "" && !Contains(item, "暂无") && item != "无"
    && (mode == Strict ==> item !in Placeholders)
  }

  /** The parser's state: the list being collected, and the lists so far. */
  datatype Scan = Scan(current: Option<Category>, prefs: Preferences)

  const Start := Scan(None, NoPreferences)

  function Step(mode: Reading, s: Scan, line: string): Scan {
    match HeadingOf(mode, line)
    case Some(c) => Scan(c, s.prefs)
    case None =>
      if "- " <= line && s.current.Some? && Kept(mode, ItemOf(line)) then
        Scan(s.current, Add(s.prefs, s.current.value, ItemOf(line)))
      else s
  }

  /** The state after reading `lines` from state `s`. */
  function ScanFrom(mode: Reading, s: Scan, lines: seq<string>): Scan {
    if lines == [] then s
    else Step(mode, ScanFrom(mode, s, lines[..|lines| - 1]), lines[|lines| - 1])
  }

  function ScanLines(mode: Reading, lines: seq<string>): Scan {
    ScanFrom(mode, Start, lines)
  }

  /** `_extract_preferences`: `{}` (here `None`) for missing or empty memory, otherwise the three
      lists read from its lines. */
  function PreferencesOf(mode: Reading, memory: Option<string>): Option<Preferences> {
    if memory.None? || memory.value == "" then None
    else Some(ScanLines(mode, Split(memory.value, '\n')).prefs)
  }

  /** `_extract_preferences`, line by line. */
  method ExtractPreferences(memory: Option<string>) returns (prefs: Option<Preferences>)
    ensures prefs == PreferencesOf(AsWritten, memory)
  {
    if memory.None? || memory.value == "" {
      return None;
    }
    var allergies: seq<string>, diseases: seq<string>, restrictions: seq<string> := [], [], [];
    var lines := Split(memory.value, '\n');
    var current: Option<Category> := None;
    for i := 0 to |lines|
      invariant Scan(current, Preferences(allergies, diseases, restrictions)) == ScanLines(AsWritten, lines[..i])
    {
      var line := lines[i];
      assert lines[..i + 1][..i] == lines[..i];
      if Contains(line, "### 过敏原") {
        current := Some(Allergies);
      } else if Contains(line, "### 疾病") {
        current := Some(Diseases);
      } else if Contains(line, "### 饮食限制") {
        current := Some(Restrictions);
      } else if "## " <= line {
        current := None;
      } else if "- " <= line && current.Some? {
        var item := ItemOf(line);
        if item != "" && !Contains(item, "暂无") && item != "无" {
          match current.value {
            case Allergies => allergies := allergies + [item];
            case Diseases => diseases := diseases + [item];
            case Restrictions => restrictions := restrictions + [item];
          }
        }
      }
    }
    assert lines[..|lines|] == lines;
    prefs := Some(Preferences(allergies, diseases, restrictions));
  }

  /** Reading `a + b` is reading `a`, then `b`. */
  lemma {:induction false} ScanFromAppend(mode: Reading, s: Scan, a: seq<string>, b: seq<string>)
    ensures ScanFrom(mode, s, a + b) == ScanFrom(mode, ScanFrom(mode, s, a), b)
    decreases |b|
  {
    if b == [] {
      assert a + b == a;
    } else {
      assert (a + b)[..|a + b| - 1] == a + b[..|b| - 1];
      ScanFromAppend(mode, s, a, b[..|b| - 1]);
    }
  }

  /** Appending to a list of `Concat(p, q)` appends to the list of `q`. */
  lemma AddConcat(p: Preferences, q: Preferences, c: Category, x: string)
    ensures Add(Concat(p, q), c, x) == Concat(p, Add(q, c, x))
  {
    match c
    case Allergies => assert (p.allergies + q.allergies) + [x] == p.allergies + (q.allergies + [x]);
    case Diseases => assert (p.diseases + q.diseases) + [x] == p.diseases + (q.diseases + [x]);
    case Restrictions =>
      assert (p.dietaryRestrictions + q.dietaryRestrictions) + [x] == p.dietaryRestrictions + (q.dietaryRestrictions + [x]);
  }

  /** One line read after lists `p` does to the lists what it does on its own. */
  lemma StepUnderConcat(mode: Reading, p: Preferences, t: Scan, line: string)
    ensures var u := Step(mode, t, line);
      Step(mode, Scan(t.current, Concat(p, t.prefs)), line) == Scan(u.current, Concat(p, u.prefs))
  {
    if HeadingOf(mode, line).None? && "- " <= line && t.current.Some? && Kept(mode, ItemOf(line)) {
      AddConcat(p, t.prefs, t.current.value, ItemOf(line));
    }
  }

  /** Reading never changes the lists collected before: it only appends to them, and what it
      appends depends only on the current list. */
  lemma {:induction false} ScanKeepsEarlier(mode: Reading, s: Scan, lines: seq<string>)
    ensures var alone := ScanFrom(mode, Scan(s.current, NoPreferences), lines);
      ScanFrom(mode, s, lines) == Scan(alone.current, Concat(s.prefs, alone.prefs))
    decreases |lines|
  {
    if lines == [] {
      assert Concat(s.prefs, NoPreferences) == s.prefs;
    } else {
      var init := lines[..|lines| - 1];
      ScanKeepsEarlier(mode, s, init);
      StepUnderConcat(mode, s.prefs, ScanFrom(mode, Scan(s.current, NoPreferences), init), lines[|lines| - 1]);
    }
  }

  /** A `## ` line (or, in the strict reading, any other `### ` heading) closes the current list:
      the items read after it are those its following lines yield on their own. */
  lemma HeadingCloses(mode: Reading, a: seq<string>, h: string, b: seq<string>)
    requires HeadingOf(mode, h) == Some(None)
    ensures ScanLines(mode, a + [h] + b).prefs == Concat(ScanLines(mode, a).prefs, ScanLines(mode, b).prefs)
  {
    ScanFromAppend(mode, Start, a + [h], b);
    ScanFromAppend(mode, Start, a, [h]);
    assert [h][..0] == [];
    var afterH := ScanFrom(mode, Start, a + [h]);
    assert afterH == Scan(None, ScanLines(mode, a).prefs);
    ScanKeepsEarlier(mode, afterH, b);
  }

  /** Some `- ` bullet of `lines` has `x` as its item. */
  predicate IsBulletItem(lines: seq<string>, x: string) {
    exists i | 0 <= i < |lines| :: "- " <= lines[i] && ItemOf(lines[i]) == x
  }

  /** An item collected by one line was collected before it, or is that line's kept item. */
  lemma StepItems(mode: Reading, t: Scan, line: string, c: Category, x: string)
    requires x in Items(Step(mode, t, line).prefs, c)
    ensures x in Items(t.prefs, c) || ("- " <= line && ItemOf(line) == x && Kept(mode, x))
  {
  }

  /** Every collected item is the kept, `(`-free item of some `- ` bullet of the input. */
  lemma {:induction false} ItemsAreBullets(mode: Reading, lines: seq<string>)
    ensures forall c: Category, x | x in Items(ScanLines(mode, lines).prefs, c) ::
      Kept(mode, x) && '(' !in x && IsBulletItem(lines, x)
    decreases |lines|
  {
    if lines != [] {
      var init := lines[..|lines| - 1];
      ItemsAreBullets(mode, init);
      var last := |lines| - 1;
      forall c: Category, x | x in Items(ScanLines(mode, lines).prefs, c)
        ensures Kept(mode, x) && '(' !in x && IsBulletItem(lines, x)
      {
        StepItems(mode, ScanLines(mode, init), lines[last], c, x);
        if x in Items(ScanLines(mode, init).prefs, c) {
          assert IsBulletItem(init, x);
          var i :| 0 <= i < |init| && "- " <= init[i] && ItemOf(init[i]) == x;
          assert lines[i] == init[i];
        } else {
          assert "- " <= lines[last] && ItemOf(lines[last]) == x;
        }
      }
    }
  }

  /** Without a heading that opens list `c`, list `c` stays empty. */
  lemma {:induction false} NoHeadingNoItems(mode: Reading, lines: seq<string>, c: Category)
    requires forall i | 0 <= i < |lines| :: HeadingOf(mode, lines[i]) != Some(Some(c))
    ensures Items(ScanLines(mode, lines).prefs, c) == []
    ensures ScanLines(mode, lines).current != Some(c)
    decreases |lines|
  {
    if lines != [] {
      NoHeadingNoItems(mode, lines[..|lines| - 1], c);
    }
  }

  // ---------------- The renderer's layout, read back ----------------

  /** A bullet changes no list heading. */
  lemma BulletIsNoHeading(mode: Reading, line: string)
    requires "- " <= line && '#' !in line
    ensures HeadingOf(mode, line) == None
  {
    assert line[0] == '-';
    CharRulesOut(line, "### 过敏原", '#');
    CharRulesOut(line, "### 疾病", '#');
    CharRulesOut(line, "### 饮食限制", '#');
  }

  /** The item of a bullet without `(` and without surrounding whitespace is its text. */
  lemma PlainItem(line: string, t: string)
    requires line == "- " + t && '(' !in t
    requires t != [] && !IsSpace(t[0]) && !IsSpace(t[|t| - 1])
    ensures ItemOf(line) == t
  {
    assert line[2..] == t;
    StripBare(t);
  }

  lemma ReadTwo(mode: Reading, l0: string, l1: string)
    ensures ScanLines(mode, [l0, l1]) == Step(mode, Step(mode, Start, l0), l1)
  {
    assert [l0, l1][..1] == [l0];
    assert [l0][..0] == [];
    assert ScanFrom(mode, Start, [l0]) == Step(mode, Start, l0);
  }

  lemma ReadThree(mode: Reading, l0: string, l1: string, l2: string)
    ensures ScanLines(mode, [l0, l1, l2]) == Step(mode, Step(mode, Step(mode, Start, l0), l1), l2)
  {
    assert [l0, l1, l2][..2] == [l0, l1];
    ReadTwo(mode, l0, l1);
  }

  /** A line without 过, 疾 and 饮 opens no list. */
  lemma OpensNoList(line: string)
    requires '过' !in line && '疾' !in line && '饮' !in line
    ensures !Contains(line, "### 过敏原") && !Contains(line, "### 疾病") && !Contains(line, "### 饮食限制")
  {
    CharRulesOut(line, "### 过敏原", '过');
    CharRulesOut(line, "### 疾病", '疾');
    CharRulesOut(line, "### 饮食限制", '饮');
  }

  /** The heading of the allergy list, as the renderer writes it. */
  lemma AllergyHeading(mode: Reading, line: string)
    requires line == "### 过敏原"
    ensures HeadingOf(mode, line) == Some(Some(Allergies))
  {
  }

  /** The heading of the disease list, as the renderer writes it. */
  lemma DiseaseHeading(mode: Reading, line: string)
    requires line == "### 疾病/医疗状况"
    ensures HeadingOf(mode, line) == Some(Some(Diseases))
  {
    CharRulesOut(line, "### 过敏原", '过');
  }

  /** The heading of the medication list, which follows the disease list: only the strict
      reading closes the current list there. */
  lemma MedicationHeading(line: string)
    requires line == "### 用药情况"
    ensures HeadingOf(AsWritten, line) == None
    ensures HeadingOf(Strict, line) == Some(None)
  {
    assert line[2] == '#' && line[3] == ' ';
    OpensNoList(line);
  }

  /** The bullet the renderer writes for an empty allergy list. */
  lemma AllergyPlaceholder(mode: Reading, line: string)
    requires line == "- 无已知过敏原"
    ensures HeadingOf(mode, line) == None
    ensures ItemOf(line) == "无已知过敏原"
  {
    BulletIsNoHeading(mode, line);
    PlainItem(line, "无已知过敏原");
  }

  /** Only the strict reading drops that placeholder. */
  lemma AllergyPlaceholderKept(item: string)
    requires item == "无已知过敏原"
    ensures Kept(AsWritten, item) && !Kept(Strict, item)
  {
    CharRulesOut(item, "暂无", '暂');
  }

  /** The item of a bullet `- name (rest` is `name` when `name` has no `(` and no surrounding
      whitespace. */
  lemma ParenItem(line: string, name: string, rest: string)
    requires line == "- " + name + " (" + rest && '(' !in name
    requires name != [] && !IsSpace(name[0]) && !IsSpace(name[|name| - 1])
    ensures ItemOf(line) == name
  {
    var t := name + " ";
    assert line[2..] == t + "(" + rest;
    BeforeParenAt(t, rest);
    assert t[..|t| - 1] == name;
    StripBare(name);
  }

  /** A medication bullet as the renderer writes it: name and dosage, then the frequency in
      parentheses; its item is the name and dosage. */
  lemma MedicationBullet(mode: Reading, line: string, name: string, rest: string)
    requires name == "二甲双胍 500mg" && rest == "每日两次)" && line == "- " + name + " (" + rest
    ensures HeadingOf(mode, line) == None
    ensures ItemOf(line) == name
  {
    assert '#' !in name && '#' !in rest;
    BulletIsNoHeading(mode, line);
    ParenItem(line, name, rest);
  }

  lemma MedicationKept(mode: Reading, item: string)
    requires item == "二甲双胍 500mg"
    ensures Kept(mode, item)
  {
    CharRulesOut(item, "暂无", '暂');
  }

  /** The renderer's placeholder for an empty allergy list is read as an allergy. */
  lemma PlaceholderBulletsKept(h: string, b: string)
    requires h == "### 过敏原" && b == "- 无已知过敏原"
    ensures ScanLines(AsWritten, [h, b]).prefs == Preferences(["无已知过敏原"], [], [])
  {
    AllergyHeading(AsWritten, h);
    AllergyPlaceholder(AsWritten, b);
    AllergyPlaceholderKept(ItemOf(b));
    ReadTwo(AsWritten, h, b);
  }

  /** The medication list follows the disease list under a `### ` heading, which does not close
      it: each medication is read as a disease. */
  lemma MedicationsReadAsDiseases(h: string, m: string, b: string, name: string, rest: string)
    requires h == "### 疾病/医疗状况" && m == "### 用药情况"
    requires name == "二甲双胍 500mg" && rest == "每日两次)" && b == "- " + name + " (" + rest
    ensures ScanLines(AsWritten, [h, m, b]).prefs == Preferences([], [name], [])
  {
    DiseaseHeading(AsWritten, h);
    MedicationHeading(m);
    MedicationBullet(AsWritten, b, name, rest);
    MedicationKept(AsWritten, name);
    ReadThree(AsWritten, h, m, b);
    var open := Step(AsWritten, Start, h);
    assert open == Scan(Some(Diseases), NoPreferences);
    assert m[0] == '#';
    assert Step(AsWritten, open, m) == open;
    assert "- " <= b;
  }

  /** In the strict reading the placeholder yields no allergy. */
  lemma StrictDropsPlaceholder(h: string, b: string)
    requires h == "### 过敏原" && b == "- 无已知过敏原"
    ensures ScanLines(Strict, [h, b]).prefs == NoPreferences
  {
    AllergyHeading(Strict, h);
    AllergyPlaceholder(Strict, b);
    AllergyPlaceholderKept(ItemOf(b));
    ReadTwo(Strict, h, b);
  }

  /** In the strict reading the medication heading closes the disease list. */
  lemma StrictClosesDiseases(h: string, m: string, b: string, name: string, rest: string)
    requires h == "### 疾病/医疗状况" && m == "### 用药情况"
    requires name == "二甲双胍 500mg" && rest == "每日两次)" && b == "- " + name + " (" + rest
    ensures ScanLines(Strict, [h, m, b]).prefs == NoPreferences
  {
    DiseaseHeading(Strict, h);
    MedicationHeading(m);
    MedicationBullet(Strict, b, name, rest);
    ReadThree(Strict, h, m, b);
  }

  /** The strict reading never collects a placeholder. */
  lemma StrictNeverKeepsPlaceholders(lines: seq<string>)
    ensures forall c: Category, x | x in Items(ScanLines(Strict, lines).prefs, c) :: x !in Placeholders
  {
    forall c: Category, x | x in Items(ScanLines(Strict, lines).prefs, c)
      ensures x !in Placeholders
    {
      ItemsAreBullets(Strict, lines);
      assert Kept(Strict, x);
    }
  }

  // ---------------- The goal status ----------------

  /** The four macros of a budget. */
  const MacroKeys: seq<string> := ["calories", "protein", "carbs", "fat"]

  /** The goal payload `_call_goal_agent` returns (its `goal_progress` is always `None`). */
  datatype GoalData = GoalData(
    bmr: real, tdee: real,
    macroTargets: map<string, real>, todayConsumed: map<string, real>, remainingBudget: map<string, real>,
    suggestions: seq<string>, warnings: seq<string>)

  /** For each macro, what was consumed today and what remains add up to the target. */
  predicate BudgetAddsUp(g: GoalData) {
    forall k | k in MacroKeys ::
      && k in g.macroTargets && k in g.todayConsumed && k in g.remainingBudget
      && g.todayConsumed[k] + g.remainingBudget[k] == g.macroTargets[k]
  }

  /** `_get_default_goal_data`: a 2000 kcal target, nothing consumed, the whole target left. */
  function DefaultGoalData(): (r: GoalData)
    ensures r.macroTargets.Keys == r.todayConsumed.Keys == r.remainingBudget.Keys == set k | k in MacroKeys
    ensures r.macroTargets["calories"] == 2000.0
    ensures forall k | k in r.todayConsumed :: r.todayConsumed[k] == 0.0
    ensures r.remainingBudget == r.macroTargets
    ensures r.suggestions == [] && r.warnings == []
  {
    var targets := map["calories" := 2000.0, "protein" := 100.0, "carbs" := 250.0, "fat" := 65.0];
    GoalData(1600.0, 2200.0, targets,
      map["calories" := 0.0, "protein" := 0.0, "carbs" := 0.0, "fat" := 0.0], targets, [], [])
  }

  lemma DefaultBudgetAddsUp()
    ensures BudgetAddsUp(DefaultGoalData())
  {
    var d := DefaultGoalData();
    forall k | k in MacroKeys
      ensures k in d.todayConsumed && d.todayConsumed[k] == 0.0
    {
    }
  }

  /** The dict `calculate_daily_targets` returns. */
  function TargetsMap(t: NutritionCalc.Targets): map<string, real> {
    map["calories" := t.calories as real, "protein" := t.protein as real, "carbs" := t.carbs as real,
        "fat" := t.fat as real, "calorie_adjustment" := t.calorieAdjustment as real]
  }

  /** Today's consumption: each total of today's summary, 0 where there is no summary or the
      total is missing or zero. */
  function ConsumedMap(summary: Option<SyncService.SummaryRow>): map<string, real> {
    match summary
    case None => map["calories" := 0.0, "protein" := 0.0, "carbs" := 0.0, "fat" := 0.0]
    case Some(s) =>
      map["calories" := SyncService.CaloriesOf(s), "protein" := SyncService.ProteinOf(s),
          "carbs" := SyncService.CarbsOf(s), "fat" := SyncService.FatOf(s)]
  }

  /** The consumption is the one today's status records. */
  lemma ConsumedMatches(targets: Schemas.DailyTargets, summary: Option<SyncService.SummaryRow>, now: DateTime)
    ensures var c, s := ConsumedMap(summary), SyncService.TodayStatusOf(targets, summary, now);
      && c["calories"] == s.consumedCalories && c["protein"] == s.consumedProtein
      && c["carbs"] == s.consumedCarbs && c["fat"] == s.consumedFat
  {
  }

  /** The budget for the four macros: target minus consumed. */
  function RemainingMap(targets: map<string, real>, consumed: map<string, real>): map<string, real>
    requires forall k | k in MacroKeys :: k in targets && k in consumed
  {
    map["calories" := targets["calories"] - consumed["calories"], "protein" := targets["protein"] - consumed["protein"],
        "carbs" := targets["carbs"] - consumed["carbs"], "fat" := targets["fat"] - consumed["fat"]]
  }

  /** `_call_goal_agent`: `rows` is what the queries for the user return, or the exception they
      raise; a raised exception or a missing profile gives the default payload. Otherwise the
      targets are those of the profile (70 kg, 170 cm, age 30, gender 1 and activity level 2
      where missing) and of the active goal's type, MAINTAIN without one. */
  function CallGoalAgent(rows: Result<SyncService.UserRows, string>, today: Date): (r: GoalData)
    ensures BudgetAddsUp(r)
    ensures rows.Raise? || rows.value.profile.None? ==> r == DefaultGoalData()
    ensures rows.Ok? && rows.value.profile.Some? ==> r.todayConsumed == ConsumedMap(rows.value.todaySummary)
  {
    if rows.Raise? || rows.value.profile.None? then
      DefaultBudgetAddsUp();
      DefaultGoalData()
    else
      var p := rows.value.profile.value;
      var bmr := NutritionCalc.CalculateBmr(SyncService.OrReal(p.weight, 70.0), SyncService.OrReal(p.height, 170.0),
        SyncService.AgeOf(p.birthDate, today), SyncService.OrInt(p.gender, 1));
      var tdee := NutritionCalc.CalculateTdee(bmr, SyncService.OrInt(p.activityLevel, 2));
      var goalType := if rows.value.activeGoal.Some? then rows.value.activeGoal.value.goalType else 3;
      GoalDataFrom(bmr, tdee, NutritionCalc.CalculateDailyTargets(tdee, goalType), rows.value.todaySummary)
  }

  /** The payload for a profile: the targets, today's consumption and the budget between them. */
  function GoalDataFrom(bmr: real, tdee: real, t: NutritionCalc.Targets, summary: Option<SyncService.SummaryRow>): (r: GoalData)
    ensures BudgetAddsUp(r)
  {
    var targets, consumed := TargetsMap(t), ConsumedMap(summary);
    GoalData(bmr, tdee, targets, consumed, RemainingMap(targets, consumed), [], [])
  }

  /** The baseline and targets the goal workspace holds for a user with a profile whose active
      goal, if any, has a known type. */
  function WorkspaceGoal(userId: int, rows: SyncService.UserRows, now: DateTime, today: Date): (w: Schemas.GoalTrackingData)
    requires rows.profile.Some?
    requires rows.activeGoal.None? || 1 <= rows.activeGoal.value.goalType <= 5
    ensures w.bmrTdee.Some? && w.dailyTargets.Some?
    ensures w.todayStatus == SyncService.TodayStatusOf(w.dailyTargets.value, rows.todaySummary, now)
  {
    SyncService.GoalDataOf(userId, rows.profile.value, rows.activeGoal, rows.weights, rows.todaySummary, now, today).value
  }

  /** The goal agent and the goal workspace agree: for a user with a profile whose active goal
      (if any) has a known type, the agent's BMR, TDEE and targets are those `sync_goal_tracking`
      writes. */
  lemma GoalAgentMatchesWorkspace(userId: int, rows: SyncService.UserRows, now: DateTime, today: Date)
    requires rows.profile.Some?
    requires rows.activeGoal.None? || 1 <= rows.activeGoal.value.goalType <= 5
    ensures var w, r := WorkspaceGoal(userId, rows, now, today), CallGoalAgent(Ok(rows), today);
      && r.bmr == w.bmrTdee.value.bmr && r.tdee == w.bmrTdee.value.tdee
      && r.macroTargets["calories"] == w.dailyTargets.value.calories
      && r.macroTargets["protein"] == w.dailyTargets.value.protein
      && r.macroTargets["carbs"] == w.dailyTargets.value.carbs
      && r.macroTargets["fat"] == w.dailyTargets.value.fat
  {
  }

  /** ... and so is today's consumption, and with it what remains of each target. */
  lemma GoalAgentBudgetMatchesWorkspace(userId: int, rows: SyncService.UserRows, now: DateTime, today: Date)
    requires rows.profile.Some?
    requires rows.activeGoal.None? || 1 <= rows.activeGoal.value.goalType <= 5
    ensures var w, r := WorkspaceGoal(userId, rows, now, today), CallGoalAgent(Ok(rows), today);
      && r.todayConsumed["calories"] == w.todayStatus.consumedCalories
      && r.todayConsumed["protein"] == w.todayStatus.consumedProtein
      && r.todayConsumed["carbs"] == w.todayStatus.consumedCarbs
      && r.todayConsumed["fat"] == w.todayStatus.consumedFat
  {
    ConsumedMatches(WorkspaceGoal(userId, rows, now, today).dailyTargets.value, rows.todaySummary, now);
  }

  // ---------------- The meal's impact on the goal ----------------

  datatype Macronutrients = Macronutrients(protein: real, carbohydrates: real, fat: real)

  /** The `nutrition_analysis` value the agent run returns: the stream hands over the graph state
      as JSON, so it is a dict; a `None` field is a key the dict does not have. */
  datatype NutritionAnalysis = NutritionAnalysis(
    totalCalories: Option<real>, macronutrients: Option<Macronutrients>, foodItems: Option<seq<string>>)

  /** How the analysis is read. `_calculate_goal_impact` and `_trigger_memory_updates` read it by
      attribute (`hasattr`, `.total_calories`, `.food_items`), which a dict does not have; the
      reading they evidently intend is by key (`.get("total_calories")`). */
  datatype Lookup = ByAttribute | ByKey

  /** A field of the analysis as `lookup` finds it: a dict has no attributes. */
  function Field<T>(lookup: Lookup, value: Option<T>): (r: Option<T>)
    ensures lookup == ByAttribute ==> r.None?
    ensures lookup == ByKey ==> r == value
  {
    if lookup == ByKey then value else None
  }

  /** The `goal_context` dict. */
  datatype GoalContext = GoalContext(
    dailyTargets: map<string, real>, beforeMealRemaining: map<string, real>,
    afterMealRemaining: NutritionCalc.Macros, mealPercentage: real, fitsBudget: bool, goalSuggestions: seq<string>)

  /** The meal as `calculate_meal_impact` reads it: missing macronutrients count as 0. */
  function MealOf(calories: real, macros: Option<Macronutrients>): (meal: map<string, real>)
    ensures meal.Keys == set k | k in MacroKeys
    ensures meal["calories"] == calories
    ensures macros.None? ==> meal["protein"] == meal["carbs"] == meal["fat"] == 0.0
    ensures macros.Some? ==> meal["protein"] == macros.value.protein && meal["fat"] == macros.value.fat
  {
    var m := if macros.Some? then macros.value else Macronutrients(0.0, 0.0, 0.0);
    map["calories" := calories, "protein" := m.protein, "carbs" := m.carbohydrates, "fat" := m.fat]
  }

  /** `_calculate_goal_impact`, reading the analysis as `lookup` says: `None` for empty targets,
      for an analysis where no calorie total is found and where the impact calculation raises. */
  function CalculateGoalImpact(lookup: Lookup, n: NutritionAnalysis, g: GoalData): (r: Option<GoalContext>)
    ensures r.Some? <==> g.macroTargets != map[] && Field(lookup, n.totalCalories).Some? && "calories" in g.macroTargets
    ensures r.Some? ==> r.value.dailyTargets == g.macroTargets && r.value.beforeMealRemaining == g.remainingBudget
    ensures r.Some? ==> r.value.goalSuggestions == g.suggestions
    ensures r.Some? ==>
      var left := NutritionCalc.Get0(g.remainingBudget, "calories") - n.totalCalories.value;
      (r.value.fitsBudget <==> left >= 0.0) && NutritionCalc.Near(r.value.afterMealRemaining.calories, left)
    ensures r.Some? && n.macronutrients.None? ==>
      NutritionCalc.Near(r.value.afterMealRemaining.protein, NutritionCalc.Get0(g.remainingBudget, "protein"))
  {
    var calories := Field(lookup, n.totalCalories);
    if g.macroTargets == map[] || calories.None? then None
    else
      var meal := MealOf(calories.value, Field(lookup, n.macronutrients));
      match NutritionCalc.MealImpact(meal, g.macroTargets, g.remainingBudget)
      case Raise(_) => None
      case Ok(i) => Some(GoalContext(g.macroTargets, g.remainingBudget, i.remainingAfter, i.mealPercentage, i.fitsBudget, g.suggestions))
  }

  /** As written, the streamed dict has no `total_calories` attribute, so no analysis ever gets
      a goal impact. */
  lemma AttributeReadFindsNoCalories(n: NutritionAnalysis, g: GoalData)
    ensures CalculateGoalImpact(ByAttribute, n, g).None?
  {
  }

  /** Read by key, against the default payload a meal with a calorie total fits exactly when it
      has at most 2000 kcal. */
  lemma DefaultBudgetFits(n: NutritionAnalysis)
    requires n.totalCalories.Some?
    ensures var r := CalculateGoalImpact(ByKey, n, DefaultGoalData());
      r.Some? && (r.value.fitsBudget <==> n.totalCalories.value <= 2000.0)
  {
    var d := DefaultGoalData();
    assert "calories" in d.macroTargets;
    assert NutritionCalc.Get0(d.remainingBudget, "calories") == 2000.0;
  }

  // ---------------- Agent runs ----------------

  /** The state a streamed chunk carries. */
  datatype StepData = StepData(
    currentStep: Option<string>, nutritionAnalysis: Option<NutritionAnalysis>,
    nutritionAdvice: Option<string>, adviceDependencies: Option<seq<string>>)

  /** A chunk of `client.runs.stream`; `None` is empty data. */
  datatype Chunk = Chunk(data: Option<StepData>)

  /** What running an agent does: it streams chunks, or the call raises. */
  datatype AgentRun = Streamed(chunks: seq<Chunk>) | Failed(error: string)

  /** The input a run of an agent graph receives. */
  datatype AgentInput = AgentInput(imageData: string, userId: Option<int>, userPreferences: Option<Preferences>)

  /** The agent service: what a run of graph `graphId` on an input does. */
  type AgentService = (string, AgentInput) -> AgentRun

  const EnhancedGraph := "enhanced_nutrition_agent"
  const OriginalGraph := "nutrition_agent"

  predicate Completed(c: Chunk) {
    c.data.Some? && c.data.value.currentStep == Some("completed")
  }

  /** The data of the last chunk whose step is `completed`. */
  function LastCompletedOf(chunks: seq<Chunk>): Option<StepData> {
    if chunks == [] then None
    else if Completed(chunks[|chunks| - 1]) then chunks[|chunks| - 1].data
    else LastCompletedOf(chunks[..|chunks| - 1])
  }

  /** `LastCompletedOf` is `None` exactly when no chunk is completed, and otherwise the data of a
      completed chunk after which no chunk is completed. */
  lemma {:induction false} LastCompletedSpec(chunks: seq<Chunk>)
    ensures LastCompletedOf(chunks).None? <==> forall i | 0 <= i < |chunks| :: !Completed(chunks[i])
    ensures LastCompletedOf(chunks).Some? ==> exists i | 0 <= i < |chunks| ::
      Completed(chunks[i]) && chunks[i].data == LastCompletedOf(chunks) && forall j | i < j < |chunks| :: !Completed(chunks[j])
    decreases |chunks|
  {
    if chunks != [] {
      var init := chunks[..|chunks| - 1];
      LastCompletedSpec(init);
      var last := |chunks| - 1;
      if Completed(chunks[last]) {
        assert Completed(chunks[last]) && chunks[last].data == LastCompletedOf(chunks);
      } else if LastCompletedOf(init).Some? {
        var i :| 0 <= i < |init| && Completed(init[i]) && init[i].data == LastCompletedOf(init)
          && forall j | i < j < |init| :: !Completed(init[j]);
        assert chunks[i] == init[i];
        assert forall j | i < j < |chunks| :: !Completed(chunks[j]) by {
          forall j | i < j < |chunks|
            ensures !Completed(chunks[j])
          {
            if j < last {
              assert chunks[j] == init[j];
            }
          }
        }
      } else {
        forall i | 0 <= i < |chunks|
          ensures !Completed(chunks[i])
        {
          if i < last {
            assert chunks[i] == init[i];
          }
        }
      }
    }
  }

  /** The `async for` over the stream, keeping the data of each completed chunk. */
  method LastCompleted(chunks: seq<Chunk>) returns (result: Option<StepData>)
    ensures result == LastCompletedOf(chunks)
  {
    result := None;
    for i := 0 to |chunks|
      invariant result == LastCompletedOf(chunks[..i])
    {
      assert chunks[..i + 1][..i] == chunks[..i];
      if chunks[i].data.Some? && chunks[i].data.value.currentStep == Some("completed") {
        result := chunks[i].data;
      }
    }
    assert chunks[..|chunks|] == chunks;
  }

  /** The three fields the callers read; `{}` is the result with none of them. */
  datatype NutritionResult = NutritionResult(
    nutritionAnalysis: Option<NutritionAnalysis>, nutritionAdvice: Option<string>, adviceDependencies: Option<seq<string>>)

  const NoResult := NutritionResult(None, None, None)

  /** What a streamed run returns: the fields of the last completed chunk, or `{}`. */
  function StreamResult(chunks: seq<Chunk>): NutritionResult {
    match LastCompletedOf(chunks)
    case None => NoResult
    case Some(d) => NutritionResult(d.nutritionAnalysis, d.nutritionAdvice, d.adviceDependencies)
  }

  /** `_call_nutrition_agent` and its fallback `_call_original_nutrition_agent`: the original
      graph runs, without the user id, only when the enhanced run raises, and `{}` is returned
      when that raises too. */
  function NutritionCall(agents: AgentService, imageData: string, userId: int, prefs: Option<Preferences>): NutritionResult {
    match agents(EnhancedGraph, AgentInput(imageData, Some(userId), prefs))
    case Streamed(chunks) => StreamResult(chunks)
    case Failed(_) =>
      match agents(OriginalGraph, AgentInput(imageData, None, prefs))
      case Streamed(chunks) => StreamResult(chunks)
      case Failed(_) => NoResult
  }

  /** A run that streams no completed chunk gives `{}`; otherwise the result carries the
      analysis of a completed chunk after which none is completed. */
  lemma StreamResultSpec(chunks: seq<Chunk>)
    ensures StreamResult(chunks) == NoResult <== forall i | 0 <= i < |chunks| :: !Completed(chunks[i])
    ensures StreamResult(chunks).nutritionAnalysis.Some? ==> exists i | 0 <= i < |chunks| ::
      Completed(chunks[i]) && chunks[i].data.value.nutritionAnalysis == StreamResult(chunks).nutritionAnalysis
  {
    LastCompletedSpec(chunks);
  }

  /** When the enhanced run streams, the original graph is never consulted: two services that
      agree on that run give the same result, even when it has no completed chunk. */
  lemma NoFallbackAfterStream(a: AgentService, b: AgentService, imageData: string, userId: int, prefs: Option<Preferences>)
    requires a(EnhancedGraph, AgentInput(imageData, Some(userId), prefs)) == b(EnhancedGraph, AgentInput(imageData, Some(userId), prefs))
    requires a(EnhancedGraph, AgentInput(imageData, Some(userId), prefs)).Streamed?
    ensures NutritionCall(a, imageData, userId, prefs) == NutritionCall(b, imageData, userId, prefs)
  {
  }

  /** When both runs raise, the result is `{}`. */
  lemma BothRunsFail(a: AgentService, imageData: string, userId: int, prefs: Option<Preferences>)
    requires a(EnhancedGraph, AgentInput(imageData, Some(userId), prefs)).Failed?
    requires a(OriginalGraph, AgentInput(imageData, None, prefs)).Failed?
    ensures NutritionCall(a, imageData, userId, prefs) == NoResult
  {
  }

  // ---------------- Memory updates after an analysis ----------------

  /** The parameters of `on_food_record_created`; none has a default. */
  const FoodEventParameters: seq<string> := ["user_id", "food_record_id", "nutrition_data", "db"]

  /** The keywords `_trigger_memory_updates` passes to it. */
  const FoodEventKeywords: seq<string> := ["user_id", "nutrition_data"]

  /** The call lacks `food_record_id` and `db`, so it raises `TypeError` before the handler
      starts. */
  lemma FoodEventCallNeverBinds()
    ensures !MemoryEvents.BindsTo(FoodEventParameters, FoodEventParameters, FoodEventKeywords)
  {
    assert "food_record_id" in FoodEventParameters;
    assert "food_record_id" !in FoodEventKeywords;
  }

  /** `_trigger_memory_updates`, reading the analysis as `lookup` says: the exception it catches
      and logs, if any. Nothing is called without an analysis. With one, building the
      `nutrition_data` argument reads `.food_items`, which raises `AttributeError` on the dict;
      read by key, the argument builds and the handler call raises `TypeError`, as
      `FoodEventCallNeverBinds` shows. */
  function TriggerMemoryUpdates(lookup: Lookup, nutrition: NutritionResult): (error: Option<string>)
    ensures error.Some? <==> nutrition.nutritionAnalysis.Some?
    ensures nutrition.nutritionAnalysis.Some? && lookup == ByAttribute ==> error == Some("AttributeError")
    ensures nutrition.nutritionAnalysis.Some? && lookup == ByKey ==> error == Some("TypeError")
  {
    if nutrition.nutritionAnalysis.None? then None
    else if lookup == ByAttribute then Some("AttributeError")
    else Some("TypeError")
  }

  // ---------------- The orchestrated flows ----------------

  /** The merged result of `analyze_food_with_goals`. */
  datatype AnalysisResult = AnalysisResult(
    nutritionAnalysis: Option<NutritionAnalysis>, nutritionAdvice: Option<string>, adviceDependencies: Option<seq<string>>,
    goalContext: Option<GoalContext>, analysisStatus: string, error: Option<string>)

  /** `_load_user_memory`: the shared workspace, `None` where it is missing or unreadable. */
  function LoadUserMemory(store: MemoryStore.MemoryManager): (r: Option<string>)
    reads store
    ensures r.Some? ==> MemoryStore.Shared in store.files && r.value == store.files[MemoryStore.Shared]
    ensures MemoryStore.Shared !in store.files ==> r.None?
  {
    MemoryStore.ReadIn(store.files, store.unreadable, MemoryStore.Shared)
  }

  /** `analyze_food_with_goals` with the memory that was read, the goal agent's query outcome
      and the agent service as inputs. */
  function AnalysisOf(lookup: Lookup, memory: Option<string>, rows: Result<SyncService.UserRows, string>, today: Date,
                      agents: AgentService, imageData: string, userId: int): (r: AnalysisResult)
    ensures r.analysisStatus == (if r.nutritionAnalysis.Some? then "completed" else "failed")
    ensures r.goalContext.Some? ==> lookup == ByKey && r.nutritionAnalysis.Some? && r.nutritionAnalysis.value.totalCalories.Some?
    ensures r.error.None?
  {
    var goal := CallGoalAgent(rows, today);
    var prefs := PreferencesOf(AsWritten, memory);
    var n := NutritionCall(agents, imageData, userId, prefs);
    var context := if n.nutritionAnalysis.Some? then CalculateGoalImpact(lookup, n.nutritionAnalysis.value, goal) else None;
    AnalysisResult(n.nutritionAnalysis, n.nutritionAdvice, n.adviceDependencies, context,
      if n.nutritionAnalysis.Some? then "completed" else "failed", None)
  }

  /** Missing memory and an empty workspace are the same to the flow: the agent gets no
      preferences either way. */
  lemma MissingMemoryIsEmpty(lookup: Lookup, rows: Result<SyncService.UserRows, string>, today: Date, agents: AgentService, imageData: string, userId: int)
    ensures AnalysisOf(lookup, None, rows, today, agents, imageData, userId) == AnalysisOf(lookup, Some(""), rows, today, agents, imageData, userId)
  {
  }

  /** As written, the streamed analysis never gets a goal context, whatever the goal branch
      returns. */
  lemma StreamedAnalysisGetsNoGoalContext(memory: Option<string>, rows: Result<SyncService.UserRows, string>, today: Date,
                                          agents: AgentService, imageData: string, userId: int)
    ensures AnalysisOf(ByAttribute, memory, rows, today, agents, imageData, userId).goalContext.None?
  {
  }

  /** Read by key, a failed goal branch gives the default payload, and the request goes on: the
      meal is measured against the 2000 kcal default. */
  lemma FailedGoalUsesDefault(memory: Option<string>, error: string, today: Date, agents: AgentService, imageData: string, userId: int)
    ensures var r := AnalysisOf(ByKey, memory, Raise(error), today, agents, imageData, userId);
      r.nutritionAnalysis.Some? && r.nutritionAnalysis.value.totalCalories.Some? ==>
        r.goalContext.Some? && (r.goalContext.value.fitsBudget <==> r.nutritionAnalysis.value.totalCalories.value <= 2000.0)
  {
    var r := AnalysisOf(ByKey, memory, Raise(error), today, agents, imageData, userId);
    if r.nutritionAnalysis.Some? && r.nutritionAnalysis.value.totalCalories.Some? {
      DefaultBudgetFits(r.nutritionAnalysis.value);
    }
  }

  /** The `get_daily_status` dict: `success` is always `True`, because every step below it
      catches its own exceptions. */
  datatype DailyStatus = DailyStatus(
    success: bool, dailyTargets: map<string, real>, todayConsumed: map<string, real>, remainingBudget: map<string, real>,
    suggestions: seq<string>, warnings: seq<string>, bmr: real, tdee: real)

  function DailyStatusOf(g: GoalData): DailyStatus {
    DailyStatus(true, g.macroTargets, g.todayConsumed, g.remainingBudget, g.suggestions, g.warnings, g.bmr, g.tdee)
  }

  /** A client of the agent service. */
  datatype Client = Client(url: string)

  /** `AgentOrchestrator`, whose client is created on first use. */
  class AgentOrchestrator {
    const serviceUrl: string
    var client: Option<Client>

    constructor (serviceUrl: string)
      ensures this.serviceUrl == serviceUrl && client.None?
    {
      this.serviceUrl := serviceUrl;
      client := None;
    }

    /** `_get_client`: the existing client, or a new one for the service URL. */
    method GetClient() returns (c: Client)
      modifies this
      ensures client == Some(c)
      ensures old(client).Some? ==> c == old(client).value
      ensures old(client).None? ==> c == Client(serviceUrl)
    {
      if client.None? {
        client := Some(Client(serviceUrl));
      }
      c := client.value;
    }

    /** One run of `graph` through the client. */
    method Run(agents: AgentService, graph: string, input: AgentInput) returns (r: Result<NutritionResult, string>)
      modifies this
      ensures client.Some? && (old(client).Some? ==> client == old(client))
      ensures r == match agents(graph, input) case Streamed(chunks) => Ok(StreamResult(chunks)) case Failed(e) => Raise(e)
    {
      var _ := GetClient();
      match agents(graph, input) {
        case Failed(e) => r := Raise(e);
        case Streamed(chunks) =>
          var result := LastCompleted(chunks);
          r := Ok(match result case None => NoResult case Some(d) => NutritionResult(d.nutritionAnalysis, d.nutritionAdvice, d.adviceDependencies));
      }
    }

    /** `_call_nutrition_agent`, falling back to `_call_original_nutrition_agent`. */
    method CallNutritionAgent(agents: AgentService, imageData: string, userId: int, prefs: Option<Preferences>)
      returns (r: NutritionResult)
      modifies this
      ensures r == NutritionCall(agents, imageData, userId, prefs)
      ensures client.Some? && (old(client).Some? ==> client == old(client))
    {
      var enhanced := Run(agents, EnhancedGraph, AgentInput(imageData, Some(userId), prefs));
      if enhanced.Ok? {
        return enhanced.value;
      }
      var original := Run(agents, OriginalGraph, AgentInput(imageData, None, prefs));
      r := if original.Ok? then original.value else NoResult;
    }

    /** `analyze_food_with_goals`: memory and goal status, then the analysis, its impact on the
      goal, and the memory update, which raises and changes nothing. */
    method AnalyzeFoodWithGoals(store: MemoryStore.MemoryManager, rows: Result<SyncService.UserRows, string>, today: Date,
                                agents: AgentService, imageData: string, userId: int)
      returns (r: AnalysisResult)
      modifies this
      ensures r == AnalysisOf(ByAttribute, LoadUserMemory(store), rows, today, agents, imageData, userId)
      ensures r.goalContext.None?
      ensures client.Some? && (old(client).Some? ==> client == old(client))
    {
      var memory := LoadUserMemory(store);
      var goal := CallGoalAgent(rows, today);
      var prefs := ExtractPreferences(memory);
      var n := CallNutritionAgent(agents, imageData, userId, prefs);
      var context := None;
      if n.nutritionAnalysis.Some? {
        context := CalculateGoalImpact(ByAttribute, n.nutritionAnalysis.value, goal);
      }
      r := AnalysisResult(n.nutritionAnalysis, n.nutritionAdvice, n.adviceDependencies, context,
        if n.nutritionAnalysis.Some? then "completed" else "failed", None);
      var _ := TriggerMemoryUpdates(ByAttribute, n);
    }

    /** `_ensure_user_memory`: the shared workspace is synced only when it does not exist. */
    method EnsureUserMemory(svc: SyncService.SyncService, store: MemoryStore.MemoryManager, c: Collaborators,
                            userId: int, now: DateTime, today: Date)
      requires store.Valid() && store.userId == userId
      modifies store
      ensures store.Valid() && store.writable == old(store.writable) && store.snapshots == old(store.snapshots)
      ensures MemoryStore.Shared in old(store.files) ==> store.files == old(store.files)
      ensures SyncService.SameExcept(old(store.files), store.files, {MemoryStore.Shared})
      ensures MemoryStore.Shared !in old(store.files) ==>
        (MemoryStore.Shared in store.files <==> SyncService.Succeeds(svc.db, MemoryStore.Shared, userId, old(store.writable), now, today))
    {
      var present := store.Exists("shared");
      if present.Ok? && !present.value {
        var _ := SyncService.SyncShared(svc, store, c, userId, now, today);
      }
    }

    /** `get_daily_status`: the shared workspace is ensured, then the goal agent is asked. */
    method GetDailyStatus(svc: SyncService.SyncService, store: MemoryStore.MemoryManager, c: Collaborators,
                          rows: Result<SyncService.UserRows, string>, userId: int, now: DateTime, today: Date)
      returns (r: DailyStatus)
      requires store.Valid() && store.userId == userId
      modifies store
      ensures r == DailyStatusOf(CallGoalAgent(rows, today))
      ensures store.Valid() && SyncService.SameExcept(old(store.files), store.files, {MemoryStore.Shared})
    {
      EnsureUserMemory(svc, store, c, userId, now, today);
      r := DailyStatusOf(CallGoalAgent(rows, today));
    }
  }

  /** The daily status always succeeds, and its consumption and budget add up to the targets. */
  lemma DailyStatusAddsUp(rows: Result<SyncService.UserRows, string>, today: Date)
    ensures var r := DailyStatusOf(CallGoalAgent(rows, today));
      && r.success
      && (forall k | k in MacroKeys :: k in r.dailyTargets && k in r.todayConsumed && k in r.remainingBudget
            && r.todayConsumed[k] + r.remainingBudget[k] == r.dailyTargets[k])
  {
    assert BudgetAddsUp(CallGoalAgent(rows, today));
  }

  /** `chat_with_memory_context`: the shared workspace, and whether there is one. */
  function ChatMemoryContext(store: MemoryStore.MemoryManager): (r: (Option<string>, bool))
    reads store
    ensures r.1 <==> r.0.Some?
    ensures r.0 == LoadUserMemory(store)
  {
    var m := LoadUserMemory(store);
    (m, m.Some?)
  }

  /** The module-level `_orchestrator` singleton. */
  class OrchestratorHost {
    const serviceUrl: string
    var instance: Option<AgentOrchestrator>

    constructor (serviceUrl: string)
      ensures this.serviceUrl == serviceUrl && instance.None?
    {
      this.serviceUrl := serviceUrl;
      instance := None;
    }

    /** `get_orchestrator`: the instance is created once and then always returned. */
    method GetOrchestrator() returns (o: AgentOrchestrator)
      modifies this
      ensures instance == Some(o)
      ensures old(instance).Some? ==> o == old(instance).value
      ensures old(instance).None? ==> fresh(o) && o.client.None? && o.serviceUrl == serviceUrl
    {
      if instance.None? {
        var created := new AgentOrchestrator(serviceUrl);
        instance := Some(created);
      }
      o := instance.value;
    }
  }

  /** Two calls of `get_orchestrator` return the same instance. */
  method SameInstance(host: OrchestratorHost) returns (first: AgentOrchestrator, second: AgentOrchestrator)
    modifies host
    ensures first == second
  {
    first := host.GetOrchestrator();
    second := host.GetOrchestrator();
  }
}
