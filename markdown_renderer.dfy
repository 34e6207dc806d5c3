/** The renderers that turn workspace records into Markdown. Each renderer collects lines
    and joins them with "\n"; the lines are modelled as a sequence built block by block, one
    function per heading or sub-heading, and a loop over a list becomes `Each`, the
    concatenation of the lines of each item in order. Floats are shown with the `showReal`
    collaborator and the frontmatter with `yamlDump`. */
module MarkdownRenderer {
  import opened Wrappers
  import opened Text
  import opened Dates
  import opened Foreign
  import opened Schemas
  import opened MarkdownDoc
  import MemoryStore
  import NutritionCalc

  /** One appended line, by the kind of Markdown it is. */
  datatype Line =
    | Heading(title: string)   // `## title`
    | Sub(title: string)       // `### title`
    | Item(text: string)       // `- text`
    | Plain(text: string)      // any other line, verbatim

  type Lines = seq<Line>

  /** The text of a line as the renderer appends it. */
  function LineText(l: Line): string {
    match l
    case Heading(t) => "## " + t
    case Sub(t) => "### " + t
    case Item(t) => "- " + t
    case Plain(t) => t
  }

  /** The texts of the lines, in order. */
  function Texts(lines: Lines): (r: seq<string>)
    ensures |r| == |lines|
  {
    if lines == [] then [] else Texts(lines[..|lines| - 1]) + [LineText(lines[|lines| - 1])]
  }

  /** `"\n".join(lines)` */
  function Rendered(lines: Lines): string {
    Join(Texts(lines), "\n")
  }

  /** Of the appended texts, exactly the `Heading` ones start a `## ` section: a sub-heading
      starts with `###`, an item with `-`, and a plain line is taken as written. A text that
      itself holds a line break is one appended text here, whatever lines it adds to the
      joined output. */
  lemma {:induction false} HeaderLines(lines: Lines)
    requires forall k :: 0 <= k < |lines| && lines[k].Plain? ==> !IsHeader(lines[k].text)
    ensures forall k :: 0 <= k < |lines| ==> (IsHeader(Texts(lines)[k]) <==> lines[k].Heading?)
    decreases |lines|
  {
    if lines != [] {
      var init := lines[..|lines| - 1];
      HeaderLines(init);
      var l := lines[|lines| - 1];
      assert Texts(lines)[|lines| - 1] == LineText(l);
      match l {
        case Heading(t) =>
          assert ("## " + t)[..3] == "## ";
        case Sub(t) =>
          assert ("### " + t)[2] == '#';
        case Item(t) =>
          assert ("- " + t)[0] == '-';
        case Plain(t) =>
      }
      forall k | 0 <= k < |init|
        ensures Texts(lines)[k] == Texts(init)[k] && lines[k] == init[k]
      {
      }
    }
  }

  /** No line opens a `## ` section. */
  predicate NoHeadings(lines: Lines) {
    forall l | l in lines :: !l.Heading?
  }

  /** No plain line starts with a line break. */
  predicate Flush(lines: Lines) {
    forall l | l in lines && l.Plain? :: l.text == [] || l.text[0] != '\n'
  }

  /** The section titles, in order. */
  function Headings(lines: Lines): (r: seq<string>)
    ensures |r| <= |lines|
  {
    if lines == [] then []
    else Headings(lines[..|lines| - 1]) + (if lines[|lines| - 1].Heading? then [lines[|lines| - 1].title] else [])
  }

  lemma {:induction false} HeadingsAppend(a: Lines, b: Lines)
    ensures Headings(a + b) == Headings(a) + Headings(b)
    decreases |b|
  {
    if b == [] {
      assert a + b == a;
    } else {
      var ab := a + b;
      assert ab[..|ab| - 1] == a + b[..|b| - 1];
      HeadingsAppend(a, b[..|b| - 1]);
    }
  }

  lemma {:induction false} HeadingsNone(lines: Lines)
    requires NoHeadings(lines)
    ensures Headings(lines) == []
    decreases |lines|
  {
    if lines != [] {
      assert lines[..|lines| - 1] <= lines;
      HeadingsNone(lines[..|lines| - 1]);
    }
  }

  /** One item per text, in order. */
  function Items(texts: seq<string>): (r: Lines)
    ensures |r| == |texts| && NoHeadings(r) && Flush(r)
  {
    if texts == [] then [] else Items(texts[..|texts| - 1]) + [Item(texts[|texts| - 1])]
  }

  /** The lines of every entry of a list, in order: the body of a
      `for entry in entries: lines.append(...)` loop. */
  function Each<T>(items: seq<T>, f: T -> Lines): Lines {
    if items == [] then []
    else Each(items[..|items| - 1], f) + f(items[|items| - 1])
  }

  lemma {:induction false} EachNoHeadings<T>(items: seq<T>, f: T -> Lines)
    requires forall k :: 0 <= k < |items| ==> NoHeadings(f(items[k]))
    ensures NoHeadings(Each(items, f))
    decreases |items|
  {
    if items != [] {
      EachNoHeadings(items[..|items| - 1], f);
    }
  }

  lemma {:induction false} EachFlush<T>(items: seq<T>, f: T -> Lines)
    requires forall k :: 0 <= k < |items| ==> Flush(f(items[k]))
    ensures Flush(Each(items, f))
    decreases |items|
  {
    if items != [] {
      EachFlush(items[..|items| - 1], f);
    }
  }

  /** Entries that each give between `lo` and `hi` lines give between `lo` and `hi` lines
      apiece. */
  lemma {:induction false} EachLength<T>(items: seq<T>, f: T -> Lines, lo: nat, hi: nat)
    requires forall k :: 0 <= k < |items| ==> lo <= |f(items[k])| <= hi
    ensures lo * |items| <= |Each(items, f)| <= hi * |items|
    decreases |items|
  {
    if items != [] {
      var init := items[..|items| - 1];
      EachLength(init, f, lo, hi);
      assert |Each(items, f)| == |Each(init, f)| + |f(items[|items| - 1])|;
      assert lo * |items| == lo * |init| + lo && hi * |items| == hi * |init| + hi;
    }
  }

  /** The first `n` entries: `entries[:n]`. */
  function First<T>(items: seq<T>, n: nat): (r: seq<T>)
    ensures |r| == if |items| < n then |items| else n
    ensures r == items[..|r|]
  {
    if |items| <= n then items else items[..n]
  }

  // ---------------- Documents ----------------

  /** A `## ` section: its title line, then its body. */
  datatype Section = Section(title: string, body: Lines)

  /** The lines of the sections, in order. */
  function Flatten(sections: seq<Section>): Lines {
    if sections == [] then []
    else
      var last := sections[|sections| - 1];
      Flatten(sections[..|sections| - 1]) + [Heading(last.title)] + last.body
  }

  /** The section titles of a list of sections. */
  function Titles(sections: seq<Section>): (r: seq<string>)
    ensures |r| == |sections|
  {
    if sections == [] then [] else Titles(sections[..|sections| - 1]) + [sections[|sections| - 1].title]
  }

  /** No section body opens a section of its own. */
  predicate BodiesPlain(sections: seq<Section>) {
    forall s | s in sections :: NoHeadings(s.body)
  }

  /** A document: lines before the first section, then the sections. */
  function Document(preamble: Lines, sections: seq<Section>): Lines {
    preamble + Flatten(sections)
  }

  /** The sections of a document are exactly its `## ` lines. */
  lemma {:induction false} SectionHeadings(preamble: Lines, sections: seq<Section>)
    requires NoHeadings(preamble) && BodiesPlain(sections)
    ensures Headings(Document(preamble, sections)) == Titles(sections)
    decreases |sections|
  {
    HeadingsNone(preamble);
    HeadingsAppend(preamble, Flatten(sections));
    FlattenHeadings(sections);
  }

  lemma {:induction false} FlattenHeadings(sections: seq<Section>)
    requires BodiesPlain(sections)
    ensures Headings(Flatten(sections)) == Titles(sections)
    decreases |sections|
  {
    if sections != [] {
      var init := sections[..|sections| - 1];
      var last := sections[|sections| - 1];
      assert last in sections;
      FlattenHeadings(init);
      HeadingsAppend(Flatten(init) + [Heading(last.title)], last.body);
      HeadingsAppend(Flatten(init), [Heading(last.title)]);
      HeadingsNone(last.body);
      assert [Heading(last.title)][..0] == [];
    }
  }

  /** A line of the sections is a title line or a line of some body. */
  lemma {:induction false} FlattenMembers(sections: seq<Section>, l: Line)
    requires !l.Heading?
    ensures l in Flatten(sections) <==> exists s | s in sections :: l in s.body
    decreases |sections|
  {
    if sections != [] {
      var init := sections[..|sections| - 1];
      var last := sections[|sections| - 1];
      FlattenMembers(init, l);
      assert forall s | s in sections :: s in init || s == last;
      assert last in sections && forall s | s in init :: s in sections;
    }
  }

  lemma TitlesOfFour(s1: Section, s2: Section, s3: Section, s4: Section)
    ensures Titles([s1, s2, s3, s4]) == [s1.title, s2.title, s3.title, s4.title]
  {
    assert [s1][..0] == [];
    assert Titles([s1]) == [s1.title];
    assert [s1, s2][..1] == [s1];
    assert Titles([s1, s2]) == [s1.title, s2.title];
    assert [s1, s2, s3][..2] == [s1, s2];
    assert Titles([s1, s2, s3]) == [s1.title, s2.title, s3.title];
    assert [s1, s2, s3, s4][..3] == [s1, s2, s3];
  }

  /** Four sections after a preamble: their titles are the document's `## ` lines. */
  lemma FourSections(preamble: Lines, s1: Section, s2: Section, s3: Section, s4: Section)
    requires NoHeadings(preamble)
    requires NoHeadings(s1.body) && NoHeadings(s2.body) && NoHeadings(s3.body) && NoHeadings(s4.body)
    ensures Headings(Document(preamble, [s1, s2, s3, s4])) == [s1.title, s2.title, s3.title, s4.title]
  {
    var ss := [s1, s2, s3, s4];
    SectionHeadings(preamble, ss);
    TitlesOfFour(s1, s2, s3, s4);
  }

  /** Five sections after a preamble: their titles are the document's `## ` lines. */
  lemma FiveSections(preamble: Lines, s1: Section, s2: Section, s3: Section, s4: Section, s5: Section)
    requires NoHeadings(preamble)
    requires NoHeadings(s1.body) && NoHeadings(s2.body) && NoHeadings(s3.body) && NoHeadings(s4.body)
    requires NoHeadings(s5.body)
    ensures Headings(Document(preamble, [s1, s2, s3, s4, s5])) == [s1.title, s2.title, s3.title, s4.title, s5.title]
  {
    var ss := [s1, s2, s3, s4, s5];
    SectionHeadings(preamble, ss);
    TitlesOfFour(s1, s2, s3, s4);
    assert ss[..4] == [s1, s2, s3, s4];
  }

  // ---------------- Shared formatting ----------------

  /** `_format_date` */
  function FormatDate(d: Option<Date>): (r: string)
    ensures d.None? ==> r == "未设定"
    ensures d.Some? ==> r == IsoDate(d.value)
  {
    match d
    case None => "未设定"
    case Some(v) => IsoDate(v)
  }

  /** `_format_datetime` */
  function FormatDateTime(dt: Option<DateTime>): (r: string)
    ensures dt.None? ==> r == "未知"
    ensures dt.Some? ==> r == MinuteStamp(dt.value)
  {
    match dt
    case None => "未知"
    case Some(v) => MinuteStamp(v)
  }

  /** `_render_frontmatter`: the dumped mapping between two `---` lines, then a blank line. */
  function FrontmatterLine(c: Collaborators, data: Frontmatter): (r: Line)
    ensures r.Plain? && "---\n" <= r.text
  {
    var t := "---\n" + c.yamlDump(data) + "---\n\n";
    assert t[..4] == "---\n";
    Plain(t)
  }

  /** The frontmatter of the goal, nutrition and chat workspaces. */
  function StampFrontmatter(userId: int, lastUpdated: DateTime): (r: Frontmatter)
    ensures r.Keys == {"user_id", "last_updated"}
    ensures r["user_id"] == YInt(userId) && r["last_updated"] == YStr(IsoDateTime(lastUpdated))
  {
    map["user_id" := YInt(userId), "last_updated" := YStr(IsoDateTime(lastUpdated))]
  }

  /** `d.get(key, default)` */
  function Get(d: Dict<string>, key: string, default: string): string {
    if key in d.values then d.values[key] else default
  }

  /** `", ".join(items)` */
  function Commas(items: seq<string>): string {
    Join(items, ", ")
  }

  /** The frontmatter line, then the `# title` line with a blank line after it. */
  function Preamble(c: Collaborators, data: Frontmatter, title: string): (r: Lines)
    ensures NoHeadings(r) && Flush(r)
  {
    var t := "# " + title + "\n";
    assert t[0] == '#';
    [FrontmatterLine(c, data), Plain(t)]
  }

  // ---------------- render_shared_memory ----------------

  function SharedFrontmatter(data: SharedMemoryData): (r: Frontmatter)
    ensures r.Keys == {"user_id", "last_updated", "schema_version"}
    ensures r["user_id"] == YInt(data.userId) && r["last_updated"] == YStr(IsoDateTime(data.lastUpdated))
    ensures r["schema_version"] == YStr(data.schemaVersion)
  {
    map["user_id" := YInt(data.userId), "last_updated" := YStr(IsoDateTime(data.lastUpdated)),
        "schema_version" := YStr(data.schemaVersion)]
  }

  /** `gender_map.get(gender, "未知")` */
  function GenderName(gender: int): string {
    if gender == 1 then "男" else if gender == 2 then "女" else if gender == 3 then "其他" else "未知"
  }

  /** `activity_map` (every member has an entry, so the default never shows). */
  function ActivityName(a: ActivityLevel): string {
    match a
    case Sedentary => "久坐"
    case Light => "轻度活动"
    case ModerateActivity => "中度活动"
    case Active => "重度活动"
    case VeryActive => "超重度活动"
  }

  /** `severity_map` (every member has an entry). */
  function SeverityName(s: SeverityLevel): string {
    match s
    case Mild => "轻度"
    case Moderate => "中度"
    case Severe => "重度"
  }

  /** 基础信息 */
  function BasicInfoBody(c: Collaborators, data: SharedMemoryData): (r: Lines)
    ensures NoHeadings(r)
  {
    Items(["性别: " + GenderName(data.gender) + " | 年龄: " + IntToString(data.age) + " | 身高: "
             + c.showReal(data.height) + "cm | 体重: " + c.showReal(data.weight) + "kg",
           "活动水平: " + ActivityName(data.activityLevel) + " (" + IntToString(ActivityValue(data.activityLevel)) + ")\n"])
  }

  function AllergyText(a: AllergyInfo): string {
    a.name + " (严重度: " + IntToString(SeverityValue(a.severity)) + "-" + SeverityName(a.severity) + ")"
  }

  /** The ICD-10 code shows only when it is set and non-empty. */
  function DiseaseText(d: DiseaseInfo): string {
    var icd := if d.icdCode.Some? && d.icdCode.value != "" then " (ICD-10: " + d.icdCode.value + ")" else "";
    d.name + icd + ", " + d.status
  }

  function MedicationText(m: MedicationInfo): string {
    m.name + " " + m.dosage + " (" + m.frequency + ")"
  }

  /** The texts of a list, in order: `[f(x) for x in entries]`. */
  function MapTexts<T>(items: seq<T>, f: T -> string): (r: seq<string>)
    ensures |r| == |items|
  {
    if items == [] then [] else MapTexts(items[..|items| - 1], f) + [f(items[|items| - 1])]
  }

  /** A `### ` sub-section with one item per entry, or the `placeholder` item when there
      are none, then a blank line. */
  function ListSub(title: string, texts: seq<string>, placeholder: string): (r: Lines)
    ensures NoHeadings(r)
    ensures texts == [] ==> r == [Sub(title), Item(placeholder), Plain("")]
    ensures texts != [] ==> |r| == |texts| + 2 && r[1..|r| - 1] == Items(texts)
  {
    var r := [Sub(title)] + Items(if texts == [] then [placeholder] else texts) + [Plain("")];
    assert r[1..|r| - 1] == Items(if texts == [] then [placeholder] else texts);
    r
  }

  /** 健康状况: allergies, diseases and medications, each with a placeholder when empty. */
  function HealthBody(data: SharedMemoryData): (r: Lines)
    ensures NoHeadings(r)
  {
    ListSub("过敏原", MapTexts(data.allergies, AllergyText), "无已知过敏原")
    + ListSub("疾病/医疗状况", MapTexts(data.diseases, DiseaseText), "无已知疾病")
    + ListSub("用药情况", MapTexts(data.medications, MedicationText), "无正在服用的药物")
  }

  /** A `### ` sub-section with one comma-joined item, or `- 暂无记录`. */
  function FoodsSub(title: string, foods: seq<string>): (r: Lines)
    ensures NoHeadings(r)
  {
    [Sub(title)] + Items([if foods == [] then "暂无记录" else Commas(foods)]) + [Plain("")]
  }

  /** 长期偏好 */
  function PreferencesBody(data: SharedMemoryData): (r: Lines)
    ensures NoHeadings(r)
  {
    var prefs := data.foodPreferences;
    FoodsSub("喜欢的食物", prefs.likedFoods) + FoodsSub("不喜欢的食物", prefs.dislikedFoods)
    + ListSub("饮食限制", prefs.dietaryRestrictions, "无特殊饮食限制")
  }

  /** The exercise items: shown only for a set, non-empty routine. */
  function ExerciseTexts(routine: Option<Dict<string>>): seq<string> {
    if routine.Some? && routine.value.keys != [] then
      var d := routine.value;
      ["类型: " + Get(d, "type", "未知"), "频率: " + Get(d, "frequency", "未知"), "时长: " + Get(d, "duration", "未知")]
    else ["暂无运动计划"]
  }

  /** 行为模式 */
  function BehaviorBody(data: SharedMemoryData): (r: Lines)
    ensures NoHeadings(r)
  {
    var p := data.behaviorPatterns;
    var meals := p.mealTimes;
    var sleep := p.sleepSchedule;
    [Sub("用餐时间习惯")]
    + Items(["早餐: " + Get(meals, "breakfast", "未设定") + " | 午餐: " + Get(meals, "lunch", "未设定")
             + " | 晚餐: " + Get(meals, "dinner", "未设定")])
    + [Plain(""), Sub("作息规律")]
    + Items(["入睡: " + Get(sleep, "bedtime", "未设定") + " | 起床: " + Get(sleep, "wake_time", "未设定")])
    + [Plain(""), Sub("运动习惯")] + Items(ExerciseTexts(p.exerciseRoutine))
    + [Plain(""), Sub("消费水平")] + Items([p.budgetLevel])
  }

  function SharedSectionList(c: Collaborators, data: SharedMemoryData): (r: seq<Section>)
    ensures BodiesPlain(r)
  {
    [Section("基础信息", BasicInfoBody(c, data)), Section("健康状况", HealthBody(data)),
     Section("长期偏好", PreferencesBody(data)), Section("行为模式", BehaviorBody(data))]
  }

  /** The lines `render_shared_memory` joins. */
  function SharedMemoryLines(c: Collaborators, data: SharedMemoryData): Lines {
    Document(Preamble(c, SharedFrontmatter(data), "用户长期画像"), SharedSectionList(c, data))
  }

  /** `render_shared_memory` */
  function RenderSharedMemory(c: Collaborators, data: SharedMemoryData): string {
    Rendered(SharedMemoryLines(c, data))
  }

  /** The shared workspace opens with its frontmatter and has exactly the sections 基础信息,
      健康状况, 长期偏好 and 行为模式, in that order. */
  lemma SharedSections(c: Collaborators, data: SharedMemoryData)
    ensures SharedMemoryLines(c, data)[0] == FrontmatterLine(c, SharedFrontmatter(data))
    ensures Headings(SharedMemoryLines(c, data)) == ["基础信息", "健康状况", "长期偏好", "行为模式"]
  {
    FourSections(Preamble(c, SharedFrontmatter(data), "用户长期画像"),
      Section("基础信息", BasicInfoBody(c, data)), Section("健康状况", HealthBody(data)),
      Section("长期偏好", PreferencesBody(data)), Section("行为模式", BehaviorBody(data)));
  }

  // ---------------- render_goal_tracking ----------------

  /** `goal_type_map` (every member has an entry). */
  function GoalTypeLabel(g: GoalType): string {
    match g
    case LoseWeight => "减重"
    case GainWeight => "增重"
    case Maintain => "维持"
    case BuildMuscle => "增肌"
    case LoseFat => "减脂"
  }

  /** The calorie adjustment label: a deficit, a surplus or none. */
  function AdjustmentLabel(c: Collaborators, x: real): string {
    if x < 0.0 then "赤字 " + c.showReal(NutritionCalc.Abs(x))
    else if x > 0.0 then "盈余 " + c.showReal(x)
    else "无调整"
  }

  /** The weight change label: lost, gained or unchanged. */
  function ChangeLabel(c: Collaborators, x: real): string {
    if x < 0.0 then "减重 " + c.showReal(NutritionCalc.Abs(x))
    else if x > 0.0 then "增重 " + c.showReal(x)
    else "无变化"
  }

  /** A deficit and a surplus of the same size show the same magnitude under opposite
      labels, and only zero shows no amount. */
  lemma SignLabels(c: Collaborators, x: real)
    requires x > 0.0
    ensures AdjustmentLabel(c, -x) == "赤字 " + c.showReal(x) && AdjustmentLabel(c, x) == "盈余 " + c.showReal(x)
    ensures ChangeLabel(c, -x) == "减重 " + c.showReal(x) && ChangeLabel(c, x) == "增重 " + c.showReal(x)
    ensures AdjustmentLabel(c, 0.0) == "无调整" && ChangeLabel(c, 0.0) == "无变化"
  {
    assert NutritionCalc.Abs(-x) == x;
  }

  /** The target weight shows only when set and non-zero, the target date only when set. */
  function GoalTexts(c: Collaborators, g: ActiveGoal): seq<string> {
    ["目标ID: " + IntToString(g.goalId),
     "目标类型: " + GoalTypeLabel(g.goalType) + " (" + IntToString(GoalTypeValue(g.goalType)) + ")"]
    + (if g.targetWeight.Some? && g.targetWeight.value != 0.0 then ["目标体重: " + c.showReal(g.targetWeight.value) + " kg"] else [])
    + (if g.targetDate.Some? then ["目标日期: " + FormatDate(g.targetDate)] else [])
    + ["状态: " + g.status]
  }

  /** 当前活跃目标 */
  function ActiveGoalBody(c: Collaborators, goal: Option<ActiveGoal>): (r: Lines)
    ensures NoHeadings(r) && Flush(r)
  {
    Items(if goal.None? then ["暂无活跃目标"] else GoalTexts(c, goal.value)) + [Plain("")]
  }

  function BmrTexts(c: Collaborators, b: Option<BmrTdeeData>): seq<string> {
    if b.None? then ["尚未计算"]
    else
      var v := b.value;
      ["BMR: " + c.showReal(v.bmr) + " kcal (Mifflin-St Jeor)",
       "TDEE: " + c.showReal(v.tdee) + " kcal (活动因子: " + c.showReal(v.activityFactor) + ")",
       "计算日期: " + FormatDate(Some(v.calculatedAt.date))]
  }

  function QuotaTexts(c: Collaborators, t: Option<DailyTargets>): seq<string> {
    if t.None? then ["尚未设定"]
    else
      var v := t.value;
      ["卡路里预算: " + c.showReal(v.calories) + " kcal (" + AdjustmentLabel(c, v.calorieAdjustment) + ")",
       "蛋白质: " + c.showReal(v.protein) + "g",
       "碳水: " + c.showReal(v.carbs) + "g",
       "脂肪: " + c.showReal(v.fat) + "g"]
  }

  /** 计算基准: BMR/TDEE and the daily quota. */
  function BaselineBody(c: Collaborators, data: GoalTrackingData): (r: Lines)
    ensures NoHeadings(r) && Flush(r)
  {
    [Sub("BMR/TDEE")] + Items(BmrTexts(c, data.bmrTdee)) + [Plain(""), Sub("每日营养配额")]
    + Items(QuotaTexts(c, data.dailyTargets)) + [Plain("")]
  }

  function WeightTexts(c: Collaborators, p: Option<WeightProgress>): seq<string> {
    if p.None? then ["暂无体重记录"]
    else
      var w := p.value;
      ["起始体重: " + c.showReal(w.startingWeight) + " kg (" + FormatDate(Some(w.startingDate)) + ")",
       "当前体重: " + c.showReal(w.currentWeight) + " kg (" + FormatDate(Some(w.currentDate)) + ")",
       "已" + ChangeLabel(c, w.weightChange) + " kg"]
      + (if w.targetRemaining.Some? then ["目标剩余: " + c.showReal(w.targetRemaining.value) + " kg"] else [])
      + ["完成进度: " + c.showReal(w.progressPercentage) + "%"]
  }

  /** Today's intake; the per-macro lines need daily targets. */
  function TodayTexts(c: Collaborators, s: TodayStatus, t: Option<DailyTargets>): seq<string> {
    ["已摄入卡路里: " + c.showReal(s.consumedCalories) + " kcal",
     "剩余配额: " + c.showReal(s.remainingCalories) + " kcal"]
    + (if t.None? then []
       else
         ["蛋白质: " + c.showReal(s.consumedProtein) + "g / " + c.showReal(t.value.protein) + "g",
          "碳水: " + c.showReal(s.consumedCarbs) + "g / " + c.showReal(t.value.carbs) + "g",
          "脂肪: " + c.showReal(s.consumedFat) + "g / " + c.showReal(t.value.fat) + "g"])
  }

  /** 进度追踪: weight change and today's intake. */
  function ProgressBody(c: Collaborators, data: GoalTrackingData): (r: Lines)
    ensures NoHeadings(r) && Flush(r)
  {
    [Sub("体重变化")] + Items(WeightTexts(c, data.weightProgress)) + [Plain(""), Sub("今日状态")]
    + Items(TodayTexts(c, data.todayStatus, data.dailyTargets)) + [Plain("")]
  }

  /** `[x] description (date) ✓` for a completed milestone, `[ ] description (进行中)`
      otherwise; the date shows only when the milestone was achieved. */
  function MilestoneText(m: Milestone): string {
    var check := if m.completed then "x" else " ";
    var date := if m.achievedDate.Some? then " (" + FormatDate(m.achievedDate) + ")" else "";
    var status := if m.completed then " ✓" else " (进行中)";
    "[" + check + "] " + m.description + date + status
  }

  /** 里程碑 */
  function MilestoneBody(milestones: seq<Milestone>): (r: Lines)
    ensures NoHeadings(r) && Flush(r)
  {
    Items(if milestones == [] then ["暂无里程碑"] else MapTexts(milestones, MilestoneText)) + [Plain("")]
  }

  function WarningText(w: string): string {
    "⚠️ " + w
  }

  /** The warnings' sub-heading, appended with a blank line before it. */
  const WarningHeader: Line := Plain("\n### 警告")

  /** The 警告 sub-section, present only when there are warnings. */
  function WarningLines(warnings: seq<string>): (r: Lines)
    ensures NoHeadings(r)
    ensures WarningHeader in r <==> warnings != []
  {
    if warnings == [] then [] else [WarningHeader] + Items(MapTexts(warnings, WarningText))
  }

  /** Agent 生成的建议, followed by the warnings. */
  function SuggestionBody(suggestions: seq<string>, warnings: seq<string>): (r: Lines)
    ensures NoHeadings(r)
    ensures WarningHeader in r <==> warnings != []
  {
    var items := Items(if suggestions == [] then ["暂无建议"] else suggestions);
    assert WarningHeader !in items;
    items + WarningLines(warnings)
  }

  function GoalSectionList(c: Collaborators, data: GoalTrackingData): (r: seq<Section>)
    ensures BodiesPlain(r)
  {
    [Section("当前活跃目标", ActiveGoalBody(c, data.activeGoal)),
     Section("计算基准", BaselineBody(c, data)),
     Section("进度追踪", ProgressBody(c, data)),
     Section("里程碑", MilestoneBody(data.milestones)),
     Section("Agent 生成的建议", SuggestionBody(data.suggestions, data.warnings))]
  }

  /** The lines `render_goal_tracking` joins. */
  function GoalTrackingLines(c: Collaborators, data: GoalTrackingData): Lines {
    Document(Preamble(c, StampFrontmatter(data.userId, data.lastUpdated), "目标追踪工作区"),
      GoalSectionList(c, data))
  }

  /** `render_goal_tracking` */
  function RenderGoalTracking(c: Collaborators, data: GoalTrackingData): string {
    Rendered(GoalTrackingLines(c, data))
  }

  /** The goal workspace has exactly the sections 当前活跃目标, 计算基准, 进度追踪, 里程碑 and
      Agent 生成的建议, in that order. */
  lemma GoalSections(c: Collaborators, data: GoalTrackingData)
    ensures Headings(GoalTrackingLines(c, data)) == ["当前活跃目标", "计算基准", "进度追踪", "里程碑", "Agent 生成的建议"]
  {
    FiveSections(Preamble(c, StampFrontmatter(data.userId, data.lastUpdated), "目标追踪工作区"),
      Section("当前活跃目标", ActiveGoalBody(c, data.activeGoal)),
      Section("计算基准", BaselineBody(c, data)),
      Section("进度追踪", ProgressBody(c, data)),
      Section("里程碑", MilestoneBody(data.milestones)),
      Section("Agent 生成的建议", SuggestionBody(data.suggestions, data.warnings)));
  }

  /** The 警告 sub-heading appears in the goal workspace exactly when there are warnings. */
  lemma GoalWarnings(c: Collaborators, data: GoalTrackingData)
    ensures WarningHeader in GoalTrackingLines(c, data) <==> data.warnings != []
  {
    OnlyLastWarns(Preamble(c, StampFrontmatter(data.userId, data.lastUpdated), "目标追踪工作区"),
      Section("当前活跃目标", ActiveGoalBody(c, data.activeGoal)),
      Section("计算基准", BaselineBody(c, data)),
      Section("进度追踪", ProgressBody(c, data)),
      Section("里程碑", MilestoneBody(data.milestones)),
      Section("Agent 生成的建议", SuggestionBody(data.suggestions, data.warnings)));
  }

  /** A line break opens a plain line only in the last of five sections, if anywhere. */
  lemma OnlyLastWarns(preamble: Lines, s1: Section, s2: Section, s3: Section, s4: Section, s5: Section)
    requires Flush(preamble)
    requires Flush(s1.body) && Flush(s2.body) && Flush(s3.body) && Flush(s4.body)
    ensures WarningHeader in Document(preamble, [s1, s2, s3, s4, s5]) <==> WarningHeader in s5.body
  {
    var ss := [s1, s2, s3, s4, s5];
    FlattenMembers(ss, WarningHeader);
    assert WarningHeader.text[0] == '\n';
    assert forall s | s in ss :: s == s5 || Flush(s.body);
    assert s5 in ss;
  }

  // ---------------- render_nutrition_workspace ----------------

  /** 近期饮食摘要 */
  function SummaryBody(c: Collaborators, s: DietSummary): (r: Lines)
    ensures NoHeadings(r)
  {
    [Plain("(近" + IntToString(s.periodDays) + "天)")]
    + Items(["日均卡路里: " + c.showReal(s.avgCalories) + " kcal",
             "日均蛋白质: " + c.showReal(s.avgProtein) + "g",
             "日均碳水: " + c.showReal(s.avgCarbs) + "g",
             "日均脂肪: " + c.showReal(s.avgFat) + "g",
             "餐次规律性: " + s.mealRegularity])
    + [Plain("")]
  }

  /** One row of the frequent-food table. */
  function FoodRow(c: Collaborators, x: FrequentFood): (r: Lines)
    ensures NoHeadings(r) && |r| == 1
  {
    [Plain("| " + x.name + " | " + IntToString(x.frequency) + "次 | " + c.showReal(x.avgCalories) + " kcal | " + x.healthLevel + " |")]
  }

  /** 高频食物: a table with one row per food, or 暂无记录. */
  function FoodBody(c: Collaborators, foods: seq<FrequentFood>): (r: Lines)
    ensures NoHeadings(r)
  {
    var rows := (x: FrequentFood) => FoodRow(c, x);
    EachNoHeadings(foods, rows);
    (if foods == [] then [Plain("暂无记录")]
     else [Plain("| 食物 | 频次 | 平均热量 | 健康等级 |"), Plain("|------|------|----------|----------|")] + Each(foods, rows))
    + [Plain("")]
  }

  /** A trend: its metric as a sub-heading, then this week against last week. */
  function TrendLines(c: Collaborators, x: NutritionTrend): (r: Lines)
    ensures NoHeadings(r) && |r| == 2
  {
    [Sub(x.metric),
     Item("本周: " + c.showReal(x.currentWeek) + "% | 上周: " + c.showReal(x.lastWeek) + "% | 趋势: " + x.trend)]
  }

  /** 营养趋势 */
  function TrendBody(c: Collaborators, trends: seq<NutritionTrend>): (r: Lines)
    ensures NoHeadings(r)
  {
    var f := (x: NutritionTrend) => TrendLines(c, x);
    EachNoHeadings(trends, f);
    (if trends == [] then [Plain("暂无趋势数据")] else Each(trends, f)) + [Plain("")]
  }

  /** An analysis: its date and meal as a sub-heading, then foods, calories and grade. */
  function AnalysisLines(c: Collaborators, x: RecentAnalysis): (r: Lines)
    ensures NoHeadings(r) && |r| == 4
  {
    [Sub(FormatDate(Some(x.date)) + " " + x.mealType),
     Item("食物: " + Commas(x.foods)),
     Item("热量: " + c.showReal(x.calories) + " kcal"),
     Item("健康等级: " + x.healthLevel)]
  }

  /** 近期分析记录: the first five analyses. */
  function AnalysisBody(c: Collaborators, analyses: seq<RecentAnalysis>): (r: Lines)
    ensures NoHeadings(r)
  {
    var f := (x: RecentAnalysis) => AnalysisLines(c, x);
    EachNoHeadings(First(analyses, 5), f);
    if analyses == [] then [Plain("暂无分析记录")] else Each(First(analyses, 5), f)
  }

  function NutritionSectionList(c: Collaborators, data: NutritionWorkspaceData): (r: seq<Section>)
    ensures BodiesPlain(r)
  {
    [Section("近期饮食摘要", SummaryBody(c, data.dietSummary)),
     Section("高频食物 (近30天)", FoodBody(c, data.frequentFoods)),
     Section("营养趋势", TrendBody(c, data.nutritionTrends)),
     Section("近期分析记录", AnalysisBody(c, data.recentAnalyses))]
  }

  /** The lines `render_nutrition_workspace` joins. */
  function NutritionLines(c: Collaborators, data: NutritionWorkspaceData): Lines {
    Document(Preamble(c, StampFrontmatter(data.userId, data.lastUpdated), "营养分析工作区"),
      NutritionSectionList(c, data))
  }

  /** `render_nutrition_workspace` */
  function RenderNutrition(c: Collaborators, data: NutritionWorkspaceData): string {
    Rendered(NutritionLines(c, data))
  }

  /** The nutrition workspace has exactly the sections 近期饮食摘要, 高频食物 (近30天), 营养趋势
      and 近期分析记录, in that order. */
  lemma NutritionSections(c: Collaborators, data: NutritionWorkspaceData)
    ensures Headings(NutritionLines(c, data)) == ["近期饮食摘要", "高频食物 (近30天)", "营养趋势", "近期分析记录"]
  {
    FourSections(Preamble(c, StampFrontmatter(data.userId, data.lastUpdated), "营养分析工作区"),
      Section("近期饮食摘要", SummaryBody(c, data.dietSummary)),
      Section("高频食物 (近30天)", FoodBody(c, data.frequentFoods)),
      Section("营养趋势", TrendBody(c, data.nutritionTrends)),
      Section("近期分析记录", AnalysisBody(c, data.recentAnalyses)));
  }

  /** The food table has a header row, a rule and one row per food; at most five analyses
      are shown, four lines each. */
  lemma NutritionListSizes(c: Collaborators, foods: seq<FrequentFood>, analyses: seq<RecentAnalysis>)
    ensures foods != [] ==> |FoodBody(c, foods)| == 3 + |foods|
    ensures analyses != [] ==> |AnalysisBody(c, analyses)| == 4 * |First(analyses, 5)| <= 20
  {
    EachLength(foods, (x: FrequentFood) => FoodRow(c, x), 1, 1);
    EachLength(First(analyses, 5), (x: RecentAnalysis) => AnalysisLines(c, x), 4, 4);
  }

  // ---------------- render_chat_workspace ----------------

  /** 对话偏好: the topics of interest show only when there are some. */
  function ChatPreferencesBody(p: ConversationPreferences): (r: Lines)
    ensures NoHeadings(r)
  {
    Items([if p.prefersDetailedExplanation then "偏好详细解释" else "偏好简洁回答",
           if p.likesDataDrivenAdvice then "喜欢数据驱动的建议" else "偏好感性建议",
           "回答风格: " + p.responseStyle]
          + (if p.topicsOfInterest != [] then ["感兴趣的话题: " + Commas(p.topicsOfInterest)] else []))
    + [Plain("")]
  }

  /** `f"{i}. {topic.topic} (问过{topic.count}次)"` */
  function TopicLine(i: nat, t: FrequentTopic): Line {
    Plain(NatToString(i) + ". " + t.topic + " (问过" + IntToString(t.count) + "次)")
  }

  /** The topics numbered from 1 in input order (`enumerate(topics, 1)`). */
  function NumberedTopics(topics: seq<FrequentTopic>): (r: Lines)
    ensures |r| == |topics|
    ensures NoHeadings(r)
  {
    if topics == [] then []
    else NumberedTopics(topics[..|topics| - 1]) + [TopicLine(|topics|, topics[|topics| - 1])]
  }

  /** Topic `k` of the list is shown on line `k` with the number `k + 1`. */
  lemma {:induction false} TopicNumbering(topics: seq<FrequentTopic>)
    ensures forall k :: 0 <= k < |topics| ==> NumberedTopics(topics)[k] == TopicLine(k + 1, topics[k])
    decreases |topics|
  {
    if topics != [] {
      var init := topics[..|topics| - 1];
      TopicNumbering(init);
      var front, last := NumberedTopics(init), TopicLine(|topics|, topics[|topics| - 1]);
      assert NumberedTopics(topics) == front + [last];
      forall k | 0 <= k < |topics|
        ensures NumberedTopics(topics)[k] == TopicLine(k + 1, topics[k])
      {
        if k < |init| {
          assert (front + [last])[k] == front[k];
          assert topics[k] == init[k];
        } else {
          assert (front + [last])[k] == last;
        }
      }
    }
  }

  /** 常见问题主题 */
  function TopicBody(topics: seq<FrequentTopic>): (r: Lines)
    ensures NoHeadings(r)
  {
    (if topics == [] then [Plain("暂无记录")] else NumberedTopics(topics)) + [Plain("")]
  }

  /** An interaction: its date as a sub-heading, topic, question and, when there are any,
      its key points. */
  function InteractionLines(i: InteractionSummary): (r: Lines)
    ensures NoHeadings(r) && 3 <= |r| <= 4
    ensures |r| == 4 <==> i.keyPoints != []
  {
    [Sub(FormatDate(Some(i.date)))]
    + Items(["话题: " + i.topic, "用户问: \"" + i.userQuestion + "\""]
            + (if i.keyPoints != [] then ["关注点: " + Commas(i.keyPoints)] else []))
  }

  /** 近期交互摘要: the first five interactions. */
  function InteractionBody(interactions: seq<InteractionSummary>): (r: Lines)
    ensures NoHeadings(r)
  {
    EachNoHeadings(First(interactions, 5), InteractionLines);
    (if interactions == [] then [Plain("暂无交互记录")] else Each(First(interactions, 5), InteractionLines)) + [Plain("")]
  }

  function FeedbackText(f: UserFeedback): string {
    FormatDate(Some(f.date)) + ": " + f.feedback + " (" + f.sentiment + ")"
  }

  /** 用户反馈记录: the first five feedback entries. */
  function FeedbackBody(feedback: seq<UserFeedback>): (r: Lines)
    ensures NoHeadings(r)
  {
    if feedback == [] then [Plain("暂无反馈记录")] else Items(MapTexts(First(feedback, 5), FeedbackText))
  }

  function ChatSectionList(data: ChatWorkspaceData): (r: seq<Section>)
    ensures BodiesPlain(r)
  {
    [Section("对话偏好", ChatPreferencesBody(data.preferences)),
     Section("常见问题主题", TopicBody(data.frequentTopics)),
     Section("近期交互摘要", InteractionBody(data.recentInteractions)),
     Section("用户反馈记录", FeedbackBody(data.userFeedback))]
  }

  /** The lines `render_chat_workspace` joins. */
  function ChatLines(c: Collaborators, data: ChatWorkspaceData): Lines {
    Document(Preamble(c, StampFrontmatter(data.userId, data.lastUpdated), "对话工作区"),
      ChatSectionList(data))
  }

  /** `render_chat_workspace` */
  function RenderChat(c: Collaborators, data: ChatWorkspaceData): string {
    Rendered(ChatLines(c, data))
  }

  /** The chat workspace has exactly the sections 对话偏好, 常见问题主题, 近期交互摘要 and
      用户反馈记录, in that order. */
  lemma ChatSections(c: Collaborators, data: ChatWorkspaceData)
    ensures Headings(ChatLines(c, data)) == ["对话偏好", "常见问题主题", "近期交互摘要", "用户反馈记录"]
  {
    FourSections(Preamble(c, StampFrontmatter(data.userId, data.lastUpdated), "对话工作区"),
      Section("对话偏好", ChatPreferencesBody(data.preferences)),
      Section("常见问题主题", TopicBody(data.frequentTopics)),
      Section("近期交互摘要", InteractionBody(data.recentInteractions)),
      Section("用户反馈记录", FeedbackBody(data.userFeedback)));
  }

  /** At most five interactions (three or four lines each) and five feedback entries (one
      line each) are shown. */
  lemma ChatRecentCapped(interactions: seq<InteractionSummary>, feedback: seq<UserFeedback>)
    ensures interactions != [] ==>
      var m := |First(interactions, 5)|;
      m <= 5 && 1 + 3 * m <= |InteractionBody(interactions)| <= 1 + 4 * m
    ensures feedback != [] ==> |FeedbackBody(feedback)| == |First(feedback, 5)| <= 5
  {
    EachLength(First(interactions, 5), InteractionLines, 3, 4);
  }

  // ---------------- render_workspace ----------------

  /** The record handed to `render_workspace`. */
  datatype WorkspaceData =
    | SharedData(shared: SharedMemoryData)
    | GoalData(goal: GoalTrackingData)
    | NutritionData(nutrition: NutritionWorkspaceData)
    | ChatData(chat: ChatWorkspaceData)

  /** The record is of the kind the workspace renders. */
  predicate Matches(w: MemoryStore.Workspace, data: WorkspaceData) {
    match w
    case Shared => data.SharedData?
    case GoalTracking => data.GoalData?
    case Nutrition => data.NutritionData?
    case Chat => data.ChatData?
  }

  /** `render_workspace`: ValueError for an unknown name; a record of another workspace's
      kind fails on its first missing attribute (AttributeError). */
  function RenderWorkspace(c: Collaborators, workspace: string, data: WorkspaceData): (r: Result<string, string>)
    ensures r == Raise("ValueError") <==> MemoryStore.ParseWorkspace(workspace).None?
    ensures r.Ok? <==> MemoryStore.ParseWorkspace(workspace).Some? && Matches(MemoryStore.ParseWorkspace(workspace).value, data)
    ensures r.Ok? && data.SharedData? ==> r.value == RenderSharedMemory(c, data.shared)
    ensures r.Ok? && data.GoalData? ==> r.value == RenderGoalTracking(c, data.goal)
    ensures r.Ok? && data.NutritionData? ==> r.value == RenderNutrition(c, data.nutrition)
    ensures r.Ok? && data.ChatData? ==> r.value == RenderChat(c, data.chat)
  {
    match MemoryStore.ParseWorkspace(workspace)
    case None => Raise("ValueError")
    case Some(w) =>
      if !Matches(w, data) then Raise("AttributeError")
      else
        match data
        case SharedData(d) => Ok(RenderSharedMemory(c, d))
        case GoalData(d) => Ok(RenderGoalTracking(c, d))
        case NutritionData(d) => Ok(RenderNutrition(c, d))
        case ChatData(d) => Ok(RenderChat(c, d))
  }
}
