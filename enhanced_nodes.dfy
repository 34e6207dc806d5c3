/** The memory-aware nodes of the enhanced nutrition agent: the preferences read back from the
    shared workspace, the state record the nodes update in place, and the analysis record
    appended to the nutrition workspace. */
module EnhancedNodes {
  import opened Wrappers
  import opened Text
  import opened Dates
  import opened Foreign
  import MemoryStore
  import MarkdownDoc
  import MarkdownRenderer

  // ---------------- Preferences read from the shared workspace ----------------

  /** The `current_section` values. */
  datatype Section = Health | AllergyList | DiseaseList | Preferences | Liked | Disliked | RestrictionList

  /** The `prefs` dict of `_extract_preferences_from_memory`. */
  datatype Prefs = Prefs(allergies: seq<string>, diseases: seq<string>, dietaryRestrictions: seq<string>,
                         likedFoods: seq<string>, dislikedFoods: seq<string>)

  const NoPrefs := Prefs([], [], [], [], [])

  /** The section a stripped line leaves current: the first heading text it contains, `None`
      for any other `## ` line, else the section as it was. */
  function NextSection(line: string, current: Option<Section>): Option<Section> {
    if Contains(line, "## 健康状况") then Some(Health)
    else if Contains(line, "### 过敏原") then Some(AllergyList)
    else if Contains(line, "### 疾病") || Contains(line, "医疗状况") then Some(DiseaseList)
    else if Contains(line, "## 长期偏好") then Some(Preferences)
    else if Contains(line, "### 喜欢的食物") then Some(Liked)
    else if Contains(line, "### 不喜欢的食物") then Some(Disliked)
    else if Contains(line, "### 饮食限制") then Some(RestrictionList)
    else if "## " <= line then None
    else current
  }

  /** The items that are passed over: empty, 无, or holding 暂无. */
  predicate Skipped(item: string) {
    item == "" || item == "无" || Contains(item, "暂无")
  }

  /** `item.split('(')[0].strip()` */
  function NameOf(item: string): (r: string)
    ensures '(' !in r
  {
    StripWithin(BeforeParen(item));
    Strip(BeforeParen(item))
  }

  /** The non-empty stripped parts, in order: the foods of a comma-separated list. */
  function FoodsOf(parts: seq<string>): (r: seq<string>)
    ensures forall i :: 0 <= i < |r| ==> r[i] != ""
  {
    if parts == [] then []
    else (if Strip(parts[0]) == "" then [] else [Strip(parts[0])]) + FoodsOf(parts[1..])
  }

  /** `[f.strip() for f in name.split(',') if f.strip()]` */
  function Foods(name: string): seq<string> {
    FoodsOf(Split(name, ','))
  }

  /** What a named item adds to the list of the current section; the 健康状况 and 长期偏好
      sections themselves collect nothing. */
  function Collect(p: Prefs, s: Section, name: string): Prefs {
    match s
    case AllergyList => p.(allergies := p.allergies + [name])
    case DiseaseList => p.(diseases := p.diseases + [name])
    case RestrictionList => p.(dietaryRestrictions := p.dietaryRestrictions + [name])
    case Liked => p.(likedFoods := p.likedFoods + Foods(name))
    case Disliked => p.(dislikedFoods := p.dislikedFoods + Foods(name))
    case Health => p
    case Preferences => p
  }

  /** The parser's state: `current_section` and the lists so far. */
  datatype PrefScan = PrefScan(current: Option<Section>, prefs: Prefs)

  const PrefStart := PrefScan(None, NoPrefs)

  /** One line: stripped, then a heading may change the section, then a `- ` item that is not
      passed over goes to the current section. */
  function PrefStep(s: PrefScan, raw: string): PrefScan {
    var line := Strip(raw);
    var current := NextSection(line, s.current);
    if "- " <= line && current.Some? && !Skipped(Strip(line[2..])) then
      PrefScan(current, Collect(s.prefs, current.value, NameOf(Strip(line[2..]))))
    else PrefScan(current, s.prefs)
  }

  /** The names kept in the allergy, disease and restriction lists have no `(`; the foods are
      non-empty and hold neither `,` nor `(`. */
  predicate WellFormed(p: Prefs) {
    && (forall i :: 0 <= i < |p.allergies| ==> '(' !in p.allergies[i])
    && (forall i :: 0 <= i < |p.diseases| ==> '(' !in p.diseases[i])
    && (forall i :: 0 <= i < |p.dietaryRestrictions| ==> '(' !in p.dietaryRestrictions[i])
    && (forall i :: 0 <= i < |p.likedFoods| ==> p.likedFoods[i] != "" && ',' !in p.likedFoods[i] && '(' !in p.likedFoods[i])
    && (forall i :: 0 <= i < |p.dislikedFoods| ==> p.dislikedFoods[i] != "" && ',' !in p.dislikedFoods[i] && '(' !in p.dislikedFoods[i])
  }

  /** The state after reading `lines` from state `s`. */
  function PrefFrom(s: PrefScan, lines: seq<string>): PrefScan {
    if lines == [] then s
    else PrefStep(PrefFrom(s, lines[..|lines| - 1]), lines[|lines| - 1])
  }

  /** `_extract_preferences_from_memory`: whatever the memory holds, no item carries a `(`
      and every food is non-empty and free of `,`. */
  function PreferencesFromMemory(memory: string): (r: Prefs)
    ensures WellFormed(r)
  {
    ReadKeepsWellFormed(PrefStart, Split(memory, '\n'));
    PrefFrom(PrefStart, Split(memory, '\n')).prefs
  }

  /** Reading `a` then one more part. */
  lemma {:induction false} FoodsOfSnoc(a: seq<string>, x: string)
    ensures FoodsOf(a + [x]) == FoodsOf(a) + (if Strip(x) == "" then [] else [Strip(x)])
    decreases |a|
  {
    if a == [] {
      assert [x][1..] == [];
    } else {
      assert (a + [x])[1..] == a[1..] + [x];
      FoodsOfSnoc(a[1..], x);
    }
  }

  /** The loop over `name.split(',')` that appends each non-empty stripped food. */
  method AppendFoods(foods: seq<string>, name: string) returns (r: seq<string>)
    ensures r == foods + Foods(name)
  {
    r := foods;
    var parts := Split(name, ',');
    for j := 0 to |parts|
      invariant r == foods + FoodsOf(parts[..j])
    {
      var food := Strip(parts[j]);
      FoodsOfSnoc(parts[..j], parts[j]);
      assert parts[..j + 1] == parts[..j] + [parts[j]];
      if food != "" {
        r := r + [food];
      }
    }
    assert parts[..|parts|] == parts;
  }

  /** `_extract_preferences_from_memory`, line by line. */
  method ExtractPreferencesFromMemory(memoryContent: string) returns (prefs: Prefs)
    ensures prefs == PreferencesFromMemory(memoryContent)
  {
    prefs := NoPrefs;
    var current: Option<Section> := None;
    var lines := Split(memoryContent, '\n');
    for i := 0 to |lines|
      invariant PrefScan(current, prefs) == PrefFrom(PrefStart, lines[..i])
    {
      assert lines[..i + 1][..i] == lines[..i];
      current, prefs := ReadPrefLine(current, prefs, lines[i]);
    }
    assert lines[..|lines|] == lines;
  }

  /** One pass of the line loop of `_extract_preferences_from_memory`. */
  method ReadPrefLine(current: Option<Section>, prefs: Prefs, raw: string) returns (next: Option<Section>, updated: Prefs)
    ensures PrefScan(next, updated) == PrefStep(PrefScan(current, prefs), raw)
  {
    var line := Strip(raw);
    next, updated := NextSection(line, current), prefs;
    if "- " <= line && next.Some? {
      var item := Strip(line[2..]);
      if item == "" || item == "无" || Contains(item, "暂无") {
        return;
      }
      var name := NameOf(item);
      match next.value {
        case AllergyList => updated := updated.(allergies := updated.allergies + [name]);
        case DiseaseList => updated := updated.(diseases := updated.diseases + [name]);
        case RestrictionList => updated := updated.(dietaryRestrictions := updated.dietaryRestrictions + [name]);
        case Liked =>
          var foods := AppendFoods(updated.likedFoods, name);
          updated := updated.(likedFoods := foods);
        case Disliked =>
          var foods := AppendFoods(updated.dislikedFoods, name);
          updated := updated.(dislikedFoods := foods);
        case Health =>
        case Preferences =>
      }
    }
  }

  // ---------------- What the parser keeps ----------------

  /** The foods hold no character that the parts lack. */
  lemma {:induction false} FoodsOfOmits(parts: seq<string>, ch: char)
    requires forall i :: 0 <= i < |parts| ==> ch !in parts[i]
    ensures forall i :: 0 <= i < |FoodsOf(parts)| ==> ch !in FoodsOf(parts)[i]
    decreases |parts|
  {
    if parts != [] {
      StripOmits(parts[0], ch);
      FoodsOfOmits(parts[1..], ch);
    }
  }

  /** The foods of a name hold no `,`, and no `(` when the name has none. */
  lemma FoodsPlain(name: string)
    requires '(' !in name
    ensures forall i :: 0 <= i < |Foods(name)| ==> ',' !in Foods(name)[i] && '(' !in Foods(name)[i]
  {
    FoodsOfOmits(Split(name, ','), ',');
    SplitOmits(name, ',', '(');
    FoodsOfOmits(Split(name, ','), '(');
  }

  /** One line keeps the lists well formed. */
  lemma StepKeepsWellFormed(s: PrefScan, raw: string)
    requires WellFormed(s.prefs)
    ensures WellFormed(PrefStep(s, raw).prefs)
  {
    var line := Strip(raw);
    var current := NextSection(line, s.current);
    if "- " <= line && current.Some? && !Skipped(Strip(line[2..])) {
      var name := NameOf(Strip(line[2..]));
      FoodsPlain(name);
      var p := s.prefs;
      match current.value
      case AllergyList => assert Collect(p, AllergyList, name).allergies == p.allergies + [name];
      case DiseaseList => assert Collect(p, DiseaseList, name).diseases == p.diseases + [name];
      case RestrictionList =>
        assert Collect(p, RestrictionList, name).dietaryRestrictions == p.dietaryRestrictions + [name];
      case Liked => assert Collect(p, Liked, name).likedFoods == p.likedFoods + Foods(name);
      case Disliked => assert Collect(p, Disliked, name).dislikedFoods == p.dislikedFoods + Foods(name);
      case Health =>
      case Preferences =>
    }
  }

  /** Reading keeps the lists well formed, whatever the lines. */
  lemma {:induction false} ReadKeepsWellFormed(s: PrefScan, lines: seq<string>)
    requires WellFormed(s.prefs)
    ensures WellFormed(PrefFrom(s, lines).prefs)
    decreases |lines|
  {
    if lines != [] {
      ReadKeepsWellFormed(s, lines[..|lines| - 1]);
      StepKeepsWellFormed(PrefFrom(s, lines[..|lines| - 1]), lines[|lines| - 1]);
    }
  }

  /** Every list `_extract_preferences_from_memory` returns is well formed. */

  // ---------------- An unknown `## ` heading ends the lists ----------------

  /** The lists of `p` followed by those of `q`. */
  function Concat(p: Prefs, q: Prefs): Prefs {
    Prefs(p.allergies + q.allergies, p.diseases + q.diseases, p.dietaryRestrictions + q.dietaryRestrictions,
          p.likedFoods + q.likedFoods, p.dislikedFoods + q.dislikedFoods)
  }

  /** Reading `a + b` is reading `a`, then `b`. */
  lemma {:induction false} PrefFromAppend(s: PrefScan, a: seq<string>, b: seq<string>)
    ensures PrefFrom(s, a + b) == PrefFrom(PrefFrom(s, a), b)
    decreases |b|
  {
    if b == [] {
      assert a + b == a;
    } else {
      assert (a + b)[..|a + b| - 1] == a + b[..|b| - 1];
      PrefFromAppend(s, a, b[..|b| - 1]);
    }
  }

  /** An item goes to the end of the lists, whatever came before them. */
  lemma CollectConcat(p: Prefs, q: Prefs, sec: Section, name: string)
    ensures Collect(Concat(p, q), sec, name) == Concat(p, Collect(q, sec, name))
  {
    match sec
    case AllergyList => assert Concat(p, q).allergies + [name] == p.allergies + (q.allergies + [name]);
    case DiseaseList => assert Concat(p, q).diseases + [name] == p.diseases + (q.diseases + [name]);
    case RestrictionList =>
      assert Concat(p, q).dietaryRestrictions + [name] == p.dietaryRestrictions + (q.dietaryRestrictions + [name]);
    case Liked => assert Concat(p, q).likedFoods + Foods(name) == p.likedFoods + (q.likedFoods + Foods(name));
    case Disliked =>
      assert Concat(p, q).dislikedFoods + Foods(name) == p.dislikedFoods + (q.dislikedFoods + Foods(name));
    case Health =>
    case Preferences =>
  }

  /** One line appends to the lists the same whatever lists came before. */
  lemma StepConcat(c: Option<Section>, p: Prefs, q: Prefs, raw: string)
    ensures var alone := PrefStep(PrefScan(c, q), raw);
      PrefStep(PrefScan(c, Concat(p, q)), raw) == PrefScan(alone.current, Concat(p, alone.prefs))
  {
    var line := Strip(raw);
    var current := NextSection(line, c);
    if "- " <= line && current.Some? && !Skipped(Strip(line[2..])) {
      CollectConcat(p, q, current.value, NameOf(Strip(line[2..])));
    }
  }

  /** Reading only appends to the lists it starts from, and what it appends depends only on
      the current section. */
  lemma {:induction false} PrefFromKeepsEarlier(c: Option<Section>, p: Prefs, lines: seq<string>)
    ensures var alone := PrefFrom(PrefScan(c, NoPrefs), lines);
      PrefFrom(PrefScan(c, p), lines) == PrefScan(alone.current, Concat(p, alone.prefs))
    decreases |lines|
  {
    if lines == [] {
      assert Concat(p, NoPrefs) == p;
    } else {
      var init := lines[..|lines| - 1];
      PrefFromKeepsEarlier(c, p, init);
      var alone := PrefFrom(PrefScan(c, NoPrefs), init);
      StepConcat(alone.current, p, alone.prefs, lines[|lines| - 1]);
    }
  }

  /** One of the heading texts the parser looks for. */
  predicate KnownHeading(line: string) {
    || Contains(line, "## 健康状况") || Contains(line, "### 过敏原") || Contains(line, "### 疾病")
    || Contains(line, "医疗状况") || Contains(line, "## 长期偏好") || Contains(line, "### 喜欢的食物")
    || Contains(line, "### 不喜欢的食物") || Contains(line, "### 饮食限制")
  }

  /** A `## ` line with none of the known heading texts ends the current list: the lines after
      it are read as if the memory started there. */
  lemma UnknownHeadingCloses(a: seq<string>, h: string, b: seq<string>)
    requires "## " <= Strip(h) && !KnownHeading(Strip(h))
    ensures PrefFrom(PrefStart, a + [h] + b).prefs == Concat(PrefFrom(PrefStart, a).prefs, PrefFrom(PrefStart, b).prefs)
  {
    PrefFromAppend(PrefStart, a + [h], b);
    PrefFromAppend(PrefStart, a, [h]);
    assert [h][..0] == [];
    var afterH := PrefFrom(PrefStart, a + [h]);
    assert afterH == PrefScan(None, PrefFrom(PrefStart, a).prefs);
    PrefFromKeepsEarlier(None, afterH.prefs, b);
  }

  // ---------------- The renderer's food lists, read back ----------------

  /** A food the renderer's comma list carries through unchanged: non-empty, no whitespace at
      either end, and none of `,`, `(`, `#`, 医 or 暂. */
  predicate PlainFood(x: string) {
    && x != "" && !IsSpace(x[0]) && !IsSpace(x[|x| - 1])
    && ',' !in x && '(' !in x && '#' !in x && '医' !in x && '暂' !in x
  }

  /** Each text with one space in front. */
  function Spaced(ys: seq<string>): (r: seq<string>)
    ensures |r| == |ys|
    ensures forall i :: 0 <= i < |ys| ==> r[i] == " " + ys[i]
  {
    if ys == [] then [] else [" " + ys[0]] + Spaced(ys[1..])
  }

  lemma {:induction false} JoinSpaced(ys: seq<string>)
    requires |ys| >= 1
    ensures Join(Spaced(ys), ",") == " " + Join(ys, ", ")
    decreases |ys|
  {
    if |ys| > 1 {
      JoinSpaced(ys[1..]);
      assert Spaced(ys)[1..] == Spaced(ys[1..]);
    }
  }

  /** Joining with `", "` is joining with `,` the first text and the others spaced. */
  lemma CommaSpaceJoin(xs: seq<string>)
    requires |xs| >= 1
    ensures MarkdownRenderer.Commas(xs) == Join([xs[0]] + Spaced(xs[1..]), ",")
  {
    var parts := [xs[0]] + Spaced(xs[1..]);
    if |xs| > 1 {
      JoinSpaced(xs[1..]);
      assert parts[1..] == Spaced(xs[1..]);
    }
  }

  /** `strip` drops the one space in front of a bare text. */
  lemma StripSpaced(y: string)
    requires y != "" && !IsSpace(y[0]) && !IsSpace(y[|y| - 1])
    ensures Strip(" " + y) == y
  {
    var t := " " + y;
    assert RStrip(t) == t;
    assert t[1..] == y;
    assert LStrip(y) == y;
  }

  lemma {:induction false} FoodsOfSpaced(ys: seq<string>)
    requires forall i :: 0 <= i < |ys| ==> PlainFood(ys[i])
    ensures FoodsOf(Spaced(ys)) == ys
    decreases |ys|
  {
    if ys != [] {
      StripSpaced(ys[0]);
      assert Spaced(ys)[1..] == Spaced(ys[1..]);
      forall i | 0 <= i < |ys| - 1
        ensures PlainFood(ys[1..][i])
      {
        assert ys[1..][i] == ys[i + 1];
      }
      FoodsOfSpaced(ys[1..]);
    }
  }

  /** The foods of the renderer's comma list are the foods it was given. */
  lemma FoodsRoundTrip(xs: seq<string>)
    requires |xs| >= 1
    requires forall i :: 0 <= i < |xs| ==> PlainFood(xs[i])
    ensures Foods(MarkdownRenderer.Commas(xs)) == xs
  {
    var parts := [xs[0]] + Spaced(xs[1..]);
    CommaSpaceJoin(xs);
    JoinSplit(parts, ',');
    StripBare(xs[0]);
    assert parts[1..] == Spaced(xs[1..]);
    FoodsOfSpaced(xs[1..]);
    assert xs == [xs[0]] + xs[1..];
  }

  /** A join of non-empty texts starts with the first text's first character and ends with
      the last text's last one. */
  lemma {:induction false} JoinEnds(xs: seq<string>, sep: string)
    requires |xs| >= 1 && forall i :: 0 <= i < |xs| ==> xs[i] != ""
    ensures var j := Join(xs, sep);
      |j| >= |xs[0]| && j[0] == xs[0][0] && j[|j| - 1] == xs[|xs| - 1][|xs[|xs| - 1]| - 1]
    decreases |xs|
  {
    if |xs| > 1 {
      assert forall i :: 0 <= i < |xs| - 1 ==> xs[1..][i] == xs[i + 1];
      JoinEnds(xs[1..], sep);
    }
  }

  /** A line without `#` and 医 holds none of the known heading texts. */
  lemma NoHeadingText(line: string)
    requires '#' !in line && '医' !in line
    ensures !KnownHeading(line)
  {
    CharRulesOut(line, "## 健康状况", '#');
    CharRulesOut(line, "### 过敏原", '#');
    CharRulesOut(line, "### 疾病", '#');
    CharRulesOut(line, "医疗状况", '医');
    CharRulesOut(line, "## 长期偏好", '#');
    CharRulesOut(line, "### 喜欢的食物", '#');
    CharRulesOut(line, "### 不喜欢的食物", '#');
    CharRulesOut(line, "### 饮食限制", '#');
  }

  /** A line that holds no known heading text and does not start with `## ` keeps the section. */
  lemma KeepsSection(line: string, current: Option<Section>)
    requires !KnownHeading(line) && !("## " <= line)
    ensures NextSection(line, current) == current
  {
  }

  /** The item line the renderer writes for a food list, read under 喜欢的食物 or 不喜欢的食物,
      adds exactly those foods to that list. */
  lemma FoodLineRead(p: Prefs, sec: Section, xs: seq<string>)
    requires sec == Liked || sec == Disliked
    requires |xs| >= 1 && xs != ["无"]
    requires forall i :: 0 <= i < |xs| ==> PlainFood(xs[i])
    ensures var r := PrefStep(PrefScan(Some(sec), p), MarkdownRenderer.LineText(MarkdownRenderer.Item(MarkdownRenderer.Commas(xs))));
      && r.current == Some(sec)
      && (sec == Liked ==> r.prefs == p.(likedFoods := p.likedFoods + xs))
      && (sec == Disliked ==> r.prefs == p.(dislikedFoods := p.dislikedFoods + xs))
  {
    var j := MarkdownRenderer.Commas(xs);
    var line := "- " + j;
    assert MarkdownRenderer.LineText(MarkdownRenderer.Item(j)) == line;
    JoinEnds(xs, ", ");
    JoinOmits(xs, ", ", '#');
    JoinOmits(xs, ", ", '医');
    JoinOmits(xs, ", ", '暂');
    JoinOmits(xs, ", ", '(');
    StripBare(j);
    assert line[2..] == j;
    StripBare(line);
    NoHeadingText(line);
    assert line[0] == '-';
    KeepsSection(line, Some(sec));
    if |xs| > 1 {
      assert j == xs[0] + ", " + Join(xs[1..], ", ");
    }
    CharRulesOut(j, "暂无", '暂');
    assert !Skipped(j);
    assert NameOf(j) == j;
    FoodsRoundTrip(xs);
  }

  /** The 喜欢的食物 heading line opens the liked list, whatever section was current. */
  lemma LikedHeadingRead(h: string, s: PrefScan)
    requires h == "### 喜欢的食物"
    ensures PrefStep(s, h) == PrefScan(Some(Liked), s.prefs)
  {
    assert h[0] == '#';
    StripBare(h);
    CharRulesOut(h, "## 健康状况", '健');
    CharRulesOut(h, "### 过敏原", '过');
    CharRulesOut(h, "### 疾病", '疾');
    CharRulesOut(h, "医疗状况", '医');
    CharRulesOut(h, "## 长期偏好", '长');
    assert "### 喜欢的食物" <= h;
  }

  /** The placeholder item of an empty food list is passed over. */
  lemma EmptyFoodsRead(line: string, s: PrefScan)
    requires line == MarkdownRenderer.LineText(MarkdownRenderer.Item("暂无记录"))
    ensures PrefStep(s, line) == s
  {
    assert line == "- 暂无记录";
    assert line[0] == '-';
    StripBare(line);
    NoHeadingText(line);
    KeepsSection(line, s.current);
    assert line[2..] == "暂无记录";
    StripBare(line[2..]);
    assert "暂无" <= line[2..];
  }

  /** The blank line after a sub-section changes nothing. */
  lemma BlankLineRead(s: PrefScan)
    ensures PrefStep(s, "") == s
  {
    NoHeadingText("");
  }

  /** Three rendered lines, as text. */
  lemma TextsOfThree(l0: MarkdownRenderer.Line, l1: MarkdownRenderer.Line, l2: MarkdownRenderer.Line)
    ensures MarkdownRenderer.Texts([l0, l1, l2])
      == [MarkdownRenderer.LineText(l0), MarkdownRenderer.LineText(l1), MarkdownRenderer.LineText(l2)]
  {
    var lines := [l0, l1, l2];
    assert lines[..|lines| - 1] == [l0, l1];
    assert [l0, l1][..1] == [l0];
    assert [l0][..0] == [];
    assert MarkdownRenderer.Texts([l0]) == [MarkdownRenderer.LineText(l0)];
    assert MarkdownRenderer.Texts([l0, l1]) == [MarkdownRenderer.LineText(l0), MarkdownRenderer.LineText(l1)];
  }

  /** Reading three lines is three steps. */
  lemma ReadThreeLines(s: PrefScan, a: string, b: string, c: string)
    ensures PrefFrom(s, [a, b, c]) == PrefStep(PrefStep(PrefStep(s, a), b), c)
  {
    assert [a, b, c][..2] == [a, b];
    assert [a, b][..1] == [a];
    assert [a][..0] == [];
    assert PrefFrom(s, [a]) == PrefStep(s, a);
    assert PrefFrom(s, [a, b]) == PrefStep(PrefStep(s, a), b);
  }

  /** The renderer's 喜欢的食物 sub-section reads back as its foods: an empty list as none. */
  lemma LikedFoodsRoundTrip(title: string, s: PrefScan, xs: seq<string>)
    requires title == "喜欢的食物"
    requires xs != ["无"]
    requires forall i :: 0 <= i < |xs| ==> PlainFood(xs[i])
    ensures PrefFrom(s, MarkdownRenderer.Texts(MarkdownRenderer.FoodsSub(title, xs)))
      == PrefScan(Some(Liked), s.prefs.(likedFoods := s.prefs.likedFoods + xs))
  {
    var b := FoodsSubTexts(title, xs);
    ReadThreeLines(s, "### " + title, b, "");
    LikedHeadingRead("### " + title, s);
    LikedItemRead(s.prefs, b, xs);
    BlankLineRead(PrefStep(PrefScan(Some(Liked), s.prefs), b));
  }

  /** The three lines of a food sub-list, as text. */
  lemma FoodsSubTexts(title: string, xs: seq<string>) returns (b: string)
    ensures b == MarkdownRenderer.LineText(MarkdownRenderer.Item(if xs == [] then "暂无记录" else MarkdownRenderer.Commas(xs)))
    ensures MarkdownRenderer.Texts(MarkdownRenderer.FoodsSub(title, xs)) == ["### " + title, b, ""]
  {
    var item := if xs == [] then "暂无记录" else MarkdownRenderer.Commas(xs);
    var l0, l1, l2 := MarkdownRenderer.Sub(title), MarkdownRenderer.Item(item), MarkdownRenderer.Plain("");
    assert MarkdownRenderer.FoodsSub(title, xs) == [l0, l1, l2];
    TextsOfThree(l0, l1, l2);
    b := MarkdownRenderer.LineText(l1);
  }

  /** The bullet under the liked-foods heading adds exactly the listed foods. */
  lemma LikedItemRead(p: Prefs, b: string, xs: seq<string>)
    requires xs != ["无"] && forall i :: 0 <= i < |xs| ==> PlainFood(xs[i])
    requires b == MarkdownRenderer.LineText(MarkdownRenderer.Item(if xs == [] then "暂无记录" else MarkdownRenderer.Commas(xs)))
    ensures PrefStep(PrefScan(Some(Liked), p), b) == PrefScan(Some(Liked), p.(likedFoods := p.likedFoods + xs))
  {
    if xs == [] {
      EmptyFoodsRead(b, PrefScan(Some(Liked), p));
      assert p.(likedFoods := p.likedFoods + xs) == p;
    } else {
      FoodLineRead(p, Liked, xs);
    }
  }

  // ---------------- Preferences handed in, and merged ----------------

  /** The `user_preferences` dict: lists of names by key. */
  type PrefsMap = map<string, seq<string>>

  /** The dict form of the extracted lists. */
  function PrefsDict(p: Prefs): PrefsMap {
    map["allergies" := p.allergies, "diseases" := p.diseases, "dietary_restrictions" := p.dietaryRestrictions,
        "liked_foods" := p.likedFoods, "disliked_foods" := p.dislikedFoods]
  }

  /** `not prefs or not prefs.get("allergies")`: re-extraction is due when there are no
      preferences, or no allergies among them. */
  predicate NeedsExtraction(given: Option<PrefsMap>) {
    given.None? || given.value == map[] || "allergies" !in given.value || given.value["allergies"] == []
  }

  /** `{**given, **extracted}` */
  function Merged(given: PrefsMap, p: Prefs): (r: PrefsMap)
    ensures r.Keys == given.Keys + PrefsDict(p).Keys
    ensures forall k | k in PrefsDict(p) :: r[k] == PrefsDict(p)[k]
    ensures forall k | k in given && k !in PrefsDict(p) :: r[k] == given[k]
  {
    given + PrefsDict(p)
  }

  /** After a merge the allergies are the extracted ones, and a key the extraction does not
      produce keeps its value. */
  lemma MergedAllergies(given: PrefsMap, p: Prefs, other: string)
    requires other in given && other != "allergies" && other != "diseases" && other != "dietary_restrictions"
    requires other != "liked_foods" && other != "disliked_foods"
    ensures "allergies" in Merged(given, p) && Merged(given, p)["allergies"] == p.allergies
    ensures other in Merged(given, p) && Merged(given, p)[other] == given[other]
  {
    assert "allergies" in PrefsDict(p);
    assert other !in PrefsDict(p);
  }

  // ---------------- The analysis record appended to the nutrition workspace ----------------

  /** The fields of `NutritionAnalysis` the nodes read. */
  datatype Analysis = Analysis(foodItems: seq<string>, totalCalories: real, healthLevel: int)

  /** `NutritionAdvice` */
  datatype Advice = Advice(recommendations: seq<string>, dietaryTips: seq<string>,
                           warnings: seq<string>, alternativeFoods: seq<string>)

  /** The advice put in place when the structured call raises and the plain call answers. */
  const FallbackAdvice: Advice := Advice(["建议均衡饮食，注意营养搭配"], ["细嚼慢咽，有助消化"], [], [])

  /** `health_level_map.get(level, "C")`: 5 is A down to 1 is E; any other level is C. */
  function HealthGrade(level: int): (g: string)
    ensures |g| == 1 && 'A' <= g[0] <= 'E'
    ensures 1 <= level <= 5 ==> g[0] as int == 'A' as int + 5 - level
    ensures !(1 <= level <= 5) ==> g == "C"
  {
    if level == 1 then "E" else if level == 2 then "D" else if level == 3 then "C"
    else if level == 4 then "B" else if level == 5 then "A" else "C"
  }

  /** The level a grade letter stands for. */
  function GradeLevel(g: string): int
    requires |g| == 1 && 'A' <= g[0] <= 'E'
  {
    'A' as int + 5 - g[0] as int
  }

  /** On the levels the map knows the grade determines the level, and a higher level never
      gets a later letter. */
  lemma HealthGradeOrder(l1: int, l2: int)
    requires 1 <= l1 <= 5 && 1 <= l2 <= 5
    ensures GradeLevel(HealthGrade(l1)) == l1
    ensures l1 <= l2 <==> HealthGrade(l2)[0] <= HealthGrade(l1)[0]
    ensures HealthGrade(l1) == HealthGrade(l2) <==> l1 == l2
  {
  }

  const NoFoods: string := "未识别"
  const FoodLabel: string := "- 食物: "
  const CalorieLabel: string := "- 热量: "
  const GradeLabel: string := "- 健康等级: "
  const RecordSection: string := "近期分析记录"
  const RecordHeading: string := "### "
  const RecordTitle: string := " 新分析"
  const CalorieUnit: string := " kcal"

  /** `", ".join(food_items)`, or 未识别 for an empty list. */
  function FoodsText(items: seq<string>): string {
    if items == [] then NoFoods else MarkdownRenderer.Commas(items)
  }

  /** The lines of `new_record`: the dated heading, the foods, the calories and the grade. */
  function RecordLines(c: Collaborators, today: Date, a: Analysis): seq<string> {
    [RecordHeading + IsoDate(today) + RecordTitle, FoodLabel + FoodsText(a.foodItems),
     CalorieLabel + c.showReal(a.totalCalories) + CalorieUnit, GradeLabel + HealthGrade(a.healthLevel)]
  }

  /** The `new_record` of `save_to_nutrition_md`. */
  function AnalysisRecord(c: Collaborators, today: Date, a: Analysis): string {
    Join(RecordLines(c, today, a), "\n")
  }

  lemma HeadingLineFlat(today: Date)
    ensures '\n' !in RecordHeading + IsoDate(today) + RecordTitle
  {
    IsoDateChars(today);
  }

  lemma FoodLineFlat(items: seq<string>)
    requires forall i :: 0 <= i < |items| ==> '\n' !in items[i]
    ensures '\n' !in FoodLabel + FoodsText(items)
  {
    if items != [] {
      JoinOmits(items, ", ", '\n');
    }
  }

  /** The record splits back into its four lines when the food names and the formatted
      calorie figure hold no line break; the food line then reads back to the names. */
  lemma {:induction false} RecordReadBack(c: Collaborators, today: Date, a: Analysis)
    requires forall i :: 0 <= i < |a.foodItems| ==> PlainFood(a.foodItems[i]) && '\n' !in a.foodItems[i]
    requires '\n' !in c.showReal(a.totalCalories)
    ensures Split(AnalysisRecord(c, today, a), '\n') == RecordLines(c, today, a)
    ensures a.foodItems != [] ==> Foods(FoodsText(a.foodItems)) == a.foodItems
  {
    var lines := RecordLines(c, today, a);
    HeadingLineFlat(today);
    FoodLineFlat(a.foodItems);
    assert '\n' !in CalorieLabel + c.showReal(a.totalCalories) + CalorieUnit;
    assert '\n' !in GradeLabel + HealthGrade(a.healthLevel);
    JoinSplit(lines, '\n');
    if a.foodItems != [] {
      FoodsRoundTrip(a.foodItems);
    }
  }

  // ---------------- The state record and the memory-aware nodes ----------------

  /** The `current_step` names these nodes write; `OtherStep` is whatever an earlier node left. */
  datatype Step = OtherStep | MemoryLoaded | AdviceGenerated | SavedToMd

  const MissingAnalysis: string := "Missing nutrition analysis"
  const AdviceFailurePrefix: string := "Advice generation failed: "

  /** `not user_id`: an absent id and the id 0 both count as no user. */
  predicate HasUser(userId: Option<int>) {
    userId.Some? && userId.value != 0
  }

  /** The preferences after the shared workspace text `shared` was read: re-extracted and
      merged over what was handed in when that held no allergies. */
  function PrefsAfterLoad(given: Option<PrefsMap>, shared: string): (r: Option<PrefsMap>)
    ensures !NeedsExtraction(given) ==> r == given
    ensures NeedsExtraction(given) ==>
      r.Some? && "allergies" in r.value && r.value["allergies"] == PreferencesFromMemory(shared).allergies
    ensures NeedsExtraction(given) ==> given.GetOr(map[]).Keys <= r.value.Keys
    ensures NeedsExtraction(given) ==> (NeedsExtraction(r) <==> PreferencesFromMemory(shared).allergies == [])
  {
    if NeedsExtraction(given) then Some(Merged(given.GetOr(map[]), PreferencesFromMemory(shared))) else given
  }

  /** Loading the same shared text twice leaves the preferences as one load does. */
  lemma PrefsLoadIdempotent(given: Option<PrefsMap>, shared: string)
    ensures PrefsAfterLoad(PrefsAfterLoad(given, shared), shared) == PrefsAfterLoad(given, shared)
  {
    var once := PrefsAfterLoad(given, shared);
    if NeedsExtraction(given) && NeedsExtraction(once) {
      var d := PrefsDict(PreferencesFromMemory(shared));
      assert once.value + d == once.value;
    }
  }

  /** Every field of the state record these nodes touch, for stating what a node leaves alone. */
  datatype StateView = StateView(
    userMemoryContext: Option<string>, nutritionMemoryContext: Option<string>,
    userPreferences: Option<PrefsMap>, nutritionAnalysis: Option<Analysis>,
    nutritionAdvice: Option<Advice>, currentStep: Step, errorMessage: Option<string>)

  /** `EnhancedNutritionState`, as far as the memory-aware nodes read and write it. */
  class EnhancedState {
    const userId: Option<int>
    var userMemoryContext: Option<string>
    var nutritionMemoryContext: Option<string>
    var userPreferences: Option<PrefsMap>
    var nutritionAnalysis: Option<Analysis>
    var nutritionAdvice: Option<Advice>
    var currentStep: Step
    var errorMessage: Option<string>

    function View(): StateView
      reads this
    {
      StateView(userMemoryContext, nutritionMemoryContext, userPreferences, nutritionAnalysis,
                nutritionAdvice, currentStep, errorMessage)
    }

    constructor (userId: Option<int>, userPreferences: Option<PrefsMap>, nutritionAnalysis: Option<Analysis>)
      ensures this.userId == userId
      ensures View() == StateView(None, None, userPreferences, nutritionAnalysis, None, OtherStep, None)
    {
      this.userId := userId;
      userMemoryContext := None;
      nutritionMemoryContext := None;
      this.userPreferences := userPreferences;
      this.nutritionAnalysis := nutritionAnalysis;
      nutritionAdvice := None;
      currentStep := OtherStep;
      errorMessage := None;
    }

    /** `load_shared_memory`: with a user, non-empty workspace texts become the contexts and
        the preferences are re-extracted when they hold no allergies; the step is always
        memory_loaded. */
    method LoadSharedMemory(store: MemoryStore.MemoryManager)
      requires HasUser(userId) ==> store.userId == userId.value
      modifies this
      ensures var shared := MemoryStore.ReadIn(store.files, store.unreadable, MemoryStore.Shared);
        var nutrition := MemoryStore.ReadIn(store.files, store.unreadable, MemoryStore.Nutrition);
        var loading := HasUser(userId);
        View() == old(View()).(
          userMemoryContext := if loading && MemoryStore.HasText(shared) then shared else old(userMemoryContext),
          userPreferences := if loading && MemoryStore.HasText(shared) then PrefsAfterLoad(old(userPreferences), shared.value)
                             else old(userPreferences),
          nutritionMemoryContext := if loading && MemoryStore.HasText(nutrition) then nutrition else old(nutritionMemoryContext),
          currentStep := MemoryLoaded)
    {
      if !HasUser(userId) {
        currentStep := MemoryLoaded;
        return;
      }
      var shared := MemoryStore.ReadIn(store.files, store.unreadable, MemoryStore.Shared);
      if MemoryStore.HasText(shared) {
        userMemoryContext := shared;
        if NeedsExtraction(userPreferences) {
          var extracted := ExtractPreferencesFromMemory(shared.value);
          userPreferences := Some(Merged(userPreferences.GetOr(map[]), extracted));
        }
      }
      var nutrition := MemoryStore.ReadIn(store.files, store.unreadable, MemoryStore.Nutrition);
      if MemoryStore.HasText(nutrition) {
        nutritionMemoryContext := nutrition;
      }
      currentStep := MemoryLoaded;
    }

    /** `generate_advice_with_context`, with the two model calls as their outcomes: the
        structured answer, else the fixed fallback once the plain call answers; when both raise
        only the error is recorded. */
    method GenerateAdviceWithContext(structured: Result<Advice, string>, plain: Result<string, string>)
      modifies this
      ensures old(nutritionAnalysis).None? ==> View() == old(View()).(errorMessage := Some(MissingAnalysis))
      ensures old(nutritionAnalysis).Some? && structured.Ok? ==>
        View() == old(View()).(nutritionAdvice := Some(structured.value), currentStep := AdviceGenerated)
      ensures old(nutritionAnalysis).Some? && structured.Raise? && plain.Ok? ==>
        View() == old(View()).(nutritionAdvice := Some(FallbackAdvice), currentStep := AdviceGenerated)
      ensures old(nutritionAnalysis).Some? && structured.Raise? && plain.Raise? ==>
        View() == old(View()).(errorMessage := Some(AdviceFailurePrefix + plain.error))
      ensures currentStep == AdviceGenerated <==> old(currentStep) == AdviceGenerated || (old(nutritionAnalysis).Some? && (structured.Ok? || plain.Ok?))
    {
      if nutritionAnalysis.None? {
        errorMessage := Some(MissingAnalysis);
        return;
      }
      if structured.Ok? {
        nutritionAdvice := Some(structured.value);
      } else if plain.Ok? {
        nutritionAdvice := Some(FallbackAdvice);
      } else {
        errorMessage := Some(AdviceFailurePrefix + plain.error);
        return;
      }
      currentStep := AdviceGenerated;
    }

    /** `save_to_nutrition_md`, with `now` standing for both `date.today()` and the update's
        own clock: with a user and an analysis, the record is appended to the 近期分析记录
        section of the nutrition workspace; the step is always saved_to_md. */
    method SaveToNutritionMd(store: MemoryStore.MemoryManager, c: Collaborators, now: DateTime)
      requires store.Valid() && (HasUser(userId) ==> store.userId == userId.value)
      modifies store, this
      ensures store.Valid()
      ensures store.snapshots == old(store.snapshots) && store.writable == old(store.writable)
      ensures HasUser(userId) && nutritionAnalysis.Some? && old(store.writable) ==>
        && store.files == old(store.files)[MemoryStore.Nutrition := MarkdownDoc.UpdateSectionText(
             old(MemoryStore.ReadIn(store.files, store.unreadable, MemoryStore.Nutrition)), RecordSection,
             MarkdownDoc.Append(AnalysisRecord(c, now.date, nutritionAnalysis.value)), IsoDateTime(now))]
        && store.unreadable == old(store.unreadable) - {MemoryStore.Nutrition}
      ensures !(HasUser(userId) && nutritionAnalysis.Some? && old(store.writable)) ==>
        store.files == old(store.files) && store.unreadable == old(store.unreadable)
      ensures View() == old(View()).(currentStep := SavedToMd)
    {
      if !HasUser(userId) || nutritionAnalysis.None? {
        currentStep := SavedToMd;
        return;
      }
      var record := AnalysisRecord(c, now.date, nutritionAnalysis.value);
      assert MemoryStore.ParseWorkspace("nutrition") == Some(MemoryStore.Nutrition);
      var saved := store.UpdateSection("nutrition", RecordSection, record, false, now);
      currentStep := SavedToMd;
    }
  }
}
