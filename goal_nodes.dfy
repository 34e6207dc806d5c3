/** The nodes of the goal-tracking agent: a state record that each node updates in place,
    the profile read back from the shared workspace, and the reader of the model's
    suggestion reply. */
module GoalNodes {
  import opened Wrappers
  import opened Text
  import opened Dates
  import opened Foreign
  import NutritionCalc
  import MemoryStore
  import MarkdownDoc
  import Schemas
  import MarkdownRenderer

  // ---------------- Profile read from the shared workspace ----------------

  /** The profile dict `_extract_profile_from_memory` returns. */
  datatype Profile = Profile(weight: real, height: real, age: int, gender: int, activityLevel: int)

  /** 70 kg, 170 cm, 30 years, male, lightly active. */
  const DefaultProfile := Profile(70.0, 170.0, 30, 1, 2)

  /** What the reader can produce: a known gender and activity level, no negative numbers. */
  predicate ValidProfile(p: Profile) {
    && (p.gender == 1 || p.gender == 2)
    && 1 <= p.activityLevel <= 5
    && p.age >= 0 && p.height >= 0.0 && p.weight >= 0.0
  }

  /** The characters kept before `float()`: ASCII digits and the dot. */
  predicate IsDecimalChar(c: char) { IsDigit(c) || c == '.' }

  function Pow10(n: nat): (r: nat)
    ensures r >= 1
  {
    if n == 0 then 1 else 10 * Pow10(n - 1)
  }

  /** `float(s)` for a string of digits and dots: it raises (None) unless there is at most
      one dot and at least one digit. */
  function DecimalValue(s: string): (r: Option<real>)
    requires forall i :: 0 <= i < |s| ==> IsDecimalChar(s[i])
    ensures r.Some? ==> r.value >= 0.0
  {
    var i := FindChar(s, '.');
    if i == |s| then
      if s == [] then None
      else
        DotlessDigits(s);
        Some(DigitsValue(s) as real)
    else
      var whole := s[..i];
      var frac := s[i + 1..];
      if '.' in frac || (whole == [] && frac == []) then None
      else
        DotlessDigits(whole);
        DotlessDigits(frac);
        var fraction := DigitsValue(frac) as real / Pow10(|frac|) as real;
        FractionNonNegative(DigitsValue(frac), Pow10(|frac|));
        Some(DigitsValue(whole) as real + fraction)
  }

  lemma FractionNonNegative(n: nat, d: nat)
    requires d >= 1
    ensures n as real / d as real >= 0.0
  {
  }

  /** Digits and dots without a dot are digits. */
  lemma DotlessDigits(s: string)
    requires forall i :: 0 <= i < |s| ==> IsDecimalChar(s[i])
    requires '.' !in s
    ensures forall i :: 0 <= i < |s| ==> IsDigit(s[i])
  {
    forall i | 0 <= i < |s|
      ensures IsDigit(s[i])
    {
      assert IsDecimalChar(s[i]) && s[i] != '.';
    }
  }

  /** A number written in digits reads back as itself. */
  lemma DecimalOfNat(n: nat)
    ensures forall i :: 0 <= i < |NatToString(n)| ==> IsDecimalChar(NatToString(n)[i])
    ensures DecimalValue(NatToString(n)) == Some(n as real)
  {
    var s := NatToString(n);
    assert forall k :: 0 <= k < |s| ==> s[k] != '.';
    assert FindChar(s, '.') == |s|;
    DigitsValueOfString(n);
  }

  /** Two dots make `float()` raise. */
  lemma TwoDotsRaise(s: string, a: string, b: string, c: string)
    requires forall i :: 0 <= i < |a| ==> IsDigit(a[i])
    requires forall i :: 0 <= i < |b| ==> IsDigit(b[i])
    requires forall i :: 0 <= i < |c| ==> IsDecimalChar(c[i])
    requires s == a + "." + b + "." + c
    ensures forall i :: 0 <= i < |s| ==> IsDecimalChar(s[i])
    ensures DecimalValue(s) == None
  {
    assert forall k :: 0 <= k < |a| ==> s[k] == a[k];
    FindCharAt(s, '.', |a|);
    var frac := s[|a| + 1..];
    assert frac[|b|] == '.';
  }

  /** `s.split(':')[1]`, None where Python raises IndexError. */
  function SecondField(s: string): (r: Option<string>)
    ensures r.Some? ==> ':' !in r.value
  {
    var parts := Split(s, ':');
    if |parts| >= 2 then Some(parts[1]) else None
  }

  /** `float(''.join(c for c in text if c.isdigit() or c == '.') or default)` */
  function Measure(text: string, default: real): (r: Option<real>)
    ensures default >= 0.0 && r.Some? ==> r.value >= 0.0
    ensures Filter(text, IsDecimalChar) == [] ==> r == Some(default)
  {
    var kept := Filter(text, IsDecimalChar);
    if kept == [] then Some(default) else DecimalValue(kept)
  }

  /** One `|`-separated part of the basic-info line; None when the part raises. */
  function ApplyPart(p: Profile, raw: string): (r: Option<Profile>)
    ensures ValidProfile(p) && r.Some? ==> ValidProfile(r.value)
    ensures Contains(Strip(raw), "性别:") ==>
      r == Some(p.(gender := if Contains(Strip(raw), "男") then 1 else 2))
    ensures r.Some? ==> r.value.activityLevel == p.activityLevel
  {
    var part := Strip(raw);
    if Contains(part, "性别:") then
      Some(p.(gender := if Contains(part, "男") then 1 else 2))
    else if Contains(part, "年龄:") then
      match SecondField(part)
      case None => None
      case Some(f) =>
        var digits := Filter(Strip(f), IsDigit);
        Some(p.(age := if digits == [] then 30 else DigitsValue(digits)))
    else if Contains(part, "身高:") then
      match SecondField(part)
      case None => None
      case Some(f) =>
        match Measure(Strip(f), 170.0)
        case None => None
        case Some(h) => Some(p.(height := h))
    else if Contains(part, "体重:") then
      match SecondField(part)
      case None => None
      case Some(f) =>
        match Measure(Strip(f), 70.0)
        case None => None
        case Some(w) => Some(p.(weight := w))
    else Some(p)
  }

  /** The parts loop inside `try`: the first part that raises ends it, and the updates of
      the earlier parts stay. */
  datatype PartsState = Going(profile: Profile) | Stopped(profile: Profile)

  function PartStep(st: PartsState, part: string): (r: PartsState)
    ensures st.Stopped? ==> r == st
  {
    match st
    case Stopped(_) => st
    case Going(p) =>
      match ApplyPart(p, part)
      case None => Stopped(p)
      case Some(q) => Going(q)
  }

  function PartsFold(p: Profile, parts: seq<string>): (r: PartsState)
    ensures ValidProfile(p) ==> ValidProfile(r.profile)
    ensures r.profile.activityLevel == p.activityLevel
  {
    if parts == [] then Going(p)
    else PartStep(PartsFold(p, parts[..|parts| - 1]), parts[|parts| - 1])
  }

  /** Once a part has raised, the later parts change nothing. */
  lemma {:induction false} StoppedStays(p: Profile, parts: seq<string>, i: nat)
    requires i <= |parts| && PartsFold(p, parts[..i]).Stopped?
    ensures PartsFold(p, parts) == PartsFold(p, parts[..i])
    decreases |parts| - i
  {
    if i < |parts| {
      assert parts[..i + 1][..i] == parts[..i];
      StoppedStays(p, parts, i + 1);
    } else {
      assert parts[..i] == parts;
    }
  }

  /** The first marker (1) .. (5) on an activity line. */
  function ActivityMarker(line: string): (r: Option<int>)
    ensures r.Some? ==> 1 <= r.value <= 5
  {
    if Contains(line, "(1)") then Some(1)
    else if Contains(line, "(2)") then Some(2)
    else if Contains(line, "(3)") then Some(3)
    else if Contains(line, "(4)") then Some(4)
    else if Contains(line, "(5)") then Some(5)
    else None
  }

  predicate IsBasicInfoLine(line: string) {
    Contains(line, "身高:") && Contains(line, "体重:")
  }

  /** One line of the shared workspace. */
  function LineStep(p: Profile, raw: string): (r: Profile)
    ensures ValidProfile(p) ==> ValidProfile(r)
  {
    var line := Strip(raw);
    var q := if IsBasicInfoLine(line) then PartsFold(p, Split(line, '|')).profile else p;
    if Contains(line, "活动水平:") then q.(activityLevel := ActivityMarker(line).GetOr(q.activityLevel))
    else q
  }

  function ProfileFold(lines: seq<string>): (r: Profile)
    ensures ValidProfile(r)
  {
    if lines == [] then DefaultProfile
    else LineStep(ProfileFold(lines[..|lines| - 1]), lines[|lines| - 1])
  }

  /** `_extract_profile_from_memory`: the profile read from any memory text is valid. */
  function ProfileOf(memory: string): (r: Profile)
    ensures ValidProfile(r)
  {
    ProfileFold(Split(memory, '\n'))
  }

  /** The parts loop of a basic-info line inside its `try`: the first part that raises ends it,
      keeping the updates of the parts before it. */
  method ApplyParts(p: Profile, parts: seq<string>) returns (profile: Profile)
    ensures profile == PartsFold(p, parts).profile
  {
    profile := p;
    var i := 0;
    while i < |parts|
      invariant i <= |parts|
      invariant PartsFold(p, parts[..i]) == Going(profile)
    {
      var next := ApplyPart(profile, parts[i]);
      assert parts[..i + 1][..i] == parts[..i];
      if next.None? {
        StoppedStays(p, parts, i + 1);
        return;
      }
      profile := next.value;
      i := i + 1;
    }
    assert parts[..|parts|] == parts;
  }

  /** `_extract_profile_from_memory`, line by line as the source loops. */
  method ExtractProfileFromMemory(memory: string) returns (profile: Profile)
    ensures profile == ProfileOf(memory)
    ensures ValidProfile(profile)
  {
    var lines := Split(memory, '\n');
    profile := DefaultProfile;
    var n := 0;
    while n < |lines|
      invariant n <= |lines|
      invariant profile == ProfileFold(lines[..n])
    {
      var line := Strip(lines[n]);
      if Contains(line, "身高:") && Contains(line, "体重:") {
        profile := ApplyParts(profile, Split(line, '|'));
      }
      if Contains(line, "活动水平:") {
        var marker := ActivityMarker(line);
        if marker.Some? {
          profile := profile.(activityLevel := marker.value);
        }
      }
      assert lines[..n + 1][..n] == lines[..n];
      n := n + 1;
    }
    assert lines[..n] == lines;
  }

  /** A workspace without a basic-info line or an activity line yields the defaults. */
  lemma {:induction false} NoProfileLinesGiveDefaults(lines: seq<string>)
    requires forall i :: 0 <= i < |lines| ==> !Contains(Strip(lines[i]), "身高:")
    requires forall i :: 0 <= i < |lines| ==> !Contains(Strip(lines[i]), "活动水平:")
    ensures ProfileFold(lines) == DefaultProfile
  {
    if lines != [] {
      NoProfileLinesGiveDefaults(lines[..|lines| - 1]);
    }
  }

  /** Lines without `身高:`, `体重:` and `活动水平:` leave the profile alone. */
  lemma OtherLineKeepsProfile(p: Profile, raw: string)
    requires '身' !in raw && '活' !in raw
    ensures LineStep(p, raw) == p
  {
    var line := Strip(raw);
    StripOmits(raw, '身');
    StripOmits(raw, '活');
    CharRulesOut(line, "身高:", '身');
    CharRulesOut(line, "活动水平:", '活');
  }

  // ---------------- Reading back what the shared renderer wrote ----------------

  /** `(d)` occurs in `a (d)` exactly for the digit written there, when `a` has no `(`. */
  lemma {:induction false} ParenMarker(a: string, d: char, e: char)
    requires '(' !in a
    ensures Contains(a + ['(', d, ')'], ['(', e, ')']) <==> d == e
    decreases |a|
  {
    var s := a + ['(', d, ')'];
    var sub := ['(', e, ')'];
    if a == [] {
      assert s == ['(', d, ')'];
      assert (sub <= s) <==> d == e by {
        assert s[1] == d && sub[1] == e;
      }
      ShortNotContains(s[1..], sub);
    } else {
      assert s[0] == a[0] != '(';
      assert !(sub <= s);
      assert s[1..] == a[1..] + ['(', d, ')'];
      ParenMarker(a[1..], d, e);
    }
  }

  /** The level names hold neither `(` nor `身`. */
  lemma ActivityNameFacts(a: Schemas.ActivityLevel)
    ensures '(' !in MarkdownRenderer.ActivityName(a) && '身' !in MarkdownRenderer.ActivityName(a)
  {
  }

  /** The marker found on a line that ends in `(d)` is `d`'s own value. */
  lemma ActivityMarkerOf(head: string, d: char)
    requires '(' !in head && '1' <= d <= '5'
    ensures ActivityMarker(head + "(" + [d] + ")") == Some(d as int - '0' as int)
  {
    assert head + "(" + [d] + ")" == head + ['(', d, ')'];
    assert "(1)" == ['(', '1', ')'] && "(2)" == ['(', '2', ')'] && "(3)" == ['(', '3', ')'];
    assert "(4)" == ['(', '4', ')'] && "(5)" == ['(', '5', ')'];
    ParenMarker(head, d, '1');
    ParenMarker(head, d, '2');
    ParenMarker(head, d, '3');
    ParenMarker(head, d, '4');
    ParenMarker(head, d, '5');
    if d == '1' {
    } else if d == '2' {
    } else if d == '3' {
    } else if d == '4' {
    } else {
      assert d == '5';
    }
  }

  /** The activity line as the shared renderer writes it carries the level's own value. */
  lemma RenderedActivityRead(p: Profile, line: string, a: Schemas.ActivityLevel, name: string, d: char)
    requires name == MarkdownRenderer.ActivityName(a)
    requires [d] == IntToString(Schemas.ActivityValue(a))
    requires line == "- 活动水平: " + name + " (" + [d] + ")"
    ensures LineStep(p, line) == p.(activityLevel := Schemas.ActivityValue(a))
  {
    ActivityNameFacts(a);
    assert d as int - '0' as int == Schemas.ActivityValue(a) && '1' <= d <= '5' by {
      match a
      case Sedentary =>
      case Light =>
      case ModerateActivity =>
      case Active =>
      case VeryActive =>
    }
    var head := "- 活动水平: " + name + " ";
    assert line == head + "(" + [d] + ")";
    assert '(' !in head && '身' !in head;
    assert '身' !in line;
    StripBare(line);
    CharRulesOut(line, "身高:", '身');
    assert line[2..2 + |"活动水平:"|] == "活动水平:";
    ContainsAt(line, "活动水平:", 2);
    ActivityMarkerOf(head, d);
  }

  /** `"年龄: n".split(':')[1]` is `" n"`. */
  lemma AgeField(t: string, digits: string)
    requires forall k :: 0 <= k < |digits| ==> IsDigit(digits[k])
    requires t == "年龄: " + digits
    ensures SecondField(t) == Some(" " + digits)
  {
    FindCharAt(t, ':', 2);
    var rest := t[3..];
    assert rest == " " + digits;
    assert forall k :: 0 <= k < |rest| ==> rest[k] != ':' by {
      assert forall k :: 1 <= k < |rest| ==> rest[k] == digits[k - 1];
    }
    assert FindChar(rest, ':') == |rest|;
    assert Split(rest, ':') == [rest];
    assert Split(t, ':') == [t[..2], rest];
  }

  /** Blanks around a bare text are what `strip` removes. */
  lemma StripSpaced(x: string)
    requires x != [] && !IsSpace(x[0]) && !IsSpace(x[|x| - 1])
    ensures Strip(" " + x + " ") == x && Strip(" " + x) == x
  {
    assert (" " + x + " ")[..|x| + 1] == " " + x;
    assert RStrip(" " + x + " ") == " " + x;
    assert RStrip(" " + x) == " " + x;
    assert (" " + x)[1..] == x;
    assert LStrip(" " + x) == LStrip(x);
    StripBare(x);
  }

  /** The age part as the shared renderer writes it reads back as the age. */
  lemma RenderedAgeRead(p: Profile, part: string, digits: string, n: nat)
    requires digits == NatToString(n)
    requires part == " 年龄: " + digits + " "
    ensures ApplyPart(p, part) == Some(p.(age := n))
  {
    var t := "年龄: " + digits;
    assert part == " " + t + " ";
    StripSpaced(t);
    StripSpaced(digits);
    assert '性' !in t;
    CharRulesOut(t, "性别:", '性');
    assert "年龄:" <= t;
    AgeField(t, digits);
    FilterDigits(digits);
    DigitsValueOfString(n);
  }

  /** A measurement written as digits with its unit reads back as that number. */
  lemma MeasureOfNat(n: nat, unit: string, default: real)
    requires forall k :: 0 <= k < |unit| ==> !IsDecimalChar(unit[k])
    ensures Measure(NatToString(n) + unit, default) == Some(n as real)
  {
    var digits := NatToString(n);
    DecimalOfNat(n);
    FilterAppend(digits, unit, IsDecimalChar);
    FilterNone(unit, IsDecimalChar);
    FilterAll(digits, IsDecimalChar);
    assert Filter(digits + unit, IsDecimalChar) == digits + [] == digits;
  }

  /** `float()` of a whole number as `str()` shows it, `n.0`, is `n`. */
  lemma DecimalOfWholeFloat(n: nat)
    ensures forall k :: 0 <= k < |NatToString(n) + ".0"| ==> IsDecimalChar((NatToString(n) + ".0")[k])
    ensures DecimalValue(NatToString(n) + ".0") == Some(n as real)
  {
    var digits := NatToString(n);
    var kept := digits + ".0";
    DecimalOfNat(n);
    assert forall k :: 0 <= k < |digits| ==> digits[k] != '.';
    FindCharAt(kept, '.', |digits|);
    assert kept[..|digits|] == digits;
    assert kept[|digits| + 1..] == "0";
    assert DigitsValue("0") == 0 by {
      assert "0"[..0] == [];
    }
    DigitsValueOfString(n);
    assert Pow10(1) == 10;
    assert DigitsValue(digits) as real + 0 as real / 10 as real == n as real;
  }

  /** A whole-number float as `str()` shows it, followed by its unit, reads back as that
      number: the renderer writes heights and weights this way (`175.0cm`). */
  lemma MeasureOfWholeFloat(n: nat, unit: string, default: real)
    requires forall k :: 0 <= k < |unit| ==> !IsDecimalChar(unit[k])
    ensures Measure(NatToString(n) + ".0" + unit, default) == Some(n as real)
  {
    var kept := NatToString(n) + ".0";
    DecimalOfWholeFloat(n);
    FilterAppend(kept, unit, IsDecimalChar);
    FilterNone(unit, IsDecimalChar);
    FilterAll(kept, IsDecimalChar);
    assert Filter(kept + unit, IsDecimalChar) == kept + [] == kept;
  }

  lemma {:induction false} FilterAppend(a: string, b: string, keep: char -> bool)
    ensures Filter(a + b, keep) == Filter(a, keep) + Filter(b, keep)
  {
    if a != [] {
      assert (a + b)[0] == a[0];
      assert (a + b)[1..] == a[1..] + b;
      FilterAppend(a[1..], b, keep);
    } else {
      assert a + b == b;
    }
  }

  lemma {:induction false} FilterNone(s: string, keep: char -> bool)
    requires forall k :: 0 <= k < |s| ==> !keep(s[k])
    ensures Filter(s, keep) == []
  {
    if s != [] {
      assert !keep(s[0]);
      assert forall k :: 0 <= k < |s| - 1 ==> s[1..][k] == s[k + 1];
      FilterNone(s[1..], keep);
    }
  }

  lemma {:induction false} FilterAll(s: string, keep: char -> bool)
    requires forall k :: 0 <= k < |s| ==> keep(s[k])
    ensures Filter(s, keep) == s
  {
    if s != [] {
      assert keep(s[0]);
      assert forall k :: 0 <= k < |s| - 1 ==> s[1..][k] == s[k + 1];
      FilterAll(s[1..], keep);
    }
  }

  // ---------------- The suggestion reply ----------------

  /** Which colon opens a section: the code tests for the ASCII `:` only, while the prompt
      asks the model for the full-width `：`. */
  datatype ColonReading = AsciiColon | EitherColon

  datatype ReplySection = Advice | Warning | Summary

  predicate HasColon(mode: ColonReading, line: string) {
    ':' in line || (mode == EitherColon && '：' in line)
  }

  /** The section a stripped line opens, if it is a section header. */
  function HeaderOf(mode: ColonReading, line: string): Option<ReplySection> {
    if Contains(line, "建议") && HasColon(mode, line) then Some(Advice)
    else if Contains(line, "警告") && HasColon(mode, line) then Some(Warning)
    else if Contains(line, "进度总结") || Contains(line, "总结") then Some(Summary)
    else None
  }

  const SuggestionMarks: set<char> := {'0', '1', '2', '3', '4', '5', '6', '7', '8', '9', '.', '-', ')', ' '}
  const WarningMarks: set<char> := SuggestionMarks + {'⚠', '\U{FE0F}'}

  const NoAdvice := "继续保持良好的饮食习惯"

  datatype ReplyScan = ReplyScan(section: Option<ReplySection>, suggestions: seq<string>, warnings: seq<string>, summary: string)

  const ReplyStart := ReplyScan(None, [], [], "")

  /** One line of the reply. */
  function ReplyStep(mode: ColonReading, s: ReplyScan, raw: string): (r: ReplyScan)
    ensures Strip(raw) == [] ==> r == s
    ensures s.suggestions <= r.suggestions && s.warnings <= r.warnings
  {
    var line := Strip(raw);
    if line == [] then s
    else match HeaderOf(mode, line)
      case Some(h) => s.(section := Some(h))
      case None =>
        match s.section
        case Some(Advice) =>
          var clean := Strip(LStripChars(line, SuggestionMarks));
          if clean != [] && |clean| > 5 then s.(suggestions := s.suggestions + [clean]) else s
        case Some(Warning) =>
          var clean := Strip(LStripChars(line, WarningMarks));
          if clean != [] && |clean| > 3 then s.(warnings := s.warnings + [clean]) else s
        case Some(Summary) =>
          if !("-" <= line) then s.(summary := line) else s
        case None => s
  }

  function ReplyFold(mode: ColonReading, lines: seq<string>): ReplyScan {
    if lines == [] then ReplyStart
    else ReplyStep(mode, ReplyFold(mode, lines[..|lines| - 1]), lines[|lines| - 1])
  }

  datatype Reply = Reply(suggestions: seq<string>, warnings: seq<string>, summary: string)

  /** `_parse_suggestion_response`, read the given way. */
  function ParseReply(mode: ColonReading, content: string): (r: Reply)
    ensures |r.suggestions| >= 1
  {
    var s := ReplyFold(mode, Split(content, '\n'));
    Reply(if s.suggestions == [] then [NoAdvice] else s.suggestions, s.warnings, s.summary)
  }

  lemma ReplyFoldNext(mode: ColonReading, lines: seq<string>, i: nat)
    requires i < |lines|
    ensures ReplyFold(mode, lines[..i + 1]) == ReplyStep(mode, ReplyFold(mode, lines[..i]), lines[i])
  {
    assert lines[..i + 1][..i] == lines[..i];
  }

  /** The loop of `_parse_suggestion_response`. */
  method ParseSuggestionResponse(mode: ColonReading, content: string) returns (r: Reply)
    ensures r == ParseReply(mode, content)
  {
    var lines := Split(content, '\n');
    var scan := ReplyStart;
    var i := 0;
    while i < |lines|
      invariant i <= |lines|
      invariant ReplyFold(mode, lines[..i]) == scan
    {
      ReplyFoldNext(mode, lines, i);
      scan := ReadReplyLine(mode, scan, lines[i]);
      i := i + 1;
    }
    assert lines[..i] == lines;
    var suggestions := scan.suggestions;
    if suggestions == [] {
      suggestions := [NoAdvice];
    }
    r := Reply(suggestions, scan.warnings, scan.summary);
  }

  /** One pass of that loop: the section, the two lists and the summary it updates. */
  method ReadReplyLine(mode: ColonReading, s: ReplyScan, raw: string) returns (r: ReplyScan)
    ensures r == ReplyStep(mode, s, raw)
  {
    r := s;
    var line := Strip(raw);
    if line == [] {
      return;
    }
    var header := HeaderOf(mode, line);
    if header.Some? {
      r := r.(section := header);
      return;
    }
    if s.section == Some(Advice) {
      var clean := Strip(LStripChars(line, SuggestionMarks));
      if clean != [] && |clean| > 5 {
        r := r.(suggestions := s.suggestions + [clean]);
      }
    } else if s.section == Some(Warning) {
      var clean := Strip(LStripChars(line, WarningMarks));
      if clean != [] && |clean| > 3 {
        r := r.(warnings := s.warnings + [clean]);
      }
    } else if s.section == Some(Summary) {
      if !("-" <= line) {
        r := r.(summary := line);
      }
    }
  }

  predicate ItemsKept(s: ReplyScan) {
    && (forall k :: 0 <= k < |s.suggestions| ==> |s.suggestions[k]| > 5)
    && (forall k :: 0 <= k < |s.warnings| ==> |s.warnings[k]| > 3)
  }

  lemma StepKeepsItems(mode: ColonReading, s: ReplyScan, raw: string)
    requires ItemsKept(s)
    ensures ItemsKept(ReplyStep(mode, s, raw))
  {
  }

  lemma {:induction false} FoldKeepsItems(mode: ColonReading, lines: seq<string>)
    ensures ItemsKept(ReplyFold(mode, lines))
  {
    if lines != [] {
      FoldKeepsItems(mode, lines[..|lines| - 1]);
      StepKeepsItems(mode, ReplyFold(mode, lines[..|lines| - 1]), lines[|lines| - 1]);
    }
  }

  /** Every suggestion is longer than 5 characters and every warning longer than 3. */
  lemma ParsedItemsAreLong(mode: ColonReading, content: string)
    ensures forall k :: 0 <= k < |ParseReply(mode, content).suggestions| ==> |ParseReply(mode, content).suggestions[k]| > 5
    ensures forall k :: 0 <= k < |ParseReply(mode, content).warnings| ==> |ParseReply(mode, content).warnings[k]| > 3
  {
    FoldKeepsItems(mode, Split(content, '\n'));
  }

  /** Blank lines change nothing, wherever they stand. */
  lemma {:induction false} BlankLinesIgnored(mode: ColonReading, lines: seq<string>, blank: string)
    requires Strip(blank) == []
    ensures ReplyFold(mode, lines + [blank]) == ReplyFold(mode, lines)
  {
    assert (lines + [blank])[..|lines|] == lines;
  }

  // ---------------- The reply format the prompt asks for ----------------

  /** `lstrip(chars)` drops a leading run of marks and stops at the first other character. */
  lemma {:induction false} LStripMarks(marks: string, t: string, cs: set<char>)
    requires forall k :: 0 <= k < |marks| ==> marks[k] in cs
    requires t != [] && t[0] !in cs
    ensures LStripChars(marks + t, cs) == t
    decreases |marks|
  {
    if marks == [] {
      assert marks + t == t;
    } else {
      assert (marks + t)[1..] == marks[1..] + t;
      LStripMarks(marks[1..], t, cs);
    }
  }

  /** A line naming none of 建议, 警告 and 总结 is no header, whichever colon is read. */
  lemma PlainReplyLine(mode: ColonReading, line: string)
    requires '建' !in line && '警' !in line && '总' !in line
    ensures HeaderOf(mode, line) == None
  {
    CharRulesOut(line, "建议", '建');
    CharRulesOut(line, "警告", '警');
    CharRulesOut(line, "进度总结", '总');
    CharRulesOut(line, "总结", '总');
  }

  /** With the code's reading, a reply without an ASCII colon never opens the suggestions
      or the warnings section, so it yields neither. */
  lemma {:induction false} ColonlessReplyOpensNothing(lines: seq<string>)
    requires forall i :: 0 <= i < |lines| ==> ':' !in lines[i]
    ensures ReplyFold(AsciiColon, lines).suggestions == [] && ReplyFold(AsciiColon, lines).warnings == []
    ensures ReplyFold(AsciiColon, lines).section !in {Some(Advice), Some(Warning)}
  {
    if lines != [] {
      ColonlessReplyOpensNothing(lines[..|lines| - 1]);
      ColonlessStep(ReplyFold(AsciiColon, lines[..|lines| - 1]), lines[|lines| - 1]);
    }
  }

  lemma ColonlessStep(s: ReplyScan, raw: string)
    requires ':' !in raw && s.suggestions == [] && s.warnings == [] && s.section !in {Some(Advice), Some(Warning)}
    ensures var r := ReplyStep(AsciiColon, s, raw);
      r.suggestions == [] && r.warnings == [] && r.section !in {Some(Advice), Some(Warning)}
  {
    StripOmits(raw, ':');
  }

  /** So a reply without an ASCII colon always comes back as the fallback advice alone. */
  lemma ColonlessReplyGivesFallback(content: string)
    requires ':' !in content
    ensures ParseReply(AsciiColon, content).suggestions == [NoAdvice]
    ensures ParseReply(AsciiColon, content).warnings == []
  {
    SplitOmits(content, '\n', ':');
    ColonlessReplyOpensNothing(Split(content, '\n'));
  }

  /** A stripped line that opens the given section. */
  predicate HeaderLine(mode: ColonReading, line: string, section: ReplySection) {
    Strip(line) == line && line != [] && HeaderOf(mode, line) == Some(section)
  }

  /** A stripped line that is no header and, once its leading marks in `cs` are gone, is `t`. */
  predicate MarkedLine(mode: ColonReading, line: string, marks: string, t: string, cs: set<char>) {
    && Strip(line) == line && line != [] && HeaderOf(mode, line) == None
    && line == marks + t && (forall k :: 0 <= k < |marks| ==> marks[k] in cs)
    && t != [] && t[0] !in cs && Strip(t) == t
  }

  /** The prompt's suggestions header opens a section only when `：` counts. */
  lemma AdviceHeader(h: string)
    requires h == "建议："
    ensures HeaderLine(EitherColon, h, Advice) && ':' !in h
  {
    StripBare(h);
    assert "建议" <= h;
    assert h[0] == '建' && h[1] == '议' && h[2] == '：';
  }

  /** The same for its warnings header. */
  lemma WarningHeader(h: string)
    requires h == "警告（如有）："
    ensures HeaderLine(EitherColon, h, Warning) && ':' !in h
  {
    StripBare(h);
    assert "警告" <= h;
    assert h[6] == '：';
    CharRulesOut(h, "建议", '建');
  }

  /** A numbered suggestion and a dashed warning, as the prompt lays them out. */
  lemma AdviceLine(b: string, t: string)
    requires t == "多吃新鲜蔬菜水果" && b == "1. " + t
    ensures MarkedLine(EitherColon, b, "1. ", t, SuggestionMarks) && |t| > 5 && ':' !in b
  {
    StripBare(b);
    StripBare(t);
    PlainReplyLine(EitherColon, b);
  }

  lemma WarningLine(b: string, t: string)
    requires t == "蛋白质摄入不足" && b == "- " + t
    ensures MarkedLine(EitherColon, b, "- ", t, WarningMarks) && |t| > 3 && ':' !in b
  {
    StripBare(b);
    StripBare(t);
    PlainReplyLine(EitherColon, b);
  }

  /** One more line of a reply whose scan so far is known. */
  lemma FoldThrough(mode: ColonReading, lines: seq<string>, i: nat, before: ReplyScan, after: ReplyScan)
    requires i < |lines| && ReplyFold(mode, lines[..i]) == before
    requires ReplyStep(mode, before, lines[i]) == after
    ensures ReplyFold(mode, lines[..i + 1]) == after
  {
    ReplyFoldNext(mode, lines, i);
  }

  lemma StepHeader(mode: ColonReading, s: ReplyScan, line: string, h: ReplySection)
    requires HeaderLine(mode, line, h)
    ensures ReplyStep(mode, s, line) == s.(section := Some(h))
  {
  }

  lemma StepAdvice(mode: ColonReading, s: ReplyScan, line: string, marks: string, t: string)
    requires MarkedLine(mode, line, marks, t, SuggestionMarks) && |t| > 5 && s.section == Some(Advice)
    ensures ReplyStep(mode, s, line) == s.(suggestions := s.suggestions + [t])
  {
    LStripMarks(marks, t, SuggestionMarks);
  }

  lemma StepWarning(mode: ColonReading, s: ReplyScan, line: string, marks: string, t: string)
    requires MarkedLine(mode, line, marks, t, WarningMarks) && |t| > 3 && s.section == Some(Warning)
    ensures ReplyStep(mode, s, line) == s.(warnings := s.warnings + [t])
  {
    LStripMarks(marks, t, WarningMarks);
  }

  /** A header line read after the first `i` lines. */
  lemma FoldHeaderAt(mode: ColonReading, lines: seq<string>, i: nat, s: ReplyScan, h: ReplySection)
    requires i < |lines| && ReplyFold(mode, lines[..i]) == s && HeaderLine(mode, lines[i], h)
    ensures ReplyFold(mode, lines[..i + 1]) == s.(section := Some(h))
  {
    StepHeader(mode, s, lines[i], h);
    FoldThrough(mode, lines, i, s, s.(section := Some(h)));
  }

  /** A suggestion line read after the first `i` lines. */
  lemma FoldAdviceAt(mode: ColonReading, lines: seq<string>, i: nat, s: ReplyScan, m: string, t: string)
    requires i < |lines| && ReplyFold(mode, lines[..i]) == s && s.section == Some(Advice)
    requires MarkedLine(mode, lines[i], m, t, SuggestionMarks) && |t| > 5
    ensures ReplyFold(mode, lines[..i + 1]) == s.(suggestions := s.suggestions + [t])
  {
    StepAdvice(mode, s, lines[i], m, t);
    FoldThrough(mode, lines, i, s, s.(suggestions := s.suggestions + [t]));
  }

  /** A warning line read after the first `i` lines. */
  lemma FoldWarningAt(mode: ColonReading, lines: seq<string>, i: nat, s: ReplyScan, m: string, t: string)
    requires i < |lines| && ReplyFold(mode, lines[..i]) == s && s.section == Some(Warning)
    requires MarkedLine(mode, lines[i], m, t, WarningMarks) && |t| > 3
    ensures ReplyFold(mode, lines[..i + 1]) == s.(warnings := s.warnings + [t])
  {
    StepWarning(mode, s, lines[i], m, t);
    FoldThrough(mode, lines, i, s, s.(warnings := s.warnings + [t]));
  }

  /** The first two lines of a reply: a suggestions header and one suggestion. */
  lemma ReadAdvicePair(mode: ColonReading, lines: seq<string>, m1: string, t1: string)
    requires |lines| == 4
    requires HeaderLine(mode, lines[0], Advice) && MarkedLine(mode, lines[1], m1, t1, SuggestionMarks) && |t1| > 5
    ensures ReplyFold(mode, lines[..2]) == ReplyScan(Some(Advice), [t1], [], "")
  {
    assert lines[..0] == [];
    FoldHeaderAt(mode, lines, 0, ReplyStart, Advice);
    FoldAdviceAt(mode, lines, 1, ReplyStart.(section := Some(Advice)), m1, t1);
  }

  /** The last two lines of a reply: a warnings header and one warning. */
  lemma ReadWarningPair(mode: ColonReading, lines: seq<string>, s2: ReplyScan, m2: string, t2: string)
    requires |lines| == 4 && ReplyFold(mode, lines[..2]) == s2 && s2.warnings == []
    requires HeaderLine(mode, lines[2], Warning) && MarkedLine(mode, lines[3], m2, t2, WarningMarks) && |t2| > 3
    ensures ReplyFold(mode, lines) == s2.(section := Some(Warning), warnings := [t2])
  {
    FoldHeaderAt(mode, lines, 2, s2, Warning);
    FoldWarningAt(mode, lines, 3, s2.(section := Some(Warning)), m2, t2);
    assert lines[..4] == lines;
  }

  /** A reply of a suggestions header, one suggestion, a warnings header and one warning. */
  lemma ReadFourLines(mode: ColonReading, content: string, h1: string, b1: string, m1: string, t1: string,
                      h2: string, b2: string, m2: string, t2: string)
    requires Split(content, '\n') == [h1, b1, h2, b2]
    requires HeaderLine(mode, h1, Advice) && MarkedLine(mode, b1, m1, t1, SuggestionMarks) && |t1| > 5
    requires HeaderLine(mode, h2, Warning) && MarkedLine(mode, b2, m2, t2, WarningMarks) && |t2| > 3
    ensures ParseReply(mode, content) == Reply([t1], [t2], "")
  {
    var lines := [h1, b1, h2, b2];
    ReadAdvicePair(mode, lines, m1, t1);
    ReadWarningPair(mode, lines, ReplyScan(Some(Advice), [t1], [], ""), m2, t2);
  }

  /** As written: a reply laid out exactly as the prompt asks, with full-width colons, loses
      its suggestion and its warning and comes back as the fallback advice. */
  lemma PromptFormatLosesAdvice(content: string, h1: string, b1: string, t1: string, h2: string, b2: string, t2: string)
    requires h1 == "建议：" && t1 == "多吃新鲜蔬菜水果" && b1 == "1. " + t1
    requires h2 == "警告（如有）：" && t2 == "蛋白质摄入不足" && b2 == "- " + t2
    requires Split(content, '\n') == [h1, b1, h2, b2]
    ensures ParseReply(AsciiColon, content).suggestions == [NoAdvice]
    ensures ParseReply(AsciiColon, content).warnings == []
  {
    AdviceHeader(h1);
    WarningHeader(h2);
    AdviceLine(b1, t1);
    WarningLine(b2, t2);
    ColonlessFourLines(content, h1, b1, h2, b2);
  }

  lemma ColonlessFourLines(content: string, a: string, b: string, c: string, d: string)
    requires Split(content, '\n') == [a, b, c, d]
    requires ':' !in a && ':' !in b && ':' !in c && ':' !in d
    ensures ParseReply(AsciiColon, content).suggestions == [NoAdvice]
    ensures ParseReply(AsciiColon, content).warnings == []
  {
    ColonlessReplyOpensNothing([a, b, c, d]);
  }

  /** Read with either colon, the same reply yields its suggestion and its warning. */
  lemma PromptFormatReadWithEitherColon(content: string, h1: string, b1: string, t1: string, h2: string, b2: string, t2: string)
    requires h1 == "建议：" && t1 == "多吃新鲜蔬菜水果" && b1 == "1. " + t1
    requires h2 == "警告（如有）：" && t2 == "蛋白质摄入不足" && b2 == "- " + t2
    requires Split(content, '\n') == [h1, b1, h2, b2]
    ensures ParseReply(EitherColon, content) == Reply([t1], [t2], "")
  {
    AdviceHeader(h1);
    WarningHeader(h2);
    AdviceLine(b1, t1);
    WarningLine(b2, t2);
    ReadFourLines(EitherColon, content, h1, b1, "1. ", t1, h2, b2, "- ", t2);
  }
}
