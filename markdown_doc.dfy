/** The text side of a workspace file: splitting off the YAML frontmatter, reading the
    `## ` sections, patching one section the way the regular expressions of
    `update_section` do, and rewriting the `last_updated:` value. */
module MarkdownDoc {
  import opened Wrappers
  import opened Text
  import opened Foreign

  // ---------------- Frontmatter ----------------

  /** Where `^---\n(.*?)\n---\n` (DOTALL) closes: the first "\n---\n" at or after index 4
      of a text that starts with "---\n". */
  function FrontmatterEnd(s: string): (r: Option<nat>)
    ensures r.Some? ==> "---\n" <= s && 4 <= r.value && r.value + 5 <= |s| && s[r.value..r.value + 5] == "\n---\n"
  {
    if !("---\n" <= s) then None
    else
      match IndexOf(s[4..], "\n---\n")
      case None => None
      case Some(i) =>
        assert s[4..][i..i + 5] == s[4 + i..4 + i + 5];
        Some(4 + i)
  }

  /** The block closes at the first "\n---\n" after the opening line, and is unclosed only
      when there is none. */
  lemma FrontmatterEndSpec(s: string)
    ensures var r := FrontmatterEnd(s);
      r.Some? ==> forall k :: 4 <= k < r.value ==> !("\n---\n" <= s[k..])
    ensures FrontmatterEnd(s).None? && "---\n" <= s ==> forall k :: 4 <= k <= |s| ==> !("\n---\n" <= s[k..])
  {
    if "---\n" <= s {
      IndexOfSpec(s[4..], "\n---\n");
      assert forall k :: 4 <= k <= |s| ==> s[4..][k - 4..] == s[k..];
    }
  }

  /** The text after the frontmatter block, or all of it when there is none. */
  function AfterFrontmatter(s: string): (r: string)
    ensures |r| <= |s| && r == s[|s| - |r|..]
  {
    match FrontmatterEnd(s)
    case None => s
    case Some(k) => s[k + 5..]
  }

  // ---------------- Sections ----------------

  predicate IsHeader(line: string) {
    "## " <= line
  }

  /** `line[3:].strip()` */
  function Title(line: string): string
    requires IsHeader(line)
  {
    Strip(line[3..])
  }

  /** The open section is saved when its title is truthy; "" stands for Python's None,
      which the loop treats the same way. */
  function Close(acc: map<string, string>, cur: string, buf: seq<string>): map<string, string> {
    if cur != "" then acc[cur := Strip(Join(buf, "\n"))] else acc
  }

  /** The loop of `_parse_markdown` from line `i` on, with the open section `cur`, its lines
      so far `buf` and the sections saved so far `acc`. */
  function SectionsFrom(lines: seq<string>, i: nat, cur: string, buf: seq<string>, acc: map<string, string>): map<string, string>
    requires i <= |lines|
    decreases |lines| - i
  {
    if i == |lines| then Close(acc, cur, buf)
    else if IsHeader(lines[i]) then SectionsFrom(lines, i + 1, Title(lines[i]), [], Close(acc, cur, buf))
    else SectionsFrom(lines, i + 1, cur, buf + [lines[i]], acc)
  }

  function Sections(lines: seq<string>): map<string, string> {
    SectionsFrom(lines, 0, "", [], map[])
  }

  /** The first header line at or after `i`, or `|lines|`. */
  function NextHeader(lines: seq<string>, i: nat): (r: nat)
    requires i <= |lines|
    ensures i <= r <= |lines|
    ensures r < |lines| ==> IsHeader(lines[r])
    ensures forall k :: i <= k < r ==> !IsHeader(lines[k])
    decreases |lines| - i
  {
    if i == |lines| || IsHeader(lines[i]) then i else NextHeader(lines, i + 1)
  }

  /** The stripped body of the header at `j`: the lines up to the next header. */
  function Body(lines: seq<string>, j: nat): string
    requires j < |lines|
  {
    Strip(Join(lines[j + 1..NextHeader(lines, j + 1)], "\n"))
  }

  predicate HeaderWith(lines: seq<string>, j: int, t: string) {
    0 <= j < |lines| && IsHeader(lines[j]) && Title(lines[j]) == t
  }

  /** Some line at or after `i` is a header titled `t`. */
  predicate HasHeaderFrom(lines: seq<string>, i: nat, t: string)
    decreases |lines| - i
  {
    i < |lines| && (HeaderWith(lines, i, t) || HasHeaderFrom(lines, i + 1, t))
  }

  lemma {:induction false} HasHeaderFromIff(lines: seq<string>, i: nat, t: string)
    ensures HasHeaderFrom(lines, i, t) <==> exists j :: i <= j < |lines| && HeaderWith(lines, j, t)
    decreases |lines| - i
  {
    if i < |lines| {
      HasHeaderFromIff(lines, i + 1, t);
      if HeaderWith(lines, i, t) {
        assert i <= i < |lines| && HeaderWith(lines, i, t);
      } else if exists j :: i <= j < |lines| && HeaderWith(lines, j, t) {
        var j :| i <= j < |lines| && HeaderWith(lines, j, t);
        assert i + 1 <= j < |lines| && HeaderWith(lines, j, t);
      }
    }
  }

  /** The header at `j` has a non-empty title that no later header repeats. */
  predicate LastWithTitle(lines: seq<string>, j: int) {
    && 0 <= j < |lines| && IsHeader(lines[j]) && Title(lines[j]) != ""
    && forall k :: j < k < |lines| ==> !HeaderWith(lines, k, Title(lines[j]))
  }

  /** Which titles the loop ends up with, from any intermediate state. */
  lemma {:induction false} SectionsFromKeys(lines: seq<string>, i: nat, cur: string, buf: seq<string>, acc: map<string, string>)
    requires i <= |lines|
    ensures forall t :: t in SectionsFrom(lines, i, cur, buf, acc) <==>
      t in acc || (t == cur && t != "") || (t != "" && HasHeaderFrom(lines, i, t))
    decreases |lines| - i
  {
    if i < |lines| {
      if IsHeader(lines[i]) {
        SectionsFromKeys(lines, i + 1, Title(lines[i]), [], Close(acc, cur, buf));
      } else {
        SectionsFromKeys(lines, i + 1, cur, buf + [lines[i]], acc);
      }
    }
  }

  /** A saved section that no later header reopens keeps its body. */
  lemma {:induction false} SectionsFromKept(lines: seq<string>, i: nat, cur: string, buf: seq<string>, acc: map<string, string>, t: string)
    requires i <= |lines|
    requires t in acc && t != cur
    requires !HasHeaderFrom(lines, i, t)
    ensures t in SectionsFrom(lines, i, cur, buf, acc) && SectionsFrom(lines, i, cur, buf, acc)[t] == acc[t]
    decreases |lines| - i
  {
    if i < |lines| {
      if IsHeader(lines[i]) {
        SectionsFromKept(lines, i + 1, Title(lines[i]), [], Close(acc, cur, buf), t);
      } else {
        SectionsFromKept(lines, i + 1, cur, buf + [lines[i]], acc, t);
      }
    }
  }

  /** The open section, if no later header reopens it, gets its lines up to the next header. */
  lemma {:induction false} SectionsFromOpen(lines: seq<string>, i: nat, cur: string, buf: seq<string>, acc: map<string, string>)
    requires i <= |lines|
    requires cur != ""
    requires !HasHeaderFrom(lines, i, cur)
    ensures cur in SectionsFrom(lines, i, cur, buf, acc)
    ensures SectionsFrom(lines, i, cur, buf, acc)[cur] == Strip(Join(buf + lines[i..NextHeader(lines, i)], "\n"))
    decreases |lines| - i
  {
    if i == |lines| {
      assert buf + lines[i..i] == buf;
    } else if IsHeader(lines[i]) {
      SectionsFromKept(lines, i + 1, Title(lines[i]), [], Close(acc, cur, buf), cur);
      assert buf + lines[i..i] == buf;
    } else {
      SectionsFromOpen(lines, i + 1, cur, buf + [lines[i]], acc);
      var n := NextHeader(lines, i);
      assert n == NextHeader(lines, i + 1);
      assert buf + [lines[i]] + lines[i + 1..n] == buf + lines[i..n];
    }
  }

  /** The last header with a given title decides that section's body. */
  lemma {:induction false} SectionsFromLast(lines: seq<string>, i: nat, cur: string, buf: seq<string>, acc: map<string, string>, j: nat)
    requires i <= j && LastWithTitle(lines, j)
    ensures Title(lines[j]) in SectionsFrom(lines, i, cur, buf, acc)
    ensures SectionsFrom(lines, i, cur, buf, acc)[Title(lines[j])] == Body(lines, j)
    decreases |lines| - i
  {
    if i < j {
      if IsHeader(lines[i]) {
        SectionsFromLast(lines, i + 1, Title(lines[i]), [], Close(acc, cur, buf), j);
      } else {
        SectionsFromLast(lines, i + 1, cur, buf + [lines[i]], acc, j);
      }
    } else {
      HasHeaderFromIff(lines, j + 1, Title(lines[j]));
      SectionsFromOpen(lines, j + 1, Title(lines[j]), [], Close(acc, cur, buf));
      assert [] + lines[j + 1..NextHeader(lines, j + 1)] == lines[j + 1..NextHeader(lines, j + 1)];
    }
  }

  /** The sections of a document: one key per non-empty header title, holding the stripped
      body under the LAST header with that title. Lines before the first header, and lines
      under a header whose title is empty, belong to no section. */
  lemma SectionsCharacterized(lines: seq<string>)
    ensures forall t :: t in Sections(lines) <==> t != "" && exists j :: HeaderWith(lines, j, t)
    ensures forall j :: LastWithTitle(lines, j) ==>
      Title(lines[j]) in Sections(lines) && Sections(lines)[Title(lines[j])] == Body(lines, j)
  {
    SectionsFromKeys(lines, 0, "", [], map[]);
    forall t ensures HasHeaderFrom(lines, 0, t) <==> exists j :: HeaderWith(lines, j, t) {
      HasHeaderFromIff(lines, 0, t);
    }
    forall j | LastWithTitle(lines, j)
      ensures Title(lines[j]) in Sections(lines) && Sections(lines)[Title(lines[j])] == Body(lines, j)
    {
      SectionsFromLast(lines, 0, "", [], map[], j);
    }
  }

  /** A `### ` line is never a section header, so it stays inside the enclosing body. */
  lemma SubheadingIsNotHeader(line: string)
    requires "### " <= line
    ensures !IsHeader(line)
  {
    assert line[2] == '#';
  }

  datatype Parsed = Parsed(frontmatter: Frontmatter, sections: map<string, string>, raw: string)

  /** `_parse_markdown`; `load` is `yaml.safe_load`, whose failure leaves the frontmatter
      empty. */
  method ParseMarkdown(content: string, load: string -> Option<Frontmatter>) returns (r: Parsed)
    ensures r.raw == content
    ensures r.sections == Sections(Split(AfterFrontmatter(content), '\n'))
    ensures FrontmatterEnd(content).None? ==> r.frontmatter == map[]
    ensures FrontmatterEnd(content).Some? ==>
      r.frontmatter == load(content[4..FrontmatterEnd(content).value]).GetOr(map[])
  {
    var fm: Frontmatter := map[];
    var text := content;
    var close := FrontmatterEnd(content);
    if close.Some? {
      var loaded := load(content[4..close.value]);
      if loaded.Some? {
        fm := loaded.value;
      }
      text := content[close.value + 5..];
    }
    assert text == AfterFrontmatter(content);
    var acc := SectionsOfLines(Split(text, '\n'));
    r := Parsed(fm, acc, content);
  }

  /** The section loop of `_parse_markdown`. */
  method SectionsOfLines(lines: seq<string>) returns (acc: map<string, string>)
    ensures acc == Sections(lines)
  {
    var cur := "";
    var buf: seq<string> := [];
    acc := map[];
    for i := 0 to |lines|
      invariant SectionsFrom(lines, i, cur, buf, acc) == Sections(lines)
    {
      var line := lines[i];
      if IsHeader(line) {
        acc := Close(acc, cur, buf);
        cur := Title(line);
        buf := [];
      } else {
        buf := buf + [line];
      }
    }
    acc := Close(acc, cur, buf);
  }

  // ---------------- Section patching ----------------

  /** "## {section}\n", the literal text `re.escape(section)` matches. */
  function SectionHeader(section: string): (h: string)
    ensures |h| >= 4 && h[..3] == "## " && h[|h| - 1] == '\n'
  {
    "## " + section + "\n"
  }

  /** Where the lazy body `(.*?)(?=\n## |\Z)` stops: the first "\n## ", or the end. */
  function BodyEnd(s: string): (e: nat)
    ensures e <= |s|
    ensures e < |s| ==> "\n## " <= s[e..]
  {
    match IndexOf(s, "\n## ")
    case None => |s|
    case Some(e) =>
      assert s[e..][..4] == s[e..e + 4];
      e
  }

  /** The body stops at the first "\n## ". */
  lemma BodyEndSpec(s: string)
    ensures forall k :: 0 <= k < BodyEnd(s) ==> !("\n## " <= s[k..])
  {
    IndexOfSpec(s, "\n## ");
  }

  /** The `replace` flag: the new body, or the old stripped body followed by the addition. */
  datatype Edit = Replace(content: string) | Append(content: string)

  function Replacement(edit: Edit, header: string, body: string): string {
    match edit
    case Replace(c) => header + c + "\n"
    case Append(c) => header + Strip(body) + "\n" + c + "\n"
  }

  /** `re.sub(pattern, repl, s, flags=re.DOTALL)`: every non-overlapping match of
      header-then-body, left to right, is replaced. */
  function SubAll(s: string, header: string, edit: Edit): string
    requires header != ""
    decreases |s|, 1
  {
    match IndexOf(s, header)
    case None => s
    case Some(p) => SubAllFrom(s, header, edit, p)
  }

  /** The substitution once the first match of the header is known to start at `p`. */
  function SubAllFrom(s: string, header: string, edit: Edit, p: nat): string
    requires header != "" && p + |header| <= |s|
    decreases |s|, 0
  {
    var rest := s[p + |header|..];
    var e := BodyEnd(rest);
    s[..p] + Replacement(edit, header, rest[..e]) + SubAll(rest[e..], header, edit)
  }

  /** The new text of an existing, non-empty file, before the timestamp rewrite. */
  function PatchSection(current: string, section: string, edit: Edit): string {
    var h := SectionHeader(section);
    if Contains(current, h) then SubAll(current, h, edit)
    else RStrip(current) + "\n\n" + h + edit.content + "\n"
  }

  /** `update_section`'s new file text: `current` is what `read_workspace` returned. */
  function UpdateSectionText(current: Option<string>, section: string, edit: Edit, timestamp: string): (r: string)
    ensures current.None? || current.value == "" ==> r == "## " + section + "\n" + edit.content + "\n"
    ensures current.Some? && current.value != "" ==>
      r == StampFrontmatter(PatchSection(current.value, section, edit), timestamp)
  {
    if current.None? || current.value == "" then SectionHeader(section) + edit.content + "\n"
    else StampFrontmatter(PatchSection(current.value, section, edit), timestamp)
  }

  /** No occurrence of `sub` starts before index `p` of `s`. */
  predicate NoneBefore(s: string, sub: string, p: nat) {
    forall k :: 0 <= k < p && k <= |s| ==> !(sub <= s[k..])
  }

  lemma {:induction false} IndexOfAt(s: string, sub: string, p: nat)
    requires p + |sub| <= |s| && s[p..p + |sub|] == sub
    requires NoneBefore(s, sub, p)
    ensures IndexOf(s, sub) == Some(p)
    decreases p
  {
    if p == 0 {
      assert sub <= s;
    } else {
      assert s[0..] == s;
      assert !(sub <= s[0..]);
      assert s[1..][p - 1..p - 1 + |sub|] == sub;
      forall k | 0 <= k < p - 1 && k <= |s| - 1
        ensures !(sub <= s[1..][k..])
      {
        assert s[1..][k..] == s[k + 1..];
      }
      IndexOfAt(s[1..], sub, p - 1);
    }
  }

  lemma NotContains(s: string, sub: string)
    requires !Contains(s, sub)
    ensures forall k :: 0 <= k <= |s| ==> !(sub <= s[k..])
  {
    IndexOfSpec(s, sub);
  }

  /** A body without "\n## " ends where the following text starts with "\n## " (or at the
      end of the text). */
  lemma {:induction false} BodyEndAt(body: string, rest: string)
    requires !Contains(body, "\n## ")
    requires rest == [] || "\n## " <= rest
    ensures BodyEnd(body + rest) == |body|
  {
    var s := body + rest;
    NotContains(body, "\n## ");
    forall k | 0 <= k < |body|
      ensures !("\n## " <= s[k..])
    {
      if k + 4 <= |body| {
        assert s[k..][..4] == s[k..k + 4] == body[k..k + 4] == body[k..][..4];
        assert !("\n## " <= body[k..]);
      } else if rest != [] {
        var d := |body| - k;
        assert 1 <= d <= 3 && d < |s[k..]|;
        assert s[k..][d] == rest[0] == '\n';
        assert "\n## "[1] == '#' && "\n## "[2] == '#' && "\n## "[3] == ' ';
        assert "\n## "[d] != s[k..][d];
      }
    }
    if rest != [] {
      assert s[|body|..] == rest;
      IndexOfAt(s, "\n## ", |body|);
    } else {
      assert s == body;
    }
  }

  /** One step of `SubAll`: the first match is replaced and scanning resumes after it. */
  lemma SubAllStep(s: string, h: string, edit: Edit, p: nat)
    requires h != "" && IndexOf(s, h) == Some(p)
    ensures SubAll(s, h, edit) == SubAllFrom(s, h, edit, p)
  {
  }

  /** Patching a text whose header occurs once: the body after it is replaced or extended
      and everything else is kept. */
  lemma SubAllOnce(s: string, h: string, edit: Edit, p: nat, e: nat)
    requires h != "" && IndexOf(s, h) == Some(p)
    requires p + |h| + e <= |s| && BodyEnd(s[p + |h|..]) == e
    requires IndexOf(s[p + |h| + e..], h).None?
    ensures SubAll(s, h, edit) == s[..p] + Replacement(edit, h, s[p + |h|..p + |h| + e]) + s[p + |h| + e..]
  {
    SubAllStep(s, h, edit, p);
    var rest := s[p + |h|..];
    assert rest[..e] == s[p + |h|..p + |h| + e];
    assert rest[e..] == s[p + |h| + e..];
  }

  /** `h` first occurs right after `before` when no occurrence lies in `before` or straddles
      into `h` itself, i.e. none occurs in `before` followed by all of `h` but its last
      character. */
  lemma FirstAt(before: string, h: string, after: string)
    requires h != [] && !Contains(before + h[..|h| - 1], h)
    ensures IndexOf(before + h + after, h) == Some(|before|)
  {
    var s := before + h + after;
    var t := before + h[..|h| - 1];
    assert h == h[..|h| - 1] + h[|h| - 1..];
    assert s == t + (h[|h| - 1..] + after);
    SplitConcat(t, h[|h| - 1..] + after);
    NotContains(t, h);
    forall k | 0 <= k < |before| && k <= |s|
      ensures !(h <= s[k..])
    {
      assert !(h <= t[k..]);
      assert t[k..][..|h|] == s[k..][..|h|];
    }
    assert s[|before|..|before| + |h|] == h;
    IndexOfAt(s, h, |before|);
  }

  /** `PatchSection` on a text whose section header first occurs at `p`, whose body after
      it has length `e`, and which has no later occurrence of the header. */
  lemma PatchSectionOnce(s: string, section: string, h: string, edit: Edit, p: nat, e: nat)
    requires h == SectionHeader(section)
    requires IndexOf(s, h) == Some(p)
    requires p + |h| + e <= |s| && BodyEnd(s[p + |h|..]) == e
    requires IndexOf(s[p + |h| + e..], h).None?
    ensures PatchSection(s, section, edit) == s[..p] + Replacement(edit, h, s[p + |h|..p + |h| + e]) + s[p + |h| + e..]
  {
    assert Contains(s, h);
    SubAllOnce(s, h, edit, p, e);
  }

  lemma ConcatSlices(a: string, b: string, c: string, d: string)
    ensures var s := a + b + c + d;
      s[..|a|] == a && s[|a| + |b|..|a| + |b| + |c|] == c && s[|a| + |b|..] == c + d && s[|a| + |b| + |c|..] == d
  {
    var s := a + b + c + d;
    assert s == (a + b) + (c + d);
    SplitConcat(a + b, c + d);
    SplitConcat(a, b);
    SplitConcat(c, d);
  }

  /** When the header's first occurrence is right after `before`, its body runs up to the
      next `## ` header (or the end), and the header does not occur again, replacing puts
      the new content in place of the body and appending puts it after the stripped old
      body; every other character is kept. */
  lemma PatchExisting(before: string, section: string, body: string, rest: string, edit: Edit)
    requires !Contains(before + "## " + section, SectionHeader(section))
    requires !Contains(body, "\n## ")
    requires rest == [] || "\n## " <= rest
    requires !Contains(rest, SectionHeader(section))
    ensures PatchSection(before + SectionHeader(section) + body + rest, section, edit)
      == before + Replacement(edit, SectionHeader(section), body) + rest
  {
    var h := SectionHeader(section);
    var open := "## " + section;
    assert h[..|h| - 1] == open;
    assert before + open == before + "## " + section;
    SubAllExisting(before, h, body, rest, open, edit);
  }

  /** The substitution on a text whose header `h` first occurs right after `before`, followed
      by a body that runs up to the next `## ` header (or the end) and a rest without `h`. */
  lemma SubAllExisting(before: string, h: string, body: string, rest: string, open: string, edit: Edit)
    requires h != [] && h[..|h| - 1] == open
    requires !Contains(before + open, h) && !Contains(rest, h)
    requires !Contains(body, "\n## ")
    requires rest == [] || "\n## " <= rest
    ensures Contains(before + h + body + rest, h)
    ensures SubAll(before + h + body + rest, h, edit) == before + Replacement(edit, h, body) + rest
  {
    ExistingLayout(before, h, body, rest, open);
    BodyEndAt(body, rest);
    SubAllAt(before + h + body + rest, h, before, body, rest, edit);
  }

  lemma SplitAt(r: string, a: string, b: string)
    requires r == a + b
    ensures r[..|a|] == a && r[|a|..] == b
  {
    SplitConcat(a, b);
  }

  /** The substitution on a text `s` laid out as `before`, `h`, `body`, `rest`. */
  lemma SubAllAt(s: string, h: string, before: string, body: string, rest: string, edit: Edit)
    requires h != [] && IndexOf(s, h) == Some(|before|) && |before| + |h| <= |s|
    requires s[..|before|] == before && s[|before| + |h|..] == body + rest
    requires BodyEnd(body + rest) == |body| && IndexOf(rest, h).None?
    ensures SubAll(s, h, edit) == before + Replacement(edit, h, body) + rest
  {
    var p := |before|;
    SubAllStep(s, h, edit, p);
    var r := s[p + |h|..];
    SplitAt(r, body, rest);
    assert BodyEnd(r) == |body|;
    assert SubAll(rest, h, edit) == rest;
    assert SubAllFrom(s, h, edit, p) == before + Replacement(edit, h, body) + rest;
  }

  /** Where the pieces of `before + h + body + rest` lie, and that `h` first occurs after
      `before` and not in `rest`. */
  lemma ExistingLayout(before: string, h: string, body: string, rest: string, open: string)
    requires h != [] && h[..|h| - 1] == open
    requires !Contains(before + open, h) && !Contains(rest, h)
    ensures var s := before + h + body + rest; var p, e := |before|, |body|;
      && IndexOf(s, h) == Some(p) && p + |h| + e <= |s|
      && s[..p] == before && s[p + |h|..] == body + rest
      && s[p + |h|..p + |h| + e] == body && s[p + |h| + e..] == rest
      && IndexOf(rest, h).None?
  {
    assert before + h + body + rest == before + h + (body + rest);
    FirstAt(before, h, body + rest);
    ConcatSlices(before, h, body, rest);
  }

  /** A missing section goes after the right-stripped text, separated by one blank line;
      the text before it is otherwise unchanged. */
  lemma PatchMissing(current: string, section: string, edit: Edit)
    requires !Contains(current, SectionHeader(section))
    ensures PatchSection(current, section, edit) == RStrip(current) + "\n\n## " + section + "\n" + edit.content + "\n"
    ensures RStrip(current) <= current
  {
    assert RStrip(current) <= current by {
      RStripSpec(current);
    }
    var r := RStrip(current);
    var h := SectionHeader(section);
    calc {
      PatchSection(current, section, edit);
      r + "\n\n" + h + edit.content + "\n";
      { assert "\n\n" + h == "\n\n## " + section + "\n"; }
      r + "\n\n## " + section + "\n" + edit.content + "\n";
    }
  }

  // ---------------- Frontmatter timestamp ----------------

  const LastUpdated: string := "last_updated:"

  /** The largest index in [lo, |s|) not holding a newline. */
  function LastNonNewline(s: string, lo: nat): (r: Option<nat>)
    requires lo <= |s|
    ensures r.Some? ==> lo <= r.value < |s| && s[r.value] != '\n'
    decreases |s|
  {
    if |s| == lo then None
    else if s[|s| - 1] != '\n' then Some(|s| - 1)
    else LastNonNewline(s[..|s| - 1], lo)
  }

  /** Only newlines follow the index found, and `None` means there are only newlines. */
  lemma {:induction false} LastNonNewlineSpec(s: string, lo: nat)
    requires lo <= |s|
    ensures var r := LastNonNewline(s, lo);
      r.Some? ==> forall k :: r.value < k < |s| ==> s[k] == '\n'
    ensures LastNonNewline(s, lo).None? ==> forall k :: lo <= k < |s| ==> s[k] == '\n'
    decreases |s|
  {
    if |s| != lo && s[|s| - 1] == '\n' {
      LastNonNewlineSpec(s[..|s| - 1], lo);
    }
  }

  /** Left-stripping the text from `q` on leaves it starting at a non-space character. */
  lemma LStripStart(s: string, q: nat)
    requires q <= |s|
    ensures var start := |s| - |LStrip(s[q..])|;
      q <= start && (start < |s| ==> !IsSpace(s[start]))
  {
    LStripSpec(s[q..]);
    var start := |s| - |LStrip(s[q..])|;
    if start < |s| {
      assert s[start] == LStrip(s[q..])[0];
    }
  }

  /** Where `[^\n]+` matches once `last_updated:` has matched up to index `q`, as the span
      [start, end) it replaces. The greedy `\s*` takes the whole whitespace run (newlines
      included) and `[^\n]+` the rest of that line; when the run reaches the end of the text
      the regex backs off to its last non-newline character, and without one there is no
      match. */
  function ValueSpan(s: string, q: nat): (r: Option<(nat, nat)>)
    requires q <= |s|
    ensures r.Some? ==> q <= r.value.0 < r.value.1 <= |s|
  {
    var start := |s| - |LStrip(s[q..])|;
    if start < |s| then
      LStripStart(s, q);
      assert IsSpace('\n');
      Some((start, start + FindChar(s[start..], '\n')))
    else
      match LastNonNewline(s, q)
      case None => None
      case Some(b) => Some((b, b + 1))
  }

  /** `re.sub(r'(last_updated:\s*)[^\n]+', r'\1"<timestamp>"', s)`: every match, scanning
      left to right, has its value replaced by the quoted timestamp. */
  function StampAll(s: string, timestamp: string): string
    decreases |s|, 1
  {
    match IndexOf(s, LastUpdated)
    case None => s
    case Some(p) => StampFrom(s, timestamp, p)
  }

  /** The substitution once the first occurrence of the key is known to start at `p`. */
  function StampFrom(s: string, timestamp: string, p: nat): string
    requires p + |LastUpdated| <= |s|
    decreases |s|, 0
  {
    match ValueSpan(s, p + |LastUpdated|)
    case None => s[..p + 1] + StampAll(s[p + 1..], timestamp)
    case Some(span) => s[..span.0] + "\"" + timestamp + "\"" + StampAll(s[span.1..], timestamp)
  }

  /** `_update_frontmatter_timestamp`, with the ISO timestamp passed in. */
  function StampFrontmatter(s: string, timestamp: string): (r: string)
    ensures !("---\n" <= s) ==> r == s
  {
    if "---\n" <= s then StampAll(s, timestamp) else s
  }

  lemma NoStampWithoutKey(s: string, timestamp: string)
    requires !Contains(s, LastUpdated)
    ensures StampFrontmatter(s, timestamp) == s
    ensures StampAll(s, timestamp) == s
  {
    var r := IndexOf(s, LastUpdated);
  }

  lemma StampAllStep(s: string, timestamp: string, p: nat)
    requires IndexOf(s, LastUpdated) == Some(p)
    ensures StampAll(s, timestamp) == StampFrom(s, timestamp, p)
  {
  }

  lemma StampFromSpan(s: string, timestamp: string, p: nat, q: nat, r: nat, t: nat)
    requires q == p + |LastUpdated| && q <= |s| && ValueSpan(s, q) == Some((r, t))
    ensures StampFrom(s, timestamp, p) == s[..r] + "\"" + timestamp + "\"" + StampAll(s[t..], timestamp)
  {
  }

  /** The frontmatter rewrite of a text whose only match is at `p`, with value span [r, t). */
  lemma StampOnce(s: string, timestamp: string, p: nat, q: nat, r: nat, t: nat)
    requires "---\n" <= s && IndexOf(s, LastUpdated) == Some(p)
    requires q == p + |LastUpdated| && q <= |s| && ValueSpan(s, q) == Some((r, t))
    requires !Contains(s[t..], LastUpdated)
    ensures StampFrontmatter(s, timestamp) == s[..r] + "\"" + timestamp + "\"" + s[t..]
  {
    StampAllStep(s, timestamp, p);
    StampFromSpan(s, timestamp, p, q, r, t);
    NoStampWithoutKey(s[t..], timestamp);
  }

  /** The value span after a key followed by blanks and a value ending at a newline. */
  lemma ValueSpanAt(s: string, key: string, blanks: string, value: string, rest: string)
    requires s == key + (blanks + (value + rest))
    requires forall k :: 0 <= k < |blanks| ==> IsSpace(blanks[k])
    requires value != [] && !IsSpace(value[0]) && '\n' !in value
    requires rest != [] && rest[0] == '\n'
    ensures ValueSpan(s, |key|) == Some((|key| + |blanks|, |key| + |blanks| + |value|))
  {
    SplitConcat(key, blanks + (value + rest));
    LStripPast(blanks, value + rest);
    assert (value + rest)[|value|] == '\n';
    FindCharAt(value + rest, '\n', |value|);
    SplitConcat(blanks, value + rest);
    assert s[|key| + |blanks|..] == value + rest;
  }

  lemma LStripPast(blanks: string, rest: string)
    requires forall k :: 0 <= k < |blanks| ==> IsSpace(blanks[k])
    requires rest != [] && !IsSpace(rest[0])
    ensures LStrip(blanks + rest) == rest
    decreases |blanks|
  {
    if blanks != [] {
      assert (blanks + rest)[1..] == blanks[1..] + rest;
      LStripPast(blanks[1..], rest);
    } else {
      assert blanks + rest == rest;
    }
  }

}
