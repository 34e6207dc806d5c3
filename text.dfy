/** The handful of Python `str` operations the workspace code relies on, with Python's
    semantics: `split` on one character, `join`, `strip`/`lstrip`/`rstrip` (Unicode
    whitespace as `str.isspace` defines it), `startswith`, the `in` substring test,
    slicing `s[:n]`, `str(int)` and `int(str)`. */
module Text {
  import opened Wrappers

  /** The characters for which Python's `str.isspace()` is true. */
  predicate IsSpace(c: char) {
    || ('\U{0009}' <= c <= '\U{000D}')
    || ('\U{001C}' <= c <= '\U{001F}')
    || c == ' ' || c == '\U{0085}' || c == '\U{00A0}' || c == '\U{1680}'
    || ('\U{2000}' <= c <= '\U{200A}')
    || c == '\U{2028}' || c == '\U{2029}' || c == '\U{202F}' || c == '\U{205F}'
    || c == '\U{3000}'
  }

  /** ASCII decimal digit. */
  predicate IsDigit(c: char) { '0' <= c <= '9' }

  /** `s.lstrip()` */
  function LStrip(s: string): (r: string)
    ensures |r| <= |s|
  {
    if s != [] && IsSpace(s[0]) then LStrip(s[1..]) else s
  }

  /** `lstrip` removes exactly the leading run of whitespace. */
  lemma {:induction false} LStripSpec(s: string)
    ensures var r := LStrip(s);
      && r == s[|s| - |r|..]
      && (r == [] || !IsSpace(r[0]))
      && (forall i :: 0 <= i < |s| - |r| ==> IsSpace(s[i]))
    decreases |s|
  {
    if s != [] && IsSpace(s[0]) {
      LStripSpec(s[1..]);
    }
  }

  /** `s.rstrip()` */
  function RStrip(s: string): (r: string)
    ensures |r| <= |s|
  {
    if s != [] && IsSpace(s[|s| - 1]) then RStrip(s[..|s| - 1]) else s
  }

  /** `rstrip` removes exactly the trailing run of whitespace. */
  lemma {:induction false} RStripSpec(s: string)
    ensures var r := RStrip(s);
      && r == s[..|r|]
      && (r == [] || !IsSpace(r[|r| - 1]))
      && (forall i :: |r| <= i < |s| ==> IsSpace(s[i]))
    decreases |s|
  {
    if s != [] && IsSpace(s[|s| - 1]) {
      RStripSpec(s[..|s| - 1]);
    }
  }

  /** `s.strip()` */
  function Strip(s: string): string {
    LStrip(RStrip(s))
  }

  /** `s.lstrip(chars)`: drop leading characters that belong to `cs`. */
  function LStripChars(s: string, cs: set<char>): (r: string)
    ensures |r| <= |s|
  {
    if s != [] && s[0] in cs then LStripChars(s[1..], cs) else s
  }

  /** `sub in s`, Python's substring test (the empty string is in every string). */
  function Contains(s: string, sub: string): bool {
    if sub <= s then true
    else if s == [] then false
    else Contains(s[1..], sub)
  }

  /** `s.find(sub)` as an option: the first index at which `sub` occurs. */
  function IndexOf(s: string, sub: string): (r: Option<nat>)
    ensures r.Some? ==> r.value + |sub| <= |s| && s[r.value..r.value + |sub|] == sub
    ensures r.Some? <==> Contains(s, sub)
  {
    if sub <= s then Some(0)
    else if s == [] then None
    else
      match IndexOf(s[1..], sub)
      case None => None
      case Some(i) =>
        assert s[1..][i..i + |sub|] == s[i + 1..i + 1 + |sub|];
        Some(i + 1)
  }

  /** `IndexOf` finds the first occurrence, and `None` means there is none at all. */
  lemma {:induction false} IndexOfSpec(s: string, sub: string)
    ensures IndexOf(s, sub).Some? ==> forall k :: 0 <= k < IndexOf(s, sub).value ==> !(sub <= s[k..])
    ensures IndexOf(s, sub).None? ==> forall k :: 0 <= k <= |s| ==> !(sub <= s[k..])
  {
    if !(sub <= s) && s != [] {
      IndexOfSpec(s[1..], sub);
      assert forall k :: 1 <= k <= |s| ==> s[1..][k - 1..] == s[k..];
    }
  }

  /** The first index of character `c` in `s`, or `|s|` when there is none. */
  function FindChar(s: string, c: char): (r: nat)
    ensures r <= |s|
    ensures r < |s| ==> s[r] == c
    ensures forall k :: 0 <= k < r ==> s[k] != c
  {
    if s == [] then 0
    else if s[0] == c then 0
    else 1 + FindChar(s[1..], c)
  }

  /** `s.split(c)` for a one-character separator: never empty, and "" splits to [""]. */
  function Split(s: string, c: char): (parts: seq<string>)
    ensures |parts| >= 1
    ensures forall i :: 0 <= i < |parts| ==> c !in parts[i]
    decreases |s|
  {
    var i := FindChar(s, c);
    if i == |s| then [s] else [s[..i]] + Split(s[i + 1..], c)
  }

  /** `sep.join(parts)` */
  function Join(parts: seq<string>, sep: string): string {
    if |parts| == 0 then ""
    else if |parts| == 1 then parts[0]
    else parts[0] + sep + Join(parts[1..], sep)
  }

  /** `s[:n]` */
  function Take(s: string, n: nat): (r: string)
    ensures |r| == if n <= |s| then n else |s|
    ensures r <= s
  {
    if n <= |s| then s[..n] else s
  }

  /** The characters of `s` that `keep` accepts, in order (`''.join(filter(...))`). */
  function Filter(s: string, keep: char -> bool): (r: string)
    ensures |r| <= |s|
    ensures forall i :: 0 <= i < |r| ==> keep(r[i])
  {
    if s == [] then []
    else (if keep(s[0]) then [s[0]] else []) + Filter(s[1..], keep)
  }

  /** `str(n)` for a natural number. */
  function NatToString(n: nat): (r: string)
    ensures |r| >= 1
    ensures forall i :: 0 <= i < |r| ==> IsDigit(r[i])
  {
    var d := ['0' + (n % 10) as char];
    if n < 10 then d else NatToString(n / 10) + d
  }

  /** `str(i)` for any integer. */
  function IntToString(i: int): string {
    if i < 0 then "-" + NatToString(-i) else NatToString(i)
  }

  /** The value of a string of ASCII digits. */
  function DigitsValue(s: string): nat
    requires forall i :: 0 <= i < |s| ==> IsDigit(s[i])
  {
    if s == [] then 0
    else
      assert IsDigit(s[|s| - 1]);
      10 * DigitsValue(s[..|s| - 1]) + (s[|s| - 1] as int - '0' as int)
  }

  /** Digit groups separated by single underscores, as Python's `int()` accepts them. */
  predicate IsDigitGroups(s: string) {
    && s != [] && IsDigit(s[0]) && IsDigit(s[|s| - 1])
    && (forall i :: 0 <= i < |s| ==> IsDigit(s[i]) || s[i] == '_')
    && (forall i :: 0 <= i < |s| - 1 && s[i] == '_' ==> s[i + 1] != '_')
  }

  /** Python's `int(s)` on ASCII input: surrounding whitespace, an optional sign, digit
      groups with single underscores between them; anything else raises ValueError (None). */
  function ParseInt(s: string): (r: Option<int>)
    ensures r.Some? ==> Strip(s) != []
  {
    var t := Strip(s);
    if t == [] then None
    else
      var sign := if t[0] == '-' then -1 else 1;
      var body := if t[0] == '-' || t[0] == '+' then t[1..] else t;
      if !IsDigitGroups(body) then None
      else Some(sign * DigitsValue(Filter(body, IsDigit)))
  }

  /** Taking a concatenation apart again. */
  lemma SplitConcat(a: string, b: string)
    ensures (a + b)[..|a|] == a && (a + b)[|a|..] == b
  {
  }

  lemma {:induction false} SplitJoin(s: string, c: char)
    ensures Join(Split(s, c), [c]) == s
    decreases |s|
  {
    var i := FindChar(s, c);
    if i < |s| {
      SplitJoin(s[i + 1..], c);
      var rest := Split(s[i + 1..], c);
      assert Split(s, c) == [s[..i]] + rest;
      assert s == s[..i] + [c] + s[i + 1..];
    }
  }

  lemma {:induction false} JoinSplit(parts: seq<string>, c: char)
    requires |parts| >= 1
    requires forall i :: 0 <= i < |parts| ==> c !in parts[i]
    ensures Split(Join(parts, [c]), c) == parts
    decreases |parts|
  {
    if |parts| == 1 {
      assert FindChar(parts[0], c) == |parts[0]|;
    } else {
      var s := Join(parts, [c]);
      var rest := Join(parts[1..], [c]);
      assert s == parts[0] + [c] + rest;
      assert s[..|parts[0]|] == parts[0];
      assert FindChar(s, c) == |parts[0]| by {
        FindCharAt(s, c, |parts[0]|);
      }
      assert s[|parts[0]| + 1..] == rest;
      JoinSplit(parts[1..], c);
    }
  }

  lemma {:induction false} FindCharAt(s: string, c: char, k: nat)
    requires k < |s| && s[k] == c
    requires forall j :: 0 <= j < k ==> s[j] != c
    ensures FindChar(s, c) == k
    decreases k
  {
    if k > 0 {
      FindCharAt(s[1..], c, k - 1);
    }
  }

  /** A string cannot contain a text holding a character that the string lacks. */
  lemma CharRulesOut(s: string, sub: string, ch: char)
    requires ch in sub && ch !in s
    ensures !Contains(s, sub)
  {
  }

  /** A text shorter than `sub` cannot contain it. */
  lemma {:induction false} ShortNotContains(s: string, sub: string)
    requires |s| < |sub|
    ensures !Contains(s, sub)
    decreases |s|
  {
    if s != [] {
      ShortNotContains(s[1..], sub);
    }
  }

  /** An occurrence at a known index makes `sub in s` true. */
  lemma {:induction false} ContainsAt(s: string, sub: string, k: nat)
    requires k + |sub| <= |s| && s[k..k + |sub|] == sub
    ensures Contains(s, sub)
    decreases k
  {
    if k > 0 && !(sub <= s) {
      assert s[1..][k - 1..k - 1 + |sub|] == sub;
      ContainsAt(s[1..], sub, k - 1);
    }
  }

  /** `lstrip` keeps no character the text lacks. */
  lemma {:induction false} LStripOmits(s: string, ch: char)
    requires ch !in s
    ensures ch !in LStrip(s)
    decreases |s|
  {
    if s != [] && IsSpace(s[0]) {
      assert forall k :: 0 <= k < |s| - 1 ==> s[1..][k] == s[k + 1];
      LStripOmits(s[1..], ch);
    }
  }

  /** `rstrip` keeps no character the text lacks. */
  lemma {:induction false} RStripOmits(s: string, ch: char)
    requires ch !in s
    ensures ch !in RStrip(s)
    decreases |s|
  {
    if s != [] && IsSpace(s[|s| - 1]) {
      assert forall k :: 0 <= k < |s| - 1 ==> s[..|s| - 1][k] == s[k];
      RStripOmits(s[..|s| - 1], ch);
    }
  }

  lemma StripOmits(s: string, ch: char)
    requires ch !in s
    ensures ch !in Strip(s)
  {
    RStripOmits(s, ch);
    LStripOmits(RStrip(s), ch);
  }

  /** The parts of a split hold no character the text lacks. */
  lemma {:induction false} SplitOmits(s: string, c: char, ch: char)
    requires ch !in s
    ensures forall i :: 0 <= i < |Split(s, c)| ==> ch !in Split(s, c)[i]
    decreases |s|
  {
    var i := FindChar(s, c);
    if i < |s| {
      assert forall k :: 0 <= k < i ==> s[..i][k] == s[k];
      var rest := s[i + 1..];
      assert forall k :: 0 <= k < |rest| ==> rest[k] == s[i + 1 + k];
      SplitOmits(s[i + 1..], c, ch);
    }
  }

  /** A text with no surrounding whitespace is its own `strip()`. */
  lemma StripBare(s: string)
    requires s != [] && !IsSpace(s[0]) && !IsSpace(s[|s| - 1])
    ensures Strip(s) == s
  {
    assert RStrip(s) == s;
  }

  /** Keeping the digits of a string of digits keeps all of it. */
  lemma {:induction false} FilterDigits(s: string)
    requires forall i :: 0 <= i < |s| ==> IsDigit(s[i])
    ensures Filter(s, IsDigit) == s
  {
    if s != [] {
      FilterDigits(s[1..]);
    }
  }

  /** The digits of `str(n)` are worth `n`. */
  lemma {:induction false} DigitsValueOfString(n: nat)
    ensures DigitsValue(NatToString(n)) == n
  {
    var s := NatToString(n);
    var d := ['0' + (n % 10) as char];
    if n < 10 {
      assert s == d && s[..0] == [];
    } else {
      DigitsValueOfString(n / 10);
      assert s == NatToString(n / 10) + d;
      assert s[..|s| - 1] == NatToString(n / 10);
    }
  }

  /** A run of digits is one digit group. */
  lemma DigitsAreGroups(s: string)
    requires s != [] && forall i :: 0 <= i < |s| ==> IsDigit(s[i])
    ensures IsDigitGroups(s)
  {
  }

  /** `int()` of a bare run of digits. */
  lemma ParseDigits(digits: string)
    requires digits != [] && forall i :: 0 <= i < |digits| ==> IsDigit(digits[i])
    ensures ParseInt(digits) == Some(DigitsValue(digits))
  {
    assert IsDigit(digits[0]) && IsDigit(digits[|digits| - 1]);
    StripBare(digits);
    DigitsAreGroups(digits);
    FilterDigits(digits);
  }

  /** `int()` of a minus sign followed by a run of digits. */
  lemma ParseNegative(t: string, digits: string)
    requires digits != [] && forall i :: 0 <= i < |digits| ==> IsDigit(digits[i])
    requires t == "-" + digits
    ensures ParseInt(t) == Some(-(DigitsValue(digits) as int))
  {
    NegativeLayout(t, digits);
  }

  /** What `int()` looks at in a minus sign followed by a run of digits. */
  lemma NegativeLayout(t: string, digits: string)
    requires digits != [] && forall i :: 0 <= i < |digits| ==> IsDigit(digits[i])
    requires t == "-" + digits
    ensures Strip(t) == t && t != [] && t[0] == '-' && t[1..] == digits
    ensures IsDigitGroups(digits) && Filter(digits, IsDigit) == digits
  {
    assert t[|t| - 1] == digits[|digits| - 1];
    assert IsDigit(digits[|digits| - 1]);
    StripBare(t);
    assert t[1..] == digits;
    DigitsAreGroups(digits);
    FilterDigits(digits);
  }

  /** `int(str(i)) == i` */
  lemma ParseIntRoundTrip(i: int)
    ensures ParseInt(IntToString(i)) == Some(i)
  {
    var n: nat := if i < 0 then -i else i;
    var digits := NatToString(n);
    DigitsValueOfString(n);
    if i < 0 {
      ParseNegative(IntToString(i), digits);
    } else {
      ParseDigits(digits);
    }
  }

  /** `s.split('(')[0]` */
  function BeforeParen(s: string): (r: string)
    ensures r <= s && '(' !in r
    ensures '(' !in s ==> r == s
  {
    var i := FindChar(s, '(');
    assert forall k | 0 <= k < i :: s[..i][k] == s[k];
    s[..i]
  }

  lemma BeforeParenAt(a: string, b: string)
    requires '(' !in a
    ensures BeforeParen(a + "(" + b) == a
  {
    var s := a + "(" + b;
    assert s[|a|] == '(';
  }

  /** `strip` keeps a contiguous part of its argument. */
  lemma StripWithin(t: string)
    ensures forall ch | ch in Strip(t) :: ch in t
  {
    RStripSpec(t);
    LStripSpec(RStrip(t));
  }

  /** A join holds no character that neither its parts nor its separator hold. */
  lemma {:induction false} JoinOmits(parts: seq<string>, sep: string, ch: char)
    requires forall i :: 0 <= i < |parts| ==> ch !in parts[i]
    requires ch !in sep
    ensures ch !in Join(parts, sep)
    decreases |parts|
  {
    if |parts| > 1 {
      JoinOmits(parts[1..], sep, ch);
    }
  }
}
