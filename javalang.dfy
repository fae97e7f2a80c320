/** The parts of java.lang the services rely on: 32-bit `int` arithmetic,
    `String.trim`, `String.length` (UTF-16 code units) and the line
    terminators that the regular-expression `.` refuses, stated exactly; and
    `String.equalsIgnoreCase`, exact whenever one side is ASCII. */
module JavaLang {

  const MinInt: int := -0x8000_0000
  const MaxInt: int := 0x7fff_ffff

  /** A Java `int` (the unboxed value of an `Integer`). */
  type Int32 = x: int | MinInt <= x <= MaxInt

  /** Two's-complement wrap-around of a mathematical integer. */
  function Wrap32(x: int): (r: Int32)
    ensures MinInt <= x <= MaxInt ==> r == x
    ensures (r - x) % 0x1_0000_0000 == 0
  {
    (x - MinInt) % 0x1_0000_0000 + MinInt
  }

  /** Java `a - b` on `int`. */
  function Sub32(a: Int32, b: Int32): (r: Int32)
    ensures MinInt <= a - b <= MaxInt ==> r == a - b
    ensures (r - (a - b)) % 0x1_0000_0000 == 0
    ensures a - b > MaxInt ==> r == a - b - 0x1_0000_0000
    ensures a - b < MinInt ==> r == a - b + 0x1_0000_0000
  {
    Wrap32(a - b)
  }

  // ---------------------------------------------------------------- trim

  /** `String.trim` removes every leading and trailing char at or below U+0020. */
  predicate IsTrimmable(c: char) {
    c <= ' '
  }

  predicate IsBlank(s: string) {
    forall k :: 0 <= k < |s| ==> IsTrimmable(s[k])
  }

  /** The number of trimmable chars at the front of `s`. */
  function LeadingBlanks(s: string): (n: nat)
    ensures n <= |s|
    ensures IsBlank(s[..n])
    ensures n < |s| ==> !IsTrimmable(s[n])
  {
    if s == [] || !IsTrimmable(s[0]) then 0
    else
      var n := 1 + LeadingBlanks(s[1..]);
      assert s[..n] == [s[0]] + s[1..][..n - 1];
      n
  }

  /** The number of trimmable chars at the back of `s`. */
  function TrailingBlanks(s: string): (n: nat)
    ensures n <= |s|
    ensures IsBlank(s[|s| - n..])
    ensures n < |s| ==> !IsTrimmable(s[|s| - 1 - n])
  {
    if s == [] || !IsTrimmable(s[|s| - 1]) then 0
    else
      var n := 1 + TrailingBlanks(s[..|s| - 1]);
      assert s[|s| - n..] == s[..|s| - 1][|s| - n..] + [s[|s| - 1]];
      n
  }

  /** `String.trim`: the first loop advances `st`, the second stops at `st`. */
  function Trim(s: string): (r: string)
    ensures |r| <= |s|
    ensures r == [] || (!IsTrimmable(r[0]) && !IsTrimmable(r[|r| - 1]))
    ensures r == [] <==> IsBlank(s)
    ensures exists i :: 0 <= i <= |s| - |r| && s[i..i + |r|] == r
                         && IsBlank(s[..i]) && IsBlank(s[i + |r|..])
  {
    var lead := LeadingBlanks(s);
    if lead == |s| then
      assert s[..lead] == s;
      assert s[0..0] == [] && s[0..] == s;
      []
    else
      var trail := TrailingBlanks(s);
      assert forall k :: |s| - trail <= k < |s| ==> IsTrimmable(s[k]) by {
        assert forall k :: |s| - trail <= k < |s| ==> s[k] == s[|s| - trail..][k - (|s| - trail)];
      }
      var r := s[lead..|s| - trail];
      assert !IsBlank(s) by { assert !IsTrimmable(s[lead]); }
      assert s[lead..lead + |r|] == r;
      r
  }

  lemma {:induction false} TrimIdempotent(s: string)
    ensures Trim(Trim(s)) == Trim(s)
  {
    var t := Trim(s);
    if t != [] {
      assert LeadingBlanks(t) == 0;
      assert TrailingBlanks(t) == 0;
      assert t[0..|t| - 0] == t;
    }
  }

  // ---------------------------------------------------------------- length

  /** `String.length()`: chars outside the Basic Multilingual Plane take two
      UTF-16 code units. */
  function Utf16Length(s: string): (n: nat)
    ensures |s| <= n <= 2 * |s|
    ensures (forall k :: 0 <= k < |s| ==> s[k] as int <= 0xFFFF) ==> n == |s|
  {
    if s == [] then 0
    else (if s[0] as int > 0xFFFF then 2 else 1) + Utf16Length(s[1..])
  }

  // ---------------------------------------------------------------- case

  /** A representative for comparing chars ignoring case, exact when one of
      the two chars is ASCII. ASCII letters fold to upper case; U+0131
      (dotless i), U+0130 (capital I with dot), U+017F (long s) and U+212A
      (Kelvin sign) are the only non-ASCII chars that Java's case-insensitive
      comparison matches with an ASCII char, and they fold to that ASCII
      letter. Every other char folds to itself, so two non-ASCII chars that
      differ only in case (such as U+00E9 and U+00C9) are kept apart. */
  function Fold(c: char): (f: char)
    ensures 'a' <= c <= 'z' ==> f as int == c as int - 32
    ensures c as int < 128 && !('a' <= c <= 'z') ==> f == c
    ensures c == '\U{131}' || c == '\U{130}' ==> f == 'I'
    ensures c == '\U{17F}' ==> f == 'S'
    ensures c == '\U{212A}' ==> f == 'K'
    ensures c as int >= 128 && f as int < 128 ==> c in {'\U{131}', '\U{130}', '\U{17F}', '\U{212A}'}
    ensures c as int >= 128 && c !in {'\U{131}', '\U{130}', '\U{17F}', '\U{212A}'} ==> f == c
  {
    if 'a' <= c <= 'z' then (c as int - 32) as char
    else if c == '\U{131}' || c == '\U{130}' then 'I'
    else if c == '\U{17F}' then 'S'
    else if c == '\U{212A}' then 'K'
    else c
  }

  /** `String.equalsIgnoreCase`, char by char, under `Fold`. */
  predicate EqualsIgnoreCase(a: string, b: string) {
    |a| == |b| && forall k :: 0 <= k < |a| ==> Fold(a[k]) == Fold(b[k])
  }

  /** Comparing ignoring case is an equivalence: reflexive, symmetric and
      transitive, and it never equates strings of different lengths. */
  lemma EqualsIgnoreCaseEquivalence(a: string, b: string, c: string)
    ensures EqualsIgnoreCase(a, a)
    ensures EqualsIgnoreCase(a, b) ==> EqualsIgnoreCase(b, a) && |a| == |b|
    ensures EqualsIgnoreCase(a, b) && EqualsIgnoreCase(b, c) ==> EqualsIgnoreCase(a, c)
  {
  }

  /** ASCII letters are equal ignoring case exactly when they are the same
      letter in either case. */
  lemma FoldAsciiLetters(c: char, d: char)
    requires ('a' <= c <= 'z' || 'A' <= c <= 'Z') && ('a' <= d <= 'z' || 'A' <= d <= 'Z')
    ensures Fold(c) == Fold(d) <==> c == d || c as int - d as int == 32 || d as int - c as int == 32
  {
  }

  // ---------------------------------------------------------------- regex

  /** The chars that `.` does not match in a `java.util.regex.Pattern`
      compiled without DOTALL or UNIX_LINES. */
  predicate IsLineTerminator(c: char) {
    c == '\n' || c == '\r' || c == '\U{85}' || c == '\U{2028}' || c == '\U{2029}'
  }
}
