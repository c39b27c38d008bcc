/** String and optional-value helpers shared by the extension, the backend and the demo page.
    They model the few standard-library operations the sources rely on: slicing a prefix,
    stripping whitespace, UTF-16 lengths, ASCII upper-casing, suffix tests and JavaScript's `a || b` on strings. */
module Common {

  datatype Option<+T> = None | Some(value: T) {
    /** Python's `d.get(key, default)` when `None` stands for an absent key. */
    function GetOr(default: T): T {
      match this
      case Some(v) => v
      case None => default
    }
  }

  function Min(a: int, b: int): int { if a <= b then a else b }

  /** `s.slice(0, n)` in JavaScript and `s[:n]` in Python, for a non-negative `n`. */
  function Prefix(s: string, n: nat): (r: string)
    ensures |r| == Min(|s|, n)
    ensures r <= s
  {
    if |s| <= n then s else s[..n]
  }

  /** The two string libraries the sources use, which disagree on what whitespace is. */
  datatype Runtime = Python | JavaScript

  /** `str.isspace()` in Python (what `str.strip()` removes) and the WhiteSpace and
      LineTerminator characters of JavaScript (what `String.prototype.trim` removes). Both
      remove the ASCII blanks and the Unicode space separators; only Python removes the
      separators U+001C..U+001F and NEXT LINE, only JavaScript the byte-order mark. */
  predicate IsSpace(rt: Runtime, c: char) {
    || c == ' ' || c == '\t' || c == '\n' || c == '\r' || c == '\U{000B}' || c == '\U{000C}'
    || c == '\U{00A0}' || c == '\U{1680}' || '\U{2000}' <= c <= '\U{200A}'
    || c == '\U{2028}' || c == '\U{2029}' || c == '\U{202F}' || c == '\U{205F}' || c == '\U{3000}'
    || (rt == Python && ('\U{001C}' <= c <= '\U{001F}' || c == '\U{0085}'))
    || (rt == JavaScript && c == '\U{FEFF}')
  }

  ghost predicate AllSpace(rt: Runtime, s: string) {
    forall i :: 0 <= i < |s| ==> IsSpace(rt, s[i])
  }

  /** Number of whitespace characters at the start of `s`. */
  function LeadingSpace(rt: Runtime, s: string): (k: nat)
    ensures k <= |s|
    ensures AllSpace(rt, s[..k])
    ensures k < |s| ==> !IsSpace(rt, s[k])
  {
    if |s| > 0 && IsSpace(rt, s[0]) then
      var k := 1 + LeadingSpace(rt, s[1..]);
      assert s[..k] == [s[0]] + s[1..][..k - 1];
      k
    else 0
  }

  /** Number of whitespace characters at the end of `s`. */
  function TrailingSpace(rt: Runtime, s: string): (k: nat)
    ensures k <= |s|
    ensures AllSpace(rt, s[|s| - k..])
    ensures k < |s| ==> !IsSpace(rt, s[|s| - k - 1])
  {
    if |s| > 0 && IsSpace(rt, s[|s| - 1]) then
      var k := 1 + TrailingSpace(rt, s[..|s| - 1]);
      assert s[|s| - k..] == s[..|s| - 1][|s| - k..] + [s[|s| - 1]];
      k
    else 0
  }

  /** `s.strip()` in Python, `s.trim()` in JavaScript: `s` without its leading and trailing
      whitespace, which is what is left between two all-whitespace margins. */
  function Strip(rt: Runtime, s: string): (r: string)
    ensures |r| <= |s|
    ensures exists i, j :: 0 <= i <= j <= |s| && r == s[i..j] && AllSpace(rt, s[..i]) && AllSpace(rt, s[j..])
    ensures r == [] || (!IsSpace(rt, r[0]) && !IsSpace(rt, r[|r| - 1]))
  {
    var i := LeadingSpace(rt, s);
    var t := TrailingSpace(rt, s[i..]);
    var j := |s| - t;
    assert s[i..][|s[i..]| - t..] == s[j..];
    assert AllSpace(rt, s[..i]) && AllSpace(rt, s[j..]);
    var r := s[i..j];
    assert r == [] || (r[0] == s[i..][0] && r[|r| - 1] == s[i..][|s[i..]| - t - 1]);
    r
  }

  /** How many UTF-16 code units encode `c`: two for a character outside the Basic
      Multilingual Plane (a surrogate pair), one otherwise. */
  function Utf16Units(c: char): nat {
    if c as int >= 0x1_0000 then 2 else 1
  }

  /** JavaScript's `s.length`, which counts UTF-16 code units. */
  function Utf16Length(s: string): (n: nat)
    ensures |s| <= n <= 2 * |s|
    decreases |s|
  {
    if s == [] then 0 else Utf16Units(s[0]) + Utf16Length(s[1..])
  }

  /** The longest prefix of `s` that fits in `n` UTF-16 code units. */
  function Utf16Prefix(s: string, n: nat): (r: string)
    ensures r <= s
    ensures Utf16Length(r) <= n
    ensures r == s || Utf16Length(r) + Utf16Units(s[|r|]) > n
    decreases |s|
  {
    if s == [] || Utf16Units(s[0]) > n then []
    else
      var rest := Utf16Prefix(s[1..], n - Utf16Units(s[0]));
      var r := [s[0]] + rest;
      assert r[1..] == rest;
      assert rest != s[1..] ==> s[|r|] == s[1..][|rest|];
      r
  }

  /** Text in the Basic Multilingual Plane: one code unit per character. */
  ghost predicate InBmp(s: string) {
    forall i :: 0 <= i < |s| ==> s[i] as int < 0x1_0000
  }

  lemma InBmpTail(s: string)
    requires s != [] && InBmp(s)
    ensures InBmp(s[1..]) && Utf16Units(s[0]) == 1
  {
    forall i | 0 <= i < |s[1..]| ensures s[1..][i] as int < 0x1_0000 {
      assert s[1..][i] == s[i + 1];
    }
  }

  /** On text in the Basic Multilingual Plane, the UTF-16 length is the character count. */
  lemma {:induction false} Utf16LengthOfBmp(s: string)
    requires InBmp(s)
    ensures Utf16Length(s) == |s|
    decreases |s|
  {
    if s != [] {
      InBmpTail(s);
      Utf16LengthOfBmp(s[1..]);
    }
  }

  /** On text in the Basic Multilingual Plane, a UTF-16 cut is the plain prefix. */
  lemma {:induction false} Utf16PrefixOfBmp(s: string, n: nat)
    requires InBmp(s)
    ensures Utf16Prefix(s, n) == Prefix(s, n)
    decreases |s|
  {
    if s == [] {
    } else if n == 0 {
      assert Prefix(s, 0) == [];
    } else {
      InBmpTail(s);
      var rest := Utf16Prefix(s[1..], n - 1);
      Utf16PrefixOfBmp(s[1..], n - 1);
      assert Utf16Prefix(s, n) == [s[0]] + rest;
      PrefixCons(s, n);
    }
  }

  lemma PrefixCons(s: string, n: nat)
    requires s != [] && n > 0
    ensures Prefix(s, n) == [s[0]] + Prefix(s[1..], n - 1)
  {
    if |s| > n {
      assert s[..n] == [s[0]] + s[1..][..n - 1];
    }
  }

  predicate IsLower(c: char) { 'a' <= c <= 'z' }

  function UpperChar(c: char): (u: char)
    ensures !IsLower(u)
    ensures !IsLower(c) ==> u == c
  {
    if IsLower(c) then (c as int - 32) as char else c
  }

  /** `s.upper()` restricted to ASCII letters. */
  function Upper(s: string): (r: string)
    ensures |r| == |s|
    ensures forall i :: 0 <= i < |r| ==> !IsLower(r[i]) && (IsLower(s[i]) || r[i] == s[i])
  {
    seq(|s|, i requires 0 <= i < |s| => UpperChar(s[i]))
  }

  predicate EndsWith(s: string, suffix: string) {
    |suffix| <= |s| && s[|s| - |suffix|..] == suffix
  }

  /** JavaScript's `v || fallback` where `v` is a string or absent: the empty string and an
      absent value are falsy. */
  function OrElse(v: Option<string>, fallback: string): (r: string)
    ensures v.Some? && v.value != "" ==> r == v.value
    ensures v.None? || v.value == "" ==> r == fallback
  {
    if v.Some? && v.value != "" then v.value else fallback
  }
}
