/**
 * The handful of Python string operations the intake controller relies on:
 * `str.lower()`, `str.strip()`, the substring test `sub in s`, `any(...)`
 * over a word list, `str.isdigit()` and `int(...)` on a run of digits.
 */
module Text {

  /** Python's `str.isspace()`: the characters `str.strip()` removes. */
  predicate IsSpace(c: char) {
    || c == ' ' || c == '\t' || c == '\n' || c == '\r'
    || c == '\U{000B}' || c == '\U{000C}'
    || ('\U{001C}' <= c <= '\U{001F}')
    || c == '\U{0085}' || c == '\U{00A0}' || c == '\U{1680}'
    || ('\U{2000}' <= c <= '\U{200A}')
    || c == '\U{2028}' || c == '\U{2029}' || c == '\U{202F}' || c == '\U{205F}' || c == '\U{3000}'
  }

  predicate IsUpper(c: char) { 'A' <= c <= 'Z' }

  predicate IsDigit(c: char) { '0' <= c <= '9' }

  /** Lower-casing of one character (ASCII letters only). */
  function LowerChar(c: char): (r: char)
    ensures IsUpper(c) ==> r as int == c as int + 32
    ensures !IsUpper(c) ==> r == c
    ensures !IsUpper(r)
    ensures IsSpace(r) <==> IsSpace(c)
    ensures IsDigit(r) <==> IsDigit(c)
  {
    if IsUpper(c) then (c as int + 32) as char else c
  }

  /** `s.lower()`, character by character. */
  function Lower(s: string): (r: string)
    ensures |r| == |s|
    ensures forall i :: 0 <= i < |s| ==> r[i] == LowerChar(s[i])
  {
    seq(|s|, i requires 0 <= i < |s| => LowerChar(s[i]))
  }

  lemma LowerAppend(a: string, b: string)
    ensures Lower(a + b) == Lower(a) + Lower(b)
  {
    assert forall i :: 0 <= i < |a + b| ==> Lower(a + b)[i] == (Lower(a) + Lower(b))[i];
  }

  /** A string with no upper-case letter is its own lower-case form. */
  lemma LowerOfLowercase(s: string)
    requires forall i :: 0 <= i < |s| ==> !IsUpper(s[i])
    ensures Lower(s) == s
  {
  }

  lemma LowerIdempotent(s: string)
    ensures Lower(Lower(s)) == Lower(s)
  {
  }

  /** The index of the first non-space character at or after `i`, or `|s|` if there is none. */
  function SpanFrom(s: string, i: nat): (j: nat)
    requires i <= |s|
    ensures i <= j <= |s|
    ensures j == |s| || !IsSpace(s[j])
    ensures forall k :: i <= k < j ==> IsSpace(s[k])
    decreases |s| - i
  {
    if i < |s| && IsSpace(s[i]) then SpanFrom(s, i + 1) else i
  }

  /** The end of `s[..j]` once its trailing whitespace is dropped. */
  function SpanBack(s: string, j: nat): (e: nat)
    requires j <= |s|
    ensures e <= j
    ensures e == 0 || !IsSpace(s[e - 1])
    ensures forall k :: e <= k < j ==> IsSpace(s[k])
  {
    if j > 0 && IsSpace(s[j - 1]) then SpanBack(s, j - 1) else j
  }

  /** `s.lstrip()`. */
  function StripLeft(s: string): (r: string)
    ensures |r| <= |s| && r == s[|s| - |r|..]
    ensures r == [] || !IsSpace(r[0])
    ensures forall i :: 0 <= i < |s| - |r| ==> IsSpace(s[i])
  {
    s[SpanFrom(s, 0)..]
  }

  /** `s.rstrip()`. */
  function StripRight(s: string): (r: string)
    ensures |r| <= |s| && r == s[..|r|]
    ensures r == [] || !IsSpace(r[|r| - 1])
    ensures forall i :: |r| <= i < |s| ==> IsSpace(s[i])
  {
    s[..SpanBack(s, |s|)]
  }

  /** A text with no whitespace at either end strips to itself. */
  lemma StripUnchanged(s: string)
    requires s == [] || (!IsSpace(s[0]) && !IsSpace(s[|s| - 1]))
    ensures Strip(s) == s
  {
    assert StripLeft(s) == s;
    assert StripRight(s) == s;
  }

  /** `r` is `s[i..i + |r|]` and everything of `s` outside that slice is whitespace. */
  predicate TrimmedAt(s: string, r: string, i: int) {
    && 0 <= i && i + |r| <= |s| && r == s[i..i + |r|]
    && (forall k :: 0 <= k < i ==> IsSpace(s[k]))
    && (forall k :: i + |r| <= k < |s| ==> IsSpace(s[k]))
  }

  /**
   * `s.strip()`: the slice of `s` that neither starts nor ends with
   * whitespace, everything cut away on either side being whitespace.
   */
  function Strip(s: string): (r: string)
    ensures r == [] || (!IsSpace(r[0]) && !IsSpace(r[|r| - 1]))
    ensures exists i :: TrimmedAt(s, r, i)
  {
    StripTrimmed(s);
    StripRight(StripLeft(s))
  }

  /** Stripping the left, then the right, keeps one slice and drops only whitespace. */
  lemma StripTrimmed(s: string)
    ensures TrimmedAt(s, StripRight(StripLeft(s)), |s| - |StripLeft(s)|)
  {
    var l := StripLeft(s);
    TrimmedFromParts(s, l, StripRight(l), |s| - |l|);
  }

  /** Whitespace before `l`, and whitespace after `r` within `l`, make `r` the trimmed slice. */
  lemma TrimmedFromParts(s: string, l: string, r: string, i: int)
    requires 0 <= i <= |s| && l == s[i..] && forall k :: 0 <= k < i ==> IsSpace(s[k])
    requires |r| <= |l| && r == l[..|r|] && forall k :: |r| <= k < |l| ==> IsSpace(l[k])
    ensures TrimmedAt(s, r, i)
  {
    StripTrailing(s, l, r, i);
    assert r == s[i..i + |r|];
  }

  /** What the right-hand strip drops from the left-stripped text is whitespace of the original. */
  lemma StripTrailing(s: string, l: string, r: string, i: int)
    requires 0 <= i <= |s| && l == s[i..]
    requires |r| <= |l| && forall k :: |r| <= k < |l| ==> IsSpace(l[k])
    ensures forall k :: i + |r| <= k < |s| ==> IsSpace(s[k])
  {
    forall k | i + |r| <= k < |s|
      ensures IsSpace(s[k])
    {
      assert s[k] == l[k - i];
    }
  }

  /** A non-space character lies inside the kept slice. */
  lemma TrimmedKeeps(s: string, r: string, j: int, k: int)
    requires TrimmedAt(s, r, j) && 0 <= k < |s| && !IsSpace(s[k])
    ensures j <= k < j + |r|
  {
  }

  /** Every character that `strip` drops is whitespace. */
  lemma StripKeepsNonSpace(s: string, k: nat)
    requires k < |s| && !IsSpace(s[k])
    ensures s[k] in Strip(s)
  {
    var r := Strip(s);
    var i :| TrimmedAt(s, r, i);
    TrimmedKeeps(s, r, i, k);
    assert r[k - i] == s[k];
  }

  /** Lower-casing keeps every whitespace character where it is. */
  lemma {:induction false} SpanFromLower(s: string, i: nat)
    requires i <= |s|
    ensures SpanFrom(Lower(s), i) == SpanFrom(s, i)
    decreases |s| - i
  {
    if i < |s| && IsSpace(s[i]) {
      SpanFromLower(s, i + 1);
    }
  }

  lemma {:induction false} SpanBackLower(s: string, j: nat)
    requires j <= |s|
    ensures SpanBack(Lower(s), j) == SpanBack(s, j)
  {
    if j > 0 && IsSpace(s[j - 1]) {
      SpanBackLower(s, j - 1);
    }
  }

  lemma StripLeftLower(s: string)
    ensures StripLeft(Lower(s)) == Lower(StripLeft(s))
  {
    SpanFromLower(s, 0);
  }

  lemma StripRightLower(s: string)
    ensures StripRight(Lower(s)) == Lower(StripRight(s))
  {
    SpanBackLower(s, |s|);
  }

  /** Lower-casing and stripping commute: `s.lower().strip() == s.strip().lower()`. */
  lemma StripLower(s: string)
    ensures Strip(Lower(s)) == Lower(Strip(s))
  {
    StripLeftLower(s);
    StripRightLower(StripLeft(s));
  }

  predicate StartsWith(s: string, prefix: string) {
    |prefix| <= |s| && s[..|prefix|] == prefix
  }

  /** A prefix stays a prefix whatever is appended. */
  lemma StartsWithAppend(s: string, prefix: string, t: string)
    requires StartsWith(s, prefix)
    ensures StartsWith(s + t, prefix)
  {
    assert (s + t)[..|prefix|] == s[..|prefix|];
  }

  /** Concatenation is associative. */
  lemma ConcatAssoc(a: string, b: string, c: string)
    ensures a + b + c == a + (b + c)
  {
  }

  /** Concatenation regrouped: appending a three-part text is appending its parts in turn. */
  lemma AppendThree(x: string, p: string, n: string, r: string)
    ensures x + (p + n + r) == x + p + n + r
  {
  }

  /** Python's `sub in s` for strings: `sub` occurs somewhere in `s`. */
  predicate Contains(sub: string, s: string)
    decreases |s|
  {
    StartsWith(s, sub) || (s != [] && Contains(sub, s[1..]))
  }

  /** `sub` occurs in `s` starting at index `i`. */
  predicate OccursAt(sub: string, s: string, i: int) {
    0 <= i && i + |sub| <= |s| && s[i..i + |sub|] == sub
  }

  /** `Contains` agrees with the positional reading of `sub in s`. */
  lemma {:induction false} ContainsAt(sub: string, s: string)
    ensures Contains(sub, s) <==> exists i :: OccursAt(sub, s, i)
    decreases |s|
  {
    if s != [] {
      ContainsAt(sub, s[1..]);
      if exists i :: OccursAt(sub, s, i) {
        var i :| OccursAt(sub, s, i);
        if i > 0 {
          assert OccursAt(sub, s[1..], i - 1);
        }
      }
      if StartsWith(s, sub) {
        assert OccursAt(sub, s, 0);
      } else if Contains(sub, s[1..]) {
        var i :| OccursAt(sub, s[1..], i);
        assert s[i + 1..i + 1 + |sub|] == s[1..][i..i + |sub|];
        assert OccursAt(sub, s, i + 1);
      }
    } else if Contains(sub, s) {
      assert OccursAt(sub, s, 0);
    }
  }

  lemma ContainsSlice(sub: string, s: string, i: nat)
    requires OccursAt(sub, s, i)
    ensures Contains(sub, s)
  {
    ContainsAt(sub, s);
  }

  /** `x in a + x + b`. */
  lemma ContainsMiddle(a: string, x: string, b: string)
    ensures Contains(x, a + x + b)
  {
    assert OccursAt(x, a + x + b, |a|);
    ContainsSlice(x, a + x + b, |a|);
  }

  lemma ContainsExtendRight(sub: string, a: string, b: string)
    requires Contains(sub, a)
    ensures Contains(sub, a + b)
  {
    ContainsAt(sub, a);
    var i :| OccursAt(sub, a, i);
    assert OccursAt(sub, a + b, i);
    ContainsSlice(sub, a + b, i);
  }

  lemma ContainsExtendLeft(sub: string, a: string, b: string)
    requires Contains(sub, b)
    ensures Contains(sub, a + b)
  {
    ContainsAt(sub, b);
    var i :| OccursAt(sub, b, i);
    assert OccursAt(sub, a + b, |a| + i);
    ContainsSlice(sub, a + b, |a| + i);
  }

  /** Whoever contains `x` contains every prefix of `x`. */
  lemma ContainsPrefixOf(x: string, p: string, s: string)
    requires Contains(x, s) && StartsWith(x, p)
    ensures Contains(p, s)
  {
    ContainsAt(x, s);
    var i :| OccursAt(x, s, i);
    assert OccursAt(p, s, i);
    ContainsSlice(p, s, i);
  }

  /** Every character of an occurring substring occurs in the string. */
  lemma ContainsChar(sub: string, s: string, k: nat)
    requires Contains(sub, s) && k < |sub|
    ensures sub[k] in s
  {
    ContainsAt(sub, s);
    var i :| OccursAt(sub, s, i);
    assert s[i + k] == sub[k];
  }

  /** A non-space character of an occurrence of `sub` in `s` survives stripping `s`. */
  lemma OccurrenceCharInStrip(sub: string, s: string, k: nat)
    requires Contains(sub, s) && k < |sub| && !IsSpace(sub[k])
    ensures sub[k] in Strip(s)
  {
    ContainsAt(sub, s);
    var i :| OccursAt(sub, s, i);
    assert s[i + k] == sub[k];
    StripKeepsNonSpace(s, i + k);
  }

  /** The characters of an occurrence are those of the text at the shifted positions. */
  lemma OccursAtChar(sub: string, s: string, i: int, k: int)
    requires OccursAt(sub, s, i) && 0 <= k < |sub|
    ensures s[i + k] == sub[k]
  {
    assert s[i..i + |sub|][k] == s[i + k];
  }

  /** An occurrence inside a slice is an occurrence in the slice, shifted. */
  lemma OccursInSlice(sub: string, s: string, i: int, j: int, n: int)
    requires OccursAt(sub, s, i) && 0 <= j <= i && i + |sub| <= j + n <= |s|
    ensures OccursAt(sub, s[j..j + n], i - j)
  {
    var t := s[j..j + n];
    forall k | 0 <= k < |sub|
      ensures t[i - j + k] == sub[k]
    {
      OccursAtChar(sub, s, i, k);
    }
    assert t[i - j..i - j + |sub|] == sub;
  }

  /** An occurrence bounded by non-space characters lies inside the trimmed slice. */
  lemma OccursInTrimmed(sub: string, s: string, i: int, r: string, j: int)
    requires OccursAt(sub, s, i) && sub != [] && TrimmedAt(s, r, j)
    requires !IsSpace(sub[0]) && !IsSpace(sub[|sub| - 1])
    ensures OccursAt(sub, r, i - j)
  {
    var k := |sub| - 1;
    OccursAtChar(sub, s, i, 0);
    OccursAtChar(sub, s, i, k);
    TrimmedKeeps(s, r, j, i + 0);
    TrimmedKeeps(s, r, j, i + k);
    OccursInSlice(sub, s, i, j, |r|);
  }

  /** An occurrence that neither starts nor ends with whitespace survives stripping. */
  lemma ContainsSurvivesStrip(sub: string, s: string)
    requires Contains(sub, s) && sub != []
    requires !IsSpace(sub[0]) && !IsSpace(sub[|sub| - 1])
    ensures Contains(sub, Strip(s))
  {
    ContainsAt(sub, s);
    var i :| OccursAt(sub, s, i);
    var r := Strip(s);
    var j :| TrimmedAt(s, r, j);
    OccursInTrimmed(sub, s, i, r, j);
    ContainsSlice(sub, r, i - j);
  }

  /** Python's `any(w in s for w in words)`. */
  predicate AnyIn(words: seq<string>, s: string) {
    exists i :: 0 <= i < |words| && Contains(words[i], s)
  }

  /** Python's `any(c.isdigit() for c in s)`. */
  predicate HasDigit(s: string) {
    exists i :: 0 <= i < |s| && IsDigit(s[i])
  }

  predicate AllDigits(s: string) {
    forall i :: 0 <= i < |s| ==> IsDigit(s[i])
  }

  /** `int(ds)` for a run of decimal digits (leading zeros allowed). */
  function DecimalValue(ds: string): (n: nat)
    requires AllDigits(ds)
  {
    if ds == [] then 0
    else DecimalValue(ds[..|ds| - 1]) * 10 + (ds[|ds| - 1] as int - '0' as int)
  }

  /** Python's `str(n)` for a non-negative integer. */
  function NatToString(n: nat): (s: string)
    ensures s != [] && AllDigits(s)
    ensures DecimalValue(s) == n
    ensures s[0] == '0' <==> n == 0
    decreases n
  {
    var d := ((n % 10) + '0' as int) as char;
    if n < 10 then [d]
    else
      var s := NatToString(n / 10) + [d];
      assert s[..|s| - 1] == NatToString(n / 10);
      s
  }

  /** Python's `str(n)` for any integer. */
  function IntToString(n: int): (s: string)
    ensures s != []
    ensures n >= 0 ==> s == NatToString(n)
    ensures n < 0 ==> s[0] == '-' && s[1..] == NatToString(-n)
  {
    if n < 0 then "-" + NatToString(-n) else NatToString(n)
  }
}
