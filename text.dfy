/**
 * The JavaScript string and number primitives the modelled code relies on:
 * the `\s` / `trim()` whitespace set, ASCII case folding, `includes`,
 * `indexOf`, `replace` of a literal, template-literal rendering of integers,
 * `parseInt` of a digit run, `padStart` and the truncating `%` operator.
 */
module Text {
  import opened Wrappers

  /** JavaScript LineTerminator code points (what `.` in a regular expression does not match). */
  predicate IsLineTerminator(c: char) {
    c == '\n' || c == '\r' || c == '\U{2028}' || c == '\U{2029}'
  }

  /** JavaScript WhiteSpace and LineTerminator code points: the `\s` class and what `trim()` removes. */
  predicate IsSpace(c: char) {
    || IsLineTerminator(c)
    || c == '\t' || c == '\U{000B}' || c == '\U{000C}' || c == ' ' || c == '\U{00A0}'
    || c == '\U{1680}' || ('\U{2000}' <= c <= '\U{200A}') || c == '\U{202F}'
    || c == '\U{205F}' || c == '\U{3000}' || c == '\U{FEFF}'
  }

  predicate IsDigit(c: char) { '0' <= c <= '9' }

  predicate IsUpper(c: char) { 'A' <= c <= 'Z' }

  /** The `\w` class of a regular expression without the `u` flag. */
  predicate IsWordChar(c: char) {
    ('a' <= c <= 'z') || ('A' <= c <= 'Z') || IsDigit(c) || c == '_'
  }

  predicate HasNoUpper(s: string) {
    forall k :: 0 <= k < |s| ==> !IsUpper(s[k])
  }

  function LowerChar(c: char): (r: char)
    ensures !IsUpper(r)
    ensures !IsUpper(c) ==> r == c
  {
    if IsUpper(c) then (c as int + 32) as char else c
  }

  /** `toLowerCase()`, restricted to ASCII letters. */
  function ToLower(s: string): (r: string)
    ensures |r| == |s|
    ensures forall k :: 0 <= k < |s| ==> r[k] == LowerChar(s[k])
    ensures HasNoUpper(r)
  {
    seq(|s|, k requires 0 <= k < |s| => LowerChar(s[k]))
  }

  /** `w` occurs in `s` at position `i`. */
  predicate StartsAt(s: string, i: int, w: string) {
    0 <= i && i + |w| <= |s| && s[i..i + |w|] == w
  }

  /** `s.includes(w)`. */
  predicate Contains(s: string, w: string) {
    exists i :: 0 <= i <= |s| && StartsAt(s, i, w)
  }

  lemma ContainsEmpty(s: string)
    ensures Contains(s, "")
  {
    assert StartsAt(s, 0, "");
  }

  /** First position at or after `from` where `w` occurs. */
  function IndexFrom(s: string, w: string, from: nat): (r: Option<nat>)
    requires from <= |s|
    ensures r.Some? ==> from <= r.value && StartsAt(s, r.value, w)
    ensures r.Some? ==> forall j :: from <= j < r.value ==> !StartsAt(s, j, w)
    ensures r.None? ==> forall j :: from <= j <= |s| ==> !StartsAt(s, j, w)
    decreases |s| - from
  {
    if StartsAt(s, from, w) then Some(from)
    else if from == |s| then None
    else IndexFrom(s, w, from + 1)
  }

  /** `s.indexOf(w)`, with -1 as `None`. */
  function IndexOf(s: string, w: string): (r: Option<nat>)
    ensures r.Some? <==> Contains(s, w)
    ensures r.Some? ==> StartsAt(s, r.value, w) && forall j :: 0 <= j < r.value ==> !StartsAt(s, j, w)
  {
    IndexFrom(s, w, 0)
  }

  /** A string that starts with `w` finds it at position 0. */
  lemma IndexOfPrefix(s: string, w: string)
    requires StartsAt(s, 0, w)
    ensures IndexOf(s, w) == Some(0)
  {
  }

  /** `s.replace(w, rep)` with a string pattern: only the first occurrence is replaced. */
  function ReplaceFirst(s: string, w: string, rep: string): (r: string)
    ensures !Contains(s, w) ==> r == s
    ensures Contains(s, w) ==>
      exists i :: 0 <= i && i + |w| <= |s| && StartsAt(s, i, w) &&
        (forall j :: 0 <= j < i ==> !StartsAt(s, j, w)) &&
        r == s[..i] + rep + s[i + |w|..]
  {
    match IndexOf(s, w)
    case None => s
    case Some(i) => s[..i] + rep + s[i + |w|..]
  }

  /** The first position at or after `i` that does not hold whitespace (`|s|` when there is none). */
  function SkipSpace(s: string, i: nat): (j: nat)
    requires i <= |s|
    ensures i <= j <= |s|
    ensures forall k :: i <= k < j ==> IsSpace(s[k])
    ensures j == |s| || !IsSpace(s[j])
    decreases |s| - i
  {
    if i < |s| && IsSpace(s[i]) then SkipSpace(s, i + 1) else i
  }

  /** One past the last position before `j`, and not before `lo`, that does not hold whitespace. */
  function SkipSpaceBack(s: string, lo: nat, j: nat): (e: nat)
    requires lo <= j <= |s|
    ensures lo <= e <= j
    ensures forall k :: e <= k < j ==> IsSpace(s[k])
    ensures e == lo || !IsSpace(s[e - 1])
    decreases j
  {
    if j > lo && IsSpace(s[j - 1]) then SkipSpaceBack(s, lo, j - 1) else j
  }

  /** `s.trim()`: `s` without its leading and trailing whitespace. */
  function Trim(s: string): (r: string)
    ensures |r| <= |s|
    ensures Contains(s, r)
    ensures r == [] || (!IsSpace(r[0]) && !IsSpace(r[|r| - 1]))
  {
    var a := SkipSpace(s, 0);
    var b := SkipSpaceBack(s, a, |s|);
    assert StartsAt(s, a, s[a..b]);
    s[a..b]
  }

  /** `r` sits at `a` in `s`, and everything of `s` around it is whitespace. */
  predicate TrimmedAt(s: string, a: nat, r: string) {
    a + |r| <= |s| && s[a..a + |r|] == r &&
    (forall k :: 0 <= k < a ==> IsSpace(s[k])) &&
    (forall k :: a + |r| <= k < |s| ==> IsSpace(s[k]))
  }

  /** What `trim()` removes is exactly whitespace, at either end. */
  lemma TrimIsInfix(s: string)
    ensures exists a :: TrimmedAt(s, a, Trim(s))
  {
    var a := SkipSpace(s, 0);
    var b := SkipSpaceBack(s, a, |s|);
    assert TrimmedAt(s, a, Trim(s));
  }

  /** Every character of `s` is whitespace. */
  predicate IsBlank(s: string) {
    forall k :: 0 <= k < |s| ==> IsSpace(s[k])
  }

  /** `s.trim()` is empty exactly when `s` is blank. */
  lemma TrimEmptyIffBlank(s: string)
    ensures Trim(s) == "" <==> IsBlank(s)
  {
  }

  lemma TrimOfUnpadded(s: string)
    requires s == [] || (!IsSpace(s[0]) && !IsSpace(s[|s| - 1]))
    ensures Trim(s) == s
  {
  }

  function DigitChar(d: nat): (c: char)
    requires d < 10
    ensures IsDigit(c) && c as int - '0' as int == d
  {
    ('0' as int + d) as char
  }

  predicate AllDigits(s: string) {
    forall k :: 0 <= k < |s| ==> IsDigit(s[k])
  }

  /** Template-literal rendering of a non-negative integer: decimal, no leading zeros. */
  function NatToString(n: nat): (r: string)
    ensures |r| >= 1 && AllDigits(r)
    ensures |r| > 1 ==> r[0] != '0'
    ensures n < 10 <==> |r| == 1
  {
    if n < 10 then [DigitChar(n)] else NatToString(n / 10) + [DigitChar(n % 10)]
  }

  /** Template-literal rendering of an integer. */
  function IntToString(i: int): (r: string)
    ensures |r| >= 1
    ensures i >= 0 ==> r == NatToString(i)
    ensures i < 0 ==> r[0] == '-' && r[1..] == NatToString(-i)
  {
    if i < 0 then "-" + NatToString(-i) else NatToString(i)
  }

  /** The value of a decimal digit run, as `parseInt(s, 10)` computes it (without float rounding). */
  function DigitsValue(s: string): nat
    requires AllDigits(s)
  {
    if s == [] then 0 else DigitsValue(s[..|s| - 1]) * 10 + (s[|s| - 1] as int - '0' as int)
  }

  lemma {:induction false} DigitsValueOfNatToString(n: nat)
    ensures DigitsValue(NatToString(n)) == n
  {
    if n >= 10 {
      var r := NatToString(n);
      assert r[..|r| - 1] == NatToString(n / 10);
      DigitsValueOfNatToString(n / 10);
    }
  }

  /** JavaScript's `a % b` on integers: the remainder takes the sign of `a`. */
  function JsRem(a: int, b: int): (r: int)
    requires b != 0
    ensures a >= 0 ==> 0 <= r < (if b < 0 then -b else b)
    ensures a >= 0 && b > 0 ==> r == a % b
  {
    var m := if b < 0 then -b else b;
    if a >= 0 then a % m else -((-a) % m)
  }

  /** `s.padStart(2, '0')`. */
  function PadStart2(s: string): (r: string)
    ensures |r| == if |s| >= 2 then |s| else 2
    ensures r[|r| - |s|..] == s
    ensures forall k :: 0 <= k < |r| - |s| ==> r[k] == '0'
  {
    if |s| >= 2 then s else if |s| == 1 then "0" + s else "00"
  }

  /**
   * `a.localeCompare(b) <= 0`, with collation taken as code-unit order (which
   * is what it gives for the ISO 8601 timestamps it compares).
   */
  predicate LexLe(a: string, b: string)
    decreases |a|
  {
    a == [] || (b != [] && (a[0] < b[0] || (a[0] == b[0] && LexLe(a[1..], b[1..]))))
  }

  lemma {:induction false} LexLeTotal(a: string, b: string)
    ensures LexLe(a, b) || LexLe(b, a)
    decreases |a|
  {
    if a != [] && b != [] && a[0] == b[0] {
      LexLeTotal(a[1..], b[1..]);
    }
  }

  lemma {:induction false} LexLeTrans(a: string, b: string, c: string)
    requires LexLe(a, b) && LexLe(b, c)
    ensures LexLe(a, c)
    decreases |a|
  {
    if a != [] && a[0] == b[0] && b[0] == c[0] {
      LexLeTrans(a[1..], b[1..], c[1..]);
    }
  }

  lemma {:induction false} LexLeAntisymmetric(a: string, b: string)
    requires LexLe(a, b) && LexLe(b, a)
    ensures a == b
    decreases |a|
  {
    if a != [] {
      LexLeAntisymmetric(a[1..], b[1..]);
      assert a == [a[0]] + a[1..] && b == [b[0]] + b[1..];
    }
  }
}
