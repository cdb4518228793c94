/**
 * The JavaScript string operations the program relies on, restricted to what the
 * model needs: ASCII case mapping, `includes`, the string ordering of
 * `Array.prototype.sort` (as code-point order), `Number.prototype.toString(radix)`,
 * `parseInt`, `padStart`, and the character classes of regular expressions.
 */
module Strings {

  // ----- character classes -----

  predicate IsAsciiUpper(c: char) { 'A' <= c <= 'Z' }

  /** The class `[a-z0-9]`. */
  predicate IsLowerAlnum(c: char) { 'a' <= c <= 'z' || '0' <= c <= '9' }

  /** `\d` in a regular expression. */
  predicate IsDecimalDigit(c: char) { '0' <= c <= '9' }

  /** Characters that `.` does not match (ECMAScript LineTerminator). */
  predicate IsLineTerminator(c: char) {
    c == '\n' || c == '\r' || c == '\U{2028}' || c == '\U{2029}'
  }

  /** `\s` in a regular expression: ECMAScript WhiteSpace and LineTerminator. */
  predicate IsRegexSpace(c: char) {
    || c == '\t' || c == '\U{000B}' || c == '\U{000C}' || c == ' ' || c == '\U{00A0}'
    || c == '\U{FEFF}' || c == '\U{1680}' || ('\U{2000}' <= c <= '\U{200A}')
    || c == '\U{202F}' || c == '\U{205F}' || c == '\U{3000}'
    || IsLineTerminator(c)
  }

  // ----- case mapping -----

  /** `toLowerCase` on one character, ASCII letters only. */
  function LowerChar(c: char): (d: char)
    ensures !IsAsciiUpper(d)
    ensures 'a' <= d <= 'z' ==> 'a' <= c <= 'z' || IsAsciiUpper(c)
    ensures IsDecimalDigit(d) <==> IsDecimalDigit(c)
  {
    if IsAsciiUpper(c) then (c as int + 32) as char else c
  }

  /** `String.prototype.toLowerCase`, ASCII letters only. */
  function Lower(s: string): (r: string)
    ensures |r| == |s|
    ensures forall i :: 0 <= i < |s| ==> r[i] == LowerChar(s[i])
  {
    if s == [] then [] else [LowerChar(s[0])] + Lower(s[1..])
  }

  lemma {:induction false} LowerAppend(a: string, b: string)
    ensures Lower(a + b) == Lower(a) + Lower(b)
  {
    assert |Lower(a + b)| == |Lower(a) + Lower(b)|;
    forall i | 0 <= i < |a + b| ensures Lower(a + b)[i] == (Lower(a) + Lower(b))[i] {
    }
  }

  // ----- substring search -----

  predicate MatchesAt(s: string, sub: string, i: int) {
    0 <= i && i + |sub| <= |s| && s[i..i + |sub|] == sub
  }

  /** `s.includes(sub)`. */
  function Contains(s: string, sub: string): (r: bool)
    ensures r <==> exists i :: MatchesAt(s, sub, i)
    decreases |s|
  {
    if MatchesAt(s, sub, 0) then true
    else if s == [] then false
    else
      assert forall i :: MatchesAt(s[1..], sub, i) <==> MatchesAt(s, sub, i + 1);
      assert forall i :: MatchesAt(s, sub, i) ==> i == 0 || MatchesAt(s[1..], sub, i - 1);
      Contains(s[1..], sub)
  }

  // ----- ordering -----

  /**
   * The order of the default `Array.prototype.sort` and of `<=` on strings:
   * lexicographic on characters, a proper prefix first. A `char` is a Unicode scalar
   * value, so this is code-point order; JavaScript compares UTF-16 code units, and the
   * two agree on strings inside the Basic Multilingual Plane.
   */
  predicate StrLe(a: string, b: string) {
    if a == [] then true
    else if b == [] then false
    else if a[0] != b[0] then a[0] < b[0]
    else StrLe(a[1..], b[1..])
  }

  lemma {:induction false} StrLeTotal(a: string, b: string)
    ensures StrLe(a, b) || StrLe(b, a)
  {
    if a != [] && b != [] && a[0] == b[0] {
      StrLeTotal(a[1..], b[1..]);
    }
  }

  lemma {:induction false} StrLeTransitive(a: string, b: string, c: string)
    requires StrLe(a, b) && StrLe(b, c)
    ensures StrLe(a, c)
  {
    if a != [] && b != [] && c != [] && a[0] == b[0] && b[0] == c[0] {
      StrLeTransitive(a[1..], b[1..], c[1..]);
    }
  }

  lemma {:induction false} StrLeAntisymmetric(a: string, b: string)
    requires StrLe(a, b) && StrLe(b, a)
    ensures a == b
  {
    if a != [] && b != [] {
      StrLeAntisymmetric(a[1..], b[1..]);
      assert a == [a[0]] + a[1..] && b == [b[0]] + b[1..];
    }
  }

  // ----- numerals -----

  /** The character for digit value `d` (`0-9`, then lower-case `a-f`). */
  function DigitChar(d: nat): char
    requires d < 16
  {
    if d < 10 then ('0' as int + d) as char else ('a' as int + d - 10) as char
  }

  /** The value of a digit character, or -1 for a character that is not one. */
  function DigitValue(c: char): int {
    if '0' <= c <= '9' then c as int - '0' as int
    else if 'a' <= c <= 'f' then c as int - 'a' as int + 10
    else -1
  }

  lemma DigitCharValue(d: nat)
    requires d < 16
    ensures DigitValue(DigitChar(d)) == d
    ensures DigitChar(d) != '0' <==> d != 0
  {
  }

  predicate AllDigits(s: string, base: nat) {
    forall i :: 0 <= i < |s| ==> 0 <= DigitValue(s[i]) < base
  }

  /** The value of a numeral in `base`, most significant digit first. */
  function ValueOf(s: string, base: nat): nat
    requires AllDigits(s, base)
  {
    if s == [] then 0 else ValueOf(s[..|s| - 1], base) * base + DigitValue(s[|s| - 1])
  }

  /**
   * `n.toString(base)` for a non-negative integer: the shortest numeral, lower-case,
   * "0" for zero.
   */
  function Numeral(n: nat, base: nat): (r: string)
    requires 2 <= base <= 16
    ensures |r| >= 1
    ensures AllDigits(r, base)
    ensures ValueOf(r, base) == n
    ensures |r| > 1 ==> r[0] != '0'
    decreases n
  {
    if n < base then
      DigitCharValue(n);
      [DigitChar(n)]
    else
      DivFacts(n, base);
      var q, d := n / base, n % base;
      var prefix := Numeral(q, base);
      var r := prefix + [DigitChar(d)];
      DigitCharValue(d);
      assert r[..|r| - 1] == prefix;
      assert ValueOf(r, base) == q * base + d;
      r
  }

  lemma DivFacts(n: nat, base: nat)
    requires 2 <= base <= 16 && n >= base
    ensures 1 <= n / base < n && 0 <= n % base < base
    ensures n == (n / base) * base + n % base
  {
  }

  /** Leading zeros do not change the value of a numeral. */
  lemma {:induction false} ValueOfLeadingZero(s: string, base: nat)
    requires AllDigits(s, base) && base >= 1
    ensures AllDigits("0" + s, base)
    ensures ValueOf("0" + s, base) == ValueOf(s, base)
    decreases |s|
  {
    if s != [] {
      var z := "0" + s;
      assert z[..|z| - 1] == "0" + s[..|s| - 1];
      ValueOfLeadingZero(s[..|s| - 1], base);
    }
  }

  /** `s.padStart(len, c)`: `s` preceded by copies of `c` up to length `len`; never truncates. */
  function PadStart(s: string, len: nat, c: char): (r: string)
    ensures |r| == if |s| >= len then |s| else len
    ensures r[|r| - |s|..] == s
    ensures forall i :: 0 <= i < |r| - |s| ==> r[i] == c
    decreases len - |s|
  {
    if |s| >= len then s else PadStart([c] + s, len, c)
  }
}
