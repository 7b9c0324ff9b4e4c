/**
 * The JavaScript string operations the services rely on (`startsWith`, `endsWith`,
 * `includes`, `split(sep)[n]`, `toLowerCase`, number-to-decimal and `parseInt`),
 * each with the property the callers depend on.
 */
module Text {
  import opened Base

  predicate StartsWith(s: string, prefix: string) {
    |prefix| <= |s| && s[..|prefix|] == prefix
  }

  predicate EndsWith(s: string, suffix: string) {
    |suffix| <= |s| && s[|s| - |suffix|..] == suffix
  }

  /** `pattern` occurs in `s` starting at index `k`. */
  predicate OccursAt(s: string, pattern: string, k: nat) {
    k + |pattern| <= |s| && s[k..k + |pattern|] == pattern
  }

  /** The leftmost occurrence of `pattern` at or after `from` (`String.prototype.indexOf`). */
  function IndexOf(s: string, pattern: string, from: nat): (r: Option<nat>)
    decreases |s| - from
    ensures r.Some? ==> from <= r.value && OccursAt(s, pattern, r.value)
    ensures r.Some? ==> forall j: nat :: from <= j < r.value ==> !OccursAt(s, pattern, j)
    ensures r.None? ==> forall j: nat :: from <= j ==> !OccursAt(s, pattern, j)
  {
    if |s| < from + |pattern| then None
    else if OccursAt(s, pattern, from) then Some(from)
    else IndexOf(s, pattern, from + 1)
  }

  /** `s.includes(pattern)`. */
  predicate Contains(s: string, pattern: string) {
    IndexOf(s, pattern, 0).Some?
  }

  lemma ContainsWitness(s: string, pattern: string, k: nat)
    requires OccursAt(s, pattern, k)
    ensures Contains(s, pattern)
  {
  }

  /** `s.split(c)[0]` for a one-character separator: everything before the first `c`. */
  function BeforeChar(s: string, c: char): (r: string)
    ensures |r| <= |s| && r == s[..|r|]
    ensures c !in r
    ensures |r| < |s| ==> s[|r|] == c
  {
    if s == [] || s[0] == c then [] else [s[0]] + BeforeChar(s[1..], c)
  }

  /** Text before a separator that does not occur earlier is kept whole, and the rest is searched. */
  lemma {:induction false} BeforeCharAppend(a: string, b: string, c: char)
    requires c !in a
    ensures BeforeChar(a + b, c) == a + BeforeChar(b, c)
  {
    if a != [] {
      assert (a + b)[0] == a[0] != c;
      assert (a + b)[1..] == a[1..] + b;
      BeforeCharAppend(a[1..], b, c);
    } else {
      assert a + b == b;
    }
  }

  /** `s.split(c)[1]` is defined only when `c` occurs; it starts right after the first `c`. */
  function AfterChar(s: string, c: char): (r: Option<string>)
    ensures r.None? <==> c !in s
    ensures r.Some? ==> s == BeforeChar(s, c) + [c] + r.value
  {
    var head := BeforeChar(s, c);
    if |head| < |s| then
      assert s == head + [c] + s[|head| + 1..];
      Some(s[|head| + 1..])
    else None
  }

  lemma {:induction false} AfterCharAppend(a: string, b: string, c: char)
    requires c !in a
    ensures AfterChar(a + [c] + b, c) == Some(b)
  {
    BeforeCharAppend(a, [c] + b, c);
    assert a + [c] + b == a + ([c] + b);
  }

  /**
   * `s.split(sep)[1]` for a separator of any length: the text between the first and the
   * second occurrence of `sep` (or the end); `None` when `sep` does not occur (`undefined`).
   */
  function SecondField(s: string, sep: string): (r: Option<string>)
    requires |sep| > 0
    ensures r.None? <==> !Contains(s, sep)
  {
    match IndexOf(s, sep, 0)
    case None => None
    case Some(k) =>
      var rest := s[k + |sep|..];
      match IndexOf(rest, sep, 0)
      case None => Some(rest)
      case Some(m) => Some(rest[..m])
  }

  /** ASCII case folding, as `toLowerCase` does on the letters A to Z. */
  function LowerChar(c: char): char {
    if 'A' <= c <= 'Z' then (c as int - 'A' as int + 'a' as int) as char else c
  }

  function ToLower(s: string): (r: string)
    ensures |r| == |s|
    ensures forall i | 0 <= i < |s| :: r[i] == LowerChar(s[i])
  {
    if s == [] then [] else [LowerChar(s[0])] + ToLower(s[1..])
  }

  predicate IsDigit(c: char) {
    '0' <= c <= '9'
  }

  function DigitChar(d: nat): (c: char)
    requires d < 10
    ensures IsDigit(c) && c as int - '0' as int == d
  {
    ('0' as int + d) as char
  }

  /** The decimal text of `n`, as JavaScript prints a non-negative integer. */
  function NatToString(n: nat): (r: string)
    ensures 0 < |r|
    ensures forall i | 0 <= i < |r| :: IsDigit(r[i])
  {
    if n < 10 then [DigitChar(n)] else NatToString(n / 10) + [DigitChar(n % 10)]
  }

  function DigitOf(c: char): (d: nat)
    requires IsDigit(c)
    ensures d < 10
  {
    c as int - '0' as int
  }

  /** The value of a string of decimal digits. */
  function DigitsValue(s: string): nat
    requires forall i | 0 <= i < |s| :: IsDigit(s[i])
  {
    if s == [] then 0
    else
      assert IsDigit(s[|s| - 1]);
      DigitsValue(s[..|s| - 1]) * 10 + DigitOf(s[|s| - 1])
  }

  /** The longest prefix of `s` made of decimal digits. */
  function LeadingDigits(s: string): (r: string)
    ensures |r| <= |s| && r == s[..|r|]
    ensures forall i | 0 <= i < |r| :: IsDigit(r[i])
    ensures |r| == |s| || !IsDigit(s[|r|])
  {
    if s != [] && IsDigit(s[0]) then [s[0]] + LeadingDigits(s[1..]) else []
  }

  /** `parseInt(s)` on text that starts with a decimal number; 0 when no digit leads. */
  function ParseDecimal(s: string): nat {
    DigitsValue(LeadingDigits(s))
  }

  lemma {:induction false} DigitsValueOfNat(n: nat)
    ensures DigitsValue(NatToString(n)) == n
  {
    var r := NatToString(n);
    if n >= 10 {
      DigitsValueOfNat(n / 10);
      assert r[..|r| - 1] == NatToString(n / 10);
    }
  }

  lemma {:induction false} LeadingDigitsOfDigits(s: string)
    requires forall i | 0 <= i < |s| :: IsDigit(s[i])
    ensures LeadingDigits(s) == s
  {
    if s != [] {
      LeadingDigitsOfDigits(s[1..]);
    }
  }

  /** Parsing the decimal text of a number gives the number back. */
  lemma ParseDecimalOfNat(n: nat)
    ensures ParseDecimal(NatToString(n)) == n
  {
    LeadingDigitsOfDigits(NatToString(n));
    DigitsValueOfNat(n);
  }
}
