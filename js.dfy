/**
 * The JavaScript value rules the portal leans on: truthiness and `||` on text
 * fields, how an absent field prints inside a template literal, and how a
 * number prints.
 */
module Js {
  import opened Wrappers

  /** A text field is truthy when it is present and not the empty string. */
  predicate Truthy(v: Option<string>) {
    v.Some? && v.value != ""
  }

  /** `v || fallback` on a text field. */
  function Or(v: Option<string>, fallback: string): string {
    if Truthy(v) then v.value else fallback
  }

  /** `${v}` in a template literal: an absent field prints as `undefined`. */
  function Show(v: Option<string>): string {
    if v.Some? then v.value else "undefined"
  }

  /** A number field is truthy when it is present and not zero. */
  predicate TruthyNumber(v: Option<int>) {
    v.Some? && v.value != 0
  }

  /** `v || 0` on a number field. */
  function NumberOr0(v: Option<int>): int {
    if TruthyNumber(v) then v.value else 0
  }

  // ---------------------------------------------------------------------------
  // `${n}` for an integer: its decimal digits, with a leading `-` when negative

  predicate IsDigit(c: char) {
    '0' <= c <= '9'
  }

  predicate AllDigits(s: string) {
    forall i :: 0 <= i < |s| ==> IsDigit(s[i])
  }

  function DigitChar(d: nat): (c: char)
    requires d < 10
    ensures IsDigit(c) && c as int - '0' as int == d
  {
    ('0' as int + d) as char
  }

  /** The shortest decimal numeral of `n`. */
  function Digits(n: nat): (s: string)
    ensures |s| >= 1 && AllDigits(s)
    ensures s[0] == '0' ==> n == 0
    decreases n
  {
    if n < 10 then [DigitChar(n)] else Digits(n / 10) + [DigitChar(n % 10)]
  }

  function NumberText(n: int): string {
    if n < 0 then "-" + Digits(-n) else Digits(n)
  }

  /** The value a numeral denotes: the inverse of `Digits`. */
  function DigitsValue(s: string): nat
    requires AllDigits(s)
    decreases |s|
  {
    if s == [] then 0 else 10 * DigitsValue(s[..|s| - 1]) + (s[|s| - 1] as int - '0' as int)
  }

  /** Parses what `NumberText` prints. */
  function ParseNumber(s: string): Option<int> {
    if |s| >= 2 && s[0] == '-' && AllDigits(s[1..]) then Some(-(DigitsValue(s[1..]) as int))
    else if |s| >= 1 && AllDigits(s) then Some(DigitsValue(s))
    else None
  }

  lemma {:induction false} DigitsRoundTrip(n: nat)
    ensures DigitsValue(Digits(n)) == n
    decreases n
  {
    if n >= 10 {
      DigitsRoundTrip(n / 10);
      var s := Digits(n / 10) + [DigitChar(n % 10)];
      assert s[..|s| - 1] == Digits(n / 10);
    }
  }

  /** A number printed into a template can be read back: no two numbers print alike. */
  lemma NumberTextRoundTrip(n: int)
    ensures ParseNumber(NumberText(n)) == Some(n)
  {
    if n < 0 {
      DigitsRoundTrip(-n);
      assert ("-" + Digits(-n))[1..] == Digits(-n);
    } else {
      DigitsRoundTrip(n);
    }
  }

  /** A run of `n` spaces, the indentation inside a template literal. */
  function Spaces(n: nat): (r: string)
    ensures |r| == n && forall i :: 0 <= i < n ==> r[i] == ' '
  {
    seq(n, _ => ' ')
  }

  // ---------------------------------------------------------------------------
  // String concatenation (`+` and `+=` on strings)

  /** Regrouping a concatenation after its first part. */
  lemma Regroup(x: string, y: string, z: string, w: string)
    ensures x + (y + z + w) == x + y + (z + w) == x + y + z + w
    ensures x + (y + z) == x + y + z
    ensures [] + y == y && z + [] == z
  {
  }
}
