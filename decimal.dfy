/** Decimal text of unsigned integers: Rust's `u128::from_str`, used where
    src/reply.rs turns a payload's amount string into a coin amount, and the
    `to_string` formatting it is the inverse of. */
module Decimal {
  import opened Common

  predicate IsDigit(c: char) {
    '0' <= c <= '9'
  }

  predicate AllDigits(s: string) {
    forall i :: 0 <= i < |s| ==> IsDigit(s[i])
  }

  function DigitValue(c: char): (d: nat)
    requires IsDigit(c)
    ensures d < 10
  {
    (c as int) - ('0' as int)
  }

  function DigitChar(d: nat): (c: char)
    requires d < 10
    ensures IsDigit(c) && DigitValue(c) == d
  {
    (('0' as int) + d) as char
  }

  /** The number a string of digits denotes, most significant first. */
  function Value(s: string): nat
    requires AllDigits(s)
  {
    if s == [] then 0 else Value(s[..|s| - 1]) * 10 + DigitValue(s[|s| - 1])
  }

  /** The shortest decimal text of `n` (what `to_string` prints). */
  function ToDecimal(n: nat): (s: string)
    ensures AllDigits(s) && |s| > 0
    ensures |s| > 1 ==> s[0] != '0'
    decreases n
  {
    if n < 10 then [DigitChar(n)] else ToDecimal(n / 10) + [DigitChar(n % 10)]
  }

  /** `u128::from_str`: an optional leading `+`, then at least one digit and
      nothing else, denoting a value below 2^128; anything else is an error. */
  function ParseU128(s: string): (r: Option<u128>)
    ensures r.Some? <==> (
      var digits := if |s| > 0 && s[0] == '+' then s[1..] else s;
      |digits| > 0 && AllDigits(digits) && Value(digits) < U128_LIMIT)
    ensures r.Some? ==> r.value as nat == Value(if s[0] == '+' then s[1..] else s)
  {
    var digits := if |s| > 0 && s[0] == '+' then s[1..] else s;
    if |digits| == 0 || !AllDigits(digits) then None
    else if Value(digits) < U128_LIMIT then Some(Value(digits))
    else None
  }

  lemma {:induction false} ValueOfToDecimal(n: nat)
    ensures Value(ToDecimal(n)) == n
    decreases n
  {
    var s := ToDecimal(n);
    if n >= 10 {
      ValueOfToDecimal(n / 10);
      assert s[..|s| - 1] == ToDecimal(n / 10);
    }
  }

  /** Parsing what `to_string` printed gives the number back. */
  lemma ParseToDecimal(n: u128)
    ensures ParseU128(ToDecimal(n)) == Some(n)
  {
    ValueOfToDecimal(n);
  }

  /** Text with any character other than a digit after the optional sign
      does not parse. */
  lemma ParseRejectsNonDigits(s: string, i: int)
    requires 0 <= i < |s| && !IsDigit(s[i]) && !(i == 0 && s[i] == '+')
    ensures ParseU128(s) == None
  {
  }

  /** Neither the empty text nor a lone sign parses: at least one digit is
      needed. */
  lemma ParseNeedsADigit()
    ensures ParseU128("") == None && ParseU128("+") == None
  {
  }
}
