/** Decimal rendering and parsing of integers, as Rust's `Display` for integers
    and `u64::from_str` do them. */
module Decimal {
  import opened Results

  /** 2^64: every `u64` value is below it. */
  const U64_LIMIT: nat := 0x1_0000_0000_0000_0000

  predicate IsDigit(c: char) {
    '0' <= c <= '9'
  }

  predicate AllDigits(s: string) {
    forall i :: 0 <= i < |s| ==> IsDigit(s[i])
  }

  function DigitValue(c: char): (d: nat)
    requires IsDigit(c)
    ensures d < 10
  {
    c as int - '0' as int
  }

  function DigitChar(d: nat): (c: char)
    requires d < 10
    ensures IsDigit(c) && DigitValue(c) == d
  {
    ('0' as int + d) as char
  }

  /** The number a string of decimal digits denotes, most significant digit first. */
  function Value(s: string): nat
    requires AllDigits(s)
  {
    if s == [] then 0 else Value(s[..|s| - 1]) * 10 + DigitValue(s[|s| - 1])
  }

  /** Rust's `{}` rendering of a non-negative integer: no sign, no leading zero. */
  function Show(n: nat): (s: string)
    ensures |s| > 0 && AllDigits(s)
    ensures n >= 10 ==> s[0] != '0'
    ensures n < 10 <==> |s| == 1
  {
    if n < 10 then [DigitChar(n)] else Show(n / 10) + [DigitChar(n % 10)]
  }

  /** Rust's `{}` rendering of a signed integer (an `i32` exit status). */
  function ShowInt(i: int): (s: string)
    ensures |s| > 0
    ensures i < 0 <==> s[0] == '-'
  {
    if i < 0 then "-" + Show(-i) else Show(i)
  }

  /** `Show` renders every number so that reading it back gives the number again. */
  lemma {:induction false} ValueOfShow(n: nat)
    ensures Value(Show(n)) == n
  {
    if n >= 10 {
      var s := Show(n);
      assert s[..|s| - 1] == Show(n / 10);
      ValueOfShow(n / 10);
    }
  }

  lemma {:induction false} ShowLength(n: nat, k: nat)
    requires n < Pow10(k)
    ensures |Show(n)| <= if k == 0 then 1 else k
  {
    if n >= 10 {
      ShowLength(n / 10, k - 1);
    }
  }

  function Pow10(k: nat): (p: nat)
    ensures p >= 1
  {
    if k == 0 then 1 else 10 * Pow10(k - 1)
  }

  /** Rust's `u64::from_str`: an optional `+`, then one or more ASCII digits
      (leading zeros allowed) whose value fits in 64 bits; anything else is an error. */
  function ParseU64(s: string): (r: Option<nat>)
    ensures r.Some? ==> r.value < U64_LIMIT
    ensures r.Some? ==> |s| > 0 && forall i :: 0 <= i < |s| ==> IsDigit(s[i]) || (i == 0 && s[i] == '+')
  {
    var digits := if |s| > 0 && s[0] == '+' then s[1..] else s;
    if |digits| > 0 && AllDigits(digits) && Value(digits) < U64_LIMIT then Some(Value(digits)) else None
  }

  /** Every `u64` survives rendering and parsing back, with or without a leading `+`. */
  lemma ParseU64OfShow(n: nat)
    requires n < U64_LIMIT
    ensures ParseU64(Show(n)) == Some(n)
    ensures ParseU64("+" + Show(n)) == Some(n)
  {
    ValueOfShow(n);
    assert ("+" + Show(n))[1..] == Show(n);
  }

  /** A rendered number never contains a space or a line break, so it can be
      placed inside a space-separated, line-oriented record. */
  lemma ShowHasNoSeparator(n: nat)
    ensures ' ' !in Show(n) && '\n' !in Show(n)
  {
    var s := Show(n);
    assert forall i :: 0 <= i < |s| ==> IsDigit(s[i]);
  }
}
