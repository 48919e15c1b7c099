/** The parts of Go's `strconv` package the core relies on: `Atoi` for path
    codes, `ParseBool` for boolean settings, and `Itoa` (the decimal rendering
    that `Atoi` inverts). Strings are sequences of characters; Go's byte strings
    are modelled by their characters. */
module Strconv {
  import opened Wrappers
  import opened GoInt

  predicate IsDigit(c: char) {
    '0' <= c <= '9'
  }

  predicate AllDigits(s: string) {
    forall i :: 0 <= i < |s| ==> IsDigit(s[i])
  }

  function DigitValue(c: char): nat
    requires IsDigit(c)
  {
    (c as int) - ('0' as int)
  }

  function DigitChar(d: nat): (c: char)
    requires d < 10
    ensures IsDigit(c) && DigitValue(c) == d
  {
    (('0' as int) + d) as char
  }

  /** Value of a run of decimal digits, read left to right as Go's loop
      `n = n*10 + int(ch)` does. */
  function DigitsValue(s: string): nat
    requires AllDigits(s)
  {
    if |s| == 0 then 0 else DigitsValue(s[..|s| - 1]) * 10 + DigitValue(s[|s| - 1])
  }

  /** `strconv.Atoi` on a 64-bit platform: an optional '+' or '-', then one or
      more decimal digits, and a value within the int64 range; anything else is
      an error (a syntax error, or a range error for too many digits). */
  function Atoi(s: string): (r: Option<int>)
    ensures r.Some? ==> InInt64(r.value)
  {
    if |s| == 0 then None
    else
      var signed := s[0] == '-' || s[0] == '+';
      var digits := if signed then s[1..] else s;
      if |digits| == 0 || !AllDigits(digits) then None
      else
        var v: int := if s[0] == '-' then 0 - DigitsValue(digits) as int else DigitsValue(digits);
        if InInt64(v) then Some(v) else None
  }

  /** Decimal rendering of a natural number, without leading zeros. */
  function Itoa(n: nat): (s: string)
    ensures |s| > 0 && AllDigits(s)
    ensures s[0] != '-' && s[0] != '+'
  {
    if n < 10 then [DigitChar(n)] else Itoa(n / 10) + [DigitChar(n % 10)]
  }

  /** Reading back a rendered number gives the number. */
  lemma {:induction false} DigitsValueItoa(n: nat)
    ensures DigitsValue(Itoa(n)) == n
  {
    if n >= 10 {
      var s := Itoa(n);
      var prefix := Itoa(n / 10);
      assert s[..|s| - 1] == prefix;
      DigitsValueItoa(n / 10);
    }
  }

  /** `Atoi` inverts `Itoa` over the non-negative int64 range. */
  lemma AtoiItoa(n: nat)
    requires n <= MaxInt64
    ensures Atoi(Itoa(n)) == Some(n)
  {
    DigitsValueItoa(n);
  }

  /** `strconv.ParseBool`: the six spellings of true, the six of false, and an
      error for everything else. */
  function ParseBool(s: string): Option<bool>
  {
    if s in {"1", "t", "T", "TRUE", "true", "True"} then Some(true)
    else if s in {"0", "f", "F", "FALSE", "false", "False"} then Some(false)
    else None
  }
}
