/** Base-ten printing of integers, as `Int64ToStr` (xxl/util.go) and `%d` do it. */
module Decimal {
  import opened Common

  function Digit(d: nat): char
    requires d < 10
  {
    "0123456789"[d]
  }

  function DigitValue(c: char): Option<nat> {
    if '0' <= c <= '9' then Some(c as nat - '0' as nat) else None
  }

  function FormatNat(n: nat): string {
    if n < 10 then [Digit(n)] else FormatNat(n / 10) + [Digit(n % 10)]
  }

  /** `strconv.FormatInt(i, 10)`, on every integer and so on every int64. */
  function FormatInt(i: int): string {
    if i < 0 then "-" + FormatNat(-i) else FormatNat(i)
  }

  function ParseNat(s: string): Option<nat> {
    if s == [] then None
    else
      var last := DigitValue(s[|s| - 1]);
      if last.None? then None
      else if |s| == 1 then last
      else
        var init := ParseNat(s[..|s| - 1]);
        if init.None? then None else Some(10 * init.value + last.value)
  }

  function ParseInt(s: string): Option<int> {
    if s != [] && s[0] == '-' then
      var n := ParseNat(s[1..]);
      if n.None? then None else Some(-(n.value as int))
    else
      var n := ParseNat(s);
      if n.None? then None else Some(n.value as int)
  }

  lemma {:induction false} ParseFormatNat(n: nat)
    ensures FormatNat(n) != [] && FormatNat(n)[0] != '-'
    ensures ParseNat(FormatNat(n)) == Some(n)
  {
    if n >= 10 {
      ParseFormatNat(n / 10);
      var s := FormatNat(n);
      assert s[..|s| - 1] == FormatNat(n / 10);
      assert s[0] == FormatNat(n / 10)[0];
    }
  }

  lemma ParseFormatInt(i: int)
    ensures ParseInt(FormatInt(i)) == Some(i)
  {
    var s := FormatInt(i);
    if i < 0 {
      ParseFormatNat(-i);
      assert s[0] == '-' && s[1..] == FormatNat(-i);
    } else {
      ParseFormatNat(i);
      assert s == FormatNat(i);
    }
  }

  /** Distinct ids print as distinct strings, so a string can stand for an id as a map key. */
  lemma FormatIntInjective(i: int, j: int)
    requires FormatInt(i) == FormatInt(j)
    ensures i == j
  {
    ParseFormatInt(i);
    ParseFormatInt(j);
  }

  /** It prints digits, without a leading zero but for zero itself. */
  lemma {:induction false} PrintsPlainDigits(n: nat)
    ensures FormatNat(n) != [] && forall i :: 0 <= i < |FormatNat(n)| ==> '0' <= FormatNat(n)[i] <= '9'
    ensures FormatNat(n)[0] == '0' <==> n == 0
    ensures n == 0 ==> FormatNat(n) == "0"
  {
    if n >= 10 {
      PrintsPlainDigits(n / 10);
      assert FormatNat(n)[0] == FormatNat(n / 10)[0];
    }
  }

  /** A negative number is its absolute value behind a minus sign. */
  lemma PrintsTheSign(i: int)
    ensures FormatInt(i)[0] == '-' <==> i < 0
    ensures i < 0 ==> FormatInt(i)[1..] == FormatInt(-i)
  {
    PrintsPlainDigits(if i < 0 then -i else i);
  }
}
