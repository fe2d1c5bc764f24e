/** strconv.FormatInt and strconv.ParseInt in base 10 for 64-bit integers. */
module Decimal {
  import opened Wrappers

  const MIN_INT64: int := -0x8000_0000_0000_0000
  const MAX_INT64: int := 0x7FFF_FFFF_FFFF_FFFF

  type int64 = n: int | MIN_INT64 <= n <= MAX_INT64

  predicate IsDigit(c: char) {
    '0' <= c <= '9'
  }

  predicate AllDigits(s: string) {
    forall i :: 0 <= i < |s| ==> IsDigit(s[i])
  }

  function Digit(d: nat): (c: char)
    requires d < 10
    ensures IsDigit(c) && c as int - '0' as int == d
  {
    (d + '0' as int) as char
  }

  function FormatNat(n: nat): (s: string)
    ensures s != "" && AllDigits(s)
  {
    if n < 10 then [Digit(n)] else FormatNat(n / 10) + [Digit(n % 10)]
  }

  function FormatInt(n: int): string {
    if n < 0 then "-" + FormatNat(0 - n) else FormatNat(n)
  }

  function ValueOf(s: string): nat
    requires AllDigits(s)
  {
    if s == "" then 0
    else
      var last := |s| - 1;
      10 * ValueOf(s[..last]) + (s[last] as int - '0' as int)
  }

  function ParseNat(s: string): Option<nat> {
    if s == "" || !AllDigits(s) then None else Some(ValueOf(s))
  }

  /** strconv.ParseInt(s, 10, 64): an optional sign, at least one digit, and the result in range. */
  function ParseInt(s: string): (r: Option<int>)
    ensures r.Some? ==> MIN_INT64 <= r.value <= MAX_INT64
  {
    if s == "" then None
    else
      var signed := s[0] == '-' || s[0] == '+';
      match ParseNat(if signed then s[1..] else s)
      case None => None
      case Some(v) =>
        var n: int := if s[0] == '-' then 0 - v else v;
        if MIN_INT64 <= n <= MAX_INT64 then Some(n) else None
  }

  lemma {:induction false} ParseNatFormatNat(n: nat)
    ensures ParseNat(FormatNat(n)) == Some(n)
  {
    if n >= 10 {
      ParseNatFormatNat(n / 10);
      var s := FormatNat(n);
      assert s[..|s| - 1] == FormatNat(n / 10);
      assert s[|s| - 1] == Digit(n % 10);
      assert ValueOf(s) == 10 * ValueOf(FormatNat(n / 10)) + n % 10;
    }
  }

  /** Every 64-bit id survives being printed and parsed again. */
  lemma ParseIntFormatInt(n: int64)
    ensures ParseInt(FormatInt(n)) == Some(n)
  {
    if n < 0 {
      ParseNatFormatNat(0 - n);
      assert FormatInt(n)[1..] == FormatNat(0 - n);
    } else {
      ParseNatFormatNat(n);
      assert IsDigit(FormatNat(n)[0]);
    }
  }

  lemma FormatIntInjective(m: int64, n: int64)
    requires FormatInt(m) == FormatInt(n)
    ensures m == n
  {
    ParseIntFormatInt(m);
    ParseIntFormatInt(n);
  }

  /** Printed ids consist of digits and at most a leading minus sign. */
  lemma FormatIntAlphabet(n: int, c: char)
    requires c in FormatInt(n)
    ensures IsDigit(c) || c == '-'
  {
    if n < 0 {
      var i :| 0 <= i < |FormatInt(n)| && FormatInt(n)[i] == c;
      if i > 0 {
        assert IsDigit(FormatNat(0 - n)[i - 1]);
      }
    }
  }

  // ---- the printed form is the only one ----

  /** Digits without a leading zero. */
  predicate IsCanonical(s: string) {
    s != "" && AllDigits(s) && (|s| > 1 ==> s[0] != '0')
  }

  lemma {:induction false} FormatNatIsCanonical(n: nat)
    ensures IsCanonical(FormatNat(n))
    ensures n > 0 ==> FormatNat(n)[0] != '0'
  {
    if n >= 10 {
      FormatNatIsCanonical(n / 10);
    }
  }

  lemma {:induction false} ValueIsPositive(s: string)
    requires AllDigits(s) && s != "" && s[0] != '0'
    ensures ValueOf(s) > 0
  {
    if |s| > 1 {
      ValueIsPositive(s[..|s| - 1]);
    }
  }

  /** A number is printed as the one string of digits without a leading zero that has its value. */
  lemma {:induction false} FormatNatExactly(n: nat, s: string)
    ensures s == FormatNat(n) <==> IsCanonical(s) && ValueOf(s) == n
    decreases n
  {
    FormatNatIsCanonical(n);
    ParseNatFormatNat(n);
    if IsCanonical(s) && ValueOf(s) == n {
      var front, last := s[..|s| - 1], s[|s| - 1];
      assert n == 10 * ValueOf(front) + (last as int - '0' as int);
      if front == "" {
        assert s == [last];
      } else {
        ValueIsPositive(s);
        ValueIsPositive(front);
        FormatNatExactly(n / 10, front);
        assert s == front + [last];
      }
    }
  }

  // ---- exactly what is parsed ----

  /** text is an optional sign and at least one digit, with this value. */
  predicate Denotes(text: string, n: int) {
    || (IsNumeral(text) && ValueOf(text) == n)
    || (text != "" && text[0] == '+' && IsNumeral(text[1..]) && ValueOf(text[1..]) == n)
    || (text != "" && text[0] == '-' && IsNumeral(text[1..]) && 0 - ValueOf(text[1..]) == n)
  }

  predicate IsNumeral(text: string) {
    text != "" && AllDigits(text)
  }

  /** Exactly the 64-bit numbers are parsed, from every text that denotes them. */
  lemma ParseIntExactly(text: string, n: int)
    ensures ParseInt(text) == Some(n) <==> Denotes(text, n) && MIN_INT64 <= n <= MAX_INT64
  {
    assert IsNumeral(text) ==> IsDigit(text[0]);
  }
}
