/**
 * Decimal text of integers: the `%d` verb of Go's fmt package and
 * strconv.Atoi, for Go's 64-bit `int`.
 */
module Decimal {
  import opened Wrappers

  const MinInt: int := -0x8000_0000_0000_0000
  const MaxInt: int := 0x7fff_ffff_ffff_ffff

  predicate IsDigit(c: char) {
    '0' <= c <= '9'
  }

  predicate AllDigits(s: string) {
    forall i | 0 <= i < |s| :: IsDigit(s[i])
  }

  /** The value of a run of decimal digits, most significant digit first. */
  function DigitsValue(s: string): nat
    requires AllDigits(s)
  {
    if s == [] then 0
    else 10 * DigitsValue(s[..|s| - 1]) + (s[|s| - 1] as int - '0' as int)
  }

  /** The shortest decimal digits of a natural number. */
  function NatToDecimal(n: nat): (s: string)
    ensures s != [] && AllDigits(s)
    ensures |s| > 1 ==> s[0] != '0'
  {
    var last := ('0' as int + n % 10) as char;
    if n < 10 then [last] else NatToDecimal(n / 10) + [last]
  }

  /** `fmt.Sprintf("%d", n)`. */
  function IntToDecimal(n: int): (s: string)
    ensures s != [] && (s[0] == '-' <==> n < 0)
  {
    if n < 0 then "-" + NatToDecimal(-n) else NatToDecimal(n)
  }

  /** strconv's syntax for base 10: an optional sign, then one or more digits. */
  function ParseDecimal(s: string): Option<int> {
    if s == [] then None
    else if s[0] == '+' || s[0] == '-' then
      var digits := s[1..];
      if digits != [] && AllDigits(digits) then
        Some(if s[0] == '-' then 0 - DigitsValue(digits) else DigitsValue(digits) as int)
      else None
    else if AllDigits(s) then Some(DigitsValue(s))
    else None
  }

  /** strconv.Atoi: the syntax above, and the value must fit a 64-bit int. */
  function Atoi(s: string): (r: Option<int>)
    ensures r.Some? ==> MinInt <= r.value <= MaxInt
  {
    match ParseDecimal(s)
    case Some(v) => if MinInt <= v <= MaxInt then Some(v) else None
    case None => None
  }

  lemma {:induction false} DigitsOfDecimal(n: nat)
    ensures DigitsValue(NatToDecimal(n)) == n
  {
    if n >= 10 {
      var s := NatToDecimal(n);
      assert s[..|s| - 1] == NatToDecimal(n / 10);
      DigitsOfDecimal(n / 10);
    }
  }

  /** Parsing what `%d` prints gives back the number. */
  lemma DecimalRoundTrip(n: int)
    ensures ParseDecimal(IntToDecimal(n)) == Some(n)
  {
    if n < 0 {
      var s := IntToDecimal(n);
      assert s[1..] == NatToDecimal(-n);
      DigitsOfDecimal(-n);
    } else {
      DigitsOfDecimal(n);
    }
  }

  /** strconv.Atoi accepts what `%d` prints for every 64-bit int, with the same value. */
  lemma AtoiRoundTrip(n: int)
    requires MinInt <= n <= MaxInt
    ensures Atoi(IntToDecimal(n)) == Some(n)
  {
    DecimalRoundTrip(n);
  }

  /** Distinct integers print differently. */
  lemma DecimalInjective(a: int, b: int)
    requires IntToDecimal(a) == IntToDecimal(b)
    ensures a == b
  {
    DecimalRoundTrip(a);
    DecimalRoundTrip(b);
  }

  /** strconv.Atoi rejects the empty string, a lone sign and any non-digit. */
  lemma AtoiRejects(s: string)
    requires s == [] || s == "+" || s == "-" || exists i | 0 <= i < |s| :: s[i] == ' '
    ensures Atoi(s) == None
  {
    if s != [] && s != "+" && s != "-" {
      var i :| 0 <= i < |s| && s[i] == ' ';
      if s[0] == '+' || s[0] == '-' {
        assert i > 0 && s[1..][i - 1] == ' ';
      }
    }
  }

  /** What `%d` prints is a minus sign and digits only. */
  lemma DecimalCharacters(n: int)
    ensures forall i | 0 <= i < |IntToDecimal(n)| :: IntToDecimal(n)[i] == '-' || IsDigit(IntToDecimal(n)[i])
  {
    if n < 0 {
      var s := IntToDecimal(n);
      forall i | 0 <= i < |s| ensures s[i] == '-' || IsDigit(s[i]) {
        if i > 0 {
          assert s[i] == NatToDecimal(-n)[i - 1];
        }
      }
    }
  }
}
