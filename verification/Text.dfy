/** Decimal numerals, as the program prints and parses them. */
module Text {
  datatype Option<+T> = None | Some(value: T)

  function Digit(d: nat): char
    requires d < 10
  {
    ('0' as int + d) as char
  }

  predicate IsDigit(c: char) {
    '0' <= c <= '9'
  }

  /** The decimal numeral of a natural number, without leading zeros. */
  function Decimal(n: nat): (s: string)
    ensures |s| > 0 && forall i | 0 <= i < |s| :: IsDigit(s[i])
  {
    if n < 10 then [Digit(n)] else Decimal(n / 10) + [Digit(n % 10)]
  }

  /** `fmt.Sprintf("%d", n)` and `strconv.Itoa(n)`. */
  function Itoa(n: int): string {
    if n < 0 then "-" + Decimal(-n) else Decimal(n)
  }

  predicate AllDigits(s: string) {
    forall i | 0 <= i < |s| :: IsDigit(s[i])
  }

  function Value(s: string): nat
    requires AllDigits(s)
  {
    if s == [] then 0
    else 10 * Value(s[..|s| - 1]) + (s[|s| - 1] as int - '0' as int)
  }

  /** `strconv.Atoi`, without its range check. */
  function Atoi(s: string): Option<int> {
    if s != [] && (s[0] == '-' || s[0] == '+') then
      if |s| > 1 && AllDigits(s[1..]) then
        var v: int := Value(s[1..]);
        Some(if s[0] == '-' then -v else v)
      else None
    else if s != [] && AllDigits(s) then Some(Value(s))
    else None
  }

  lemma {:induction false} ValueOfDecimal(n: nat)
    ensures Value(Decimal(n)) == n
  {
    if n >= 10 {
      ValueOfDecimal(n / 10);
      assert Decimal(n)[..|Decimal(n)| - 1] == Decimal(n / 10);
    }
  }

  /** Printing and parsing are inverse, so printing is injective. */
  lemma AtoiOfItoa(n: int)
    ensures Atoi(Itoa(n)) == Some(n)
  {
    if n < 0 {
      ValueOfDecimal(-n);
      assert Itoa(n)[1..] == Decimal(-n);
    } else {
      ValueOfDecimal(n);
      assert IsDigit(Itoa(n)[0]);
    }
  }

  lemma NumeralExamples()
    ensures Itoa(24000) == "24000" && Itoa(0) == "0" && Itoa(-2) == "-2"
    ensures Atoi("+7") == Some(7) && Atoi("-12") == Some(-12) && Atoi("") == None && Atoi("1a") == None
  {
    assert Decimal(24) == "24" && Decimal(240) == "240" && Decimal(2400) == "2400";
    assert "+7"[1..] == "7" && "7"[..0] == "";
    assert "-12"[1..] == "12" && "12"[..1] == "1" && "1"[..0] == "";
    assert !IsDigit("1a"[1]);
  }
}
