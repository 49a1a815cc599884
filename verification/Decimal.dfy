/** strconv.FormatInt and strconv.ParseInt in base 10, 64 bits. */
module Decimal {
  import opened Wrappers
  import opened Text

  const INT64_MIN := -0x8000_0000_0000_0000
  const INT64_MAX := 0x7fff_ffff_ffff_ffff

  predicate InInt64(n: int) {
    INT64_MIN <= n <= INT64_MAX
  }

  /** Two's complement wrap-around. */
  function Wrap64(n: int): int {
    (n + 0x8000_0000_0000_0000) % 0x1_0000_0000_0000_0000 - 0x8000_0000_0000_0000
  }

  predicate IsDigit(c: char) {
    '0' <= c <= '9'
  }

  predicate AllDigits(s: string) {
    forall i | 0 <= i < |s| :: IsDigit(s[i])
  }

  function Digits(n: nat): (s: Bytes)
    ensures s != [] && AllDigits(s)
  {
    if n < 10 then [Digit(n)] else Digits(n / 10) + [Digit(n % 10)]
  }

  function Digit(d: nat): (c: Octet)
    requires d < 10
    ensures IsDigit(c)
  {
    ('0' as int + d) as char
  }

  /** FormatInt writes digits, after a minus sign if the number is negative. */
  function FormatInt(n: int): (s: Bytes)
    ensures s != [] && (IsDigit(s[0]) || s[0] == '-') && AllDigits(s[1..])
  {
    if n < 0 then ['-'] + Digits(-n) else Digits(n)
  }

  function DigitValue(c: char): nat
    requires IsDigit(c)
  {
    c as int - '0' as int
  }

  /** The number that a string of digits writes. */
  function Value(s: string): nat
    requires AllDigits(s)
  {
    if s == "" then 0 else 10 * Value(s[..|s| - 1]) + DigitValue(s[|s| - 1])
  }

  /** The number written: an optional sign, at least one digit and nothing else. */
  function Written(s: string): Option<int> {
    var digits := if s != "" && (s[0] == '+' || s[0] == '-') then s[1..] else s;
    if digits == "" || !AllDigits(digits) then None
    else Some(if s[0] == '-' then -(Value(digits) as int) else Value(digits))
  }

  /** ParseInt: an error unless a number is written and fits. */
  function ParseInt(s: string): Option<int> {
    var n := Written(s);
    if n.Some? && InInt64(n.value) then n else None
  }

  /** What ParseInt returns beside its error: the nearest number that fits, or 0 if none is written. */
  function ParsedAnyway(s: string): int {
    match Written(s)
    case None => 0
    case Some(n) => if n < INT64_MIN then INT64_MIN else if n > INT64_MAX then INT64_MAX else n
  }

  /** The wrapped number is the one in range that differs by a multiple of 2^64. */
  lemma WrapIsCongruent(n: int, m: int)
    ensures Wrap64(n) == m
       <==> && -9_223_372_036_854_775_808 <= m <= 9_223_372_036_854_775_807
            && (n - m) % 18_446_744_073_709_551_616 == 0
  {
  }

  /** n times ten to the k. */
  function Shifted(n: nat, k: nat): nat {
    if k == 0 then n else 10 * Shifted(n, k - 1)
  }

  /** Each digit counts by its place. */
  lemma {:induction false} ValueByPlace(a: string, b: string)
    requires AllDigits(a) && AllDigits(b)
    ensures Value(a + b) == Shifted(Value(a), |b|) + Value(b)
    ensures |b| == 1 ==> Value(b) == b[0] as int - 48
  {
    var s := a + b;
    if b == "" {
      assert s == a;
    } else {
      assert s[..|s| - 1] == a + b[..|b| - 1];
      ValueByPlace(a, b[..|b| - 1]);
    }
  }

  /** A number is written without leading zeros, plus sign or negative zero. */
  lemma {:induction false} NoLeadingZero(n: nat)
    ensures |Digits(n)| > 1 ==> Digits(n)[0] != '0'
    ensures n > 0 ==> Digits(n)[0] != '0'
  {
    if n >= 10 {
      NoLeadingZero(n / 10);
    }
  }

  lemma {:induction false} DigitsValue(n: nat)
    ensures Value(Digits(n)) == n
  {
    if n >= 10 {
      DigitsValue(n / 10);
      assert Digits(n)[..|Digits(n)| - 1] == Digits(n / 10);
    }
  }

  /** A number is read exactly from the digits that come to it, leading zeros included,
      after an optional sign. */
  lemma ParsesIff(s: string, n: int)
    ensures ParseInt(s) == Some(n)
       <==> && -9_223_372_036_854_775_808 <= n <= 9_223_372_036_854_775_807
            && exists digits | digits != "" && AllDigits(digits) ::
                 || (s == digits && n == Value(digits))
                 || (s == ['+'] + digits && n == Value(digits))
                 || (s == ['-'] + digits && n == -(Value(digits) as int))
  {
    if s != "" {
      assert ['+'] + s[1..] == s || ['-'] + s[1..] == s || !(s[0] == '+' || s[0] == '-');
      assert s[0] == '+' || s[0] == '-' ==> !AllDigits(s);
    }
    if ParseInt(s) == Some(n) {
      var digits := if s[0] == '+' || s[0] == '-' then s[1..] else s;
      assert digits != "" && AllDigits(digits);
    }
  }

  /** Formatting then parsing gives the number back exactly when it fits. */
  lemma ParseFormatted(n: int)
    ensures ParseInt(FormatInt(n)) == if InInt64(n) then Some(n) else None
  {
    var m: nat := if n < 0 then -n else n;
    DigitsValue(m);
    assert n < 0 ==> FormatInt(n)[1..] == Digits(m);
    assert IsDigit(Digits(m)[0]);
  }

  /** Distinct numbers are written differently. */
  lemma FormatIsInjective(n: int, n': int)
    requires FormatInt(n) == FormatInt(n')
    ensures n == n'
  {
    var m: nat, m': nat := if n < 0 then -n else n, if n' < 0 then -n' else n';
    DigitsValue(m);
    DigitsValue(m');
    assert IsDigit(Digits(m)[0]) && IsDigit(Digits(m')[0]);
    assert n < 0 ==> FormatInt(n)[1..] == Digits(m);
    assert n' < 0 ==> FormatInt(n')[1..] == Digits(m');
  }

  /** A number that does not fit counts as the nearest one that does. */
  lemma AnywayIsNearest(n: int)
    ensures ParsedAnyway(FormatInt(n))
         == if n < -9_223_372_036_854_775_808 then -9_223_372_036_854_775_808
            else if n > 9_223_372_036_854_775_807 then 9_223_372_036_854_775_807 else n
  {
    var m: nat := if n < 0 then -n else n;
    DigitsValue(m);
    assert n < 0 ==> FormatInt(n)[1..] == Digits(m);
    assert IsDigit(Digits(m)[0]);
  }

  /** The error and the value agree: without an error the value is the number, and with one
      it is 0 or a bound. */
  lemma ParsedAnywayAgrees(s: string)
    ensures ParseInt(s).Some? ==> ParsedAnyway(s) == ParseInt(s).value
    ensures ParseInt(s).None? ==> ParsedAnyway(s) in {0, INT64_MIN, INT64_MAX}
  {
  }
}
