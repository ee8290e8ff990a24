/** Decimal printing and parsing, and the "text, separator, number" keys built from it:
    backend names "svc-0", VIP keys "10.0.0.1:80" and endpoint addresses "10.1.2.3:8080". */
module Text {
  import opened MachineInts

  datatype Option<+T> = None | Some(value: T)

  predicate IsDigit(c: char) {
    '0' <= c <= '9'
  }

  predicate AllDigits(s: string) {
    forall i | 0 <= i < |s| :: IsDigit(s[i])
  }

  function DigitChar(d: nat): (c: char)
    requires d < 10
    ensures IsDigit(c) && c as int - '0' as int == d
  {
    (d + '0' as int) as char
  }

  function Digits(n: nat): (s: string)
    ensures |s| > 0 && AllDigits(s)
    ensures if n == 0 then s == "0" else s[0] != '0'
  {
    if n < 10 then [DigitChar(n)] else Digits(n / 10) + [DigitChar(n % 10)]
  }

  /** What the verb %d prints. */
  function Decimal(n: int): (s: string)
    ensures |s| > 0
  {
    if n < 0 then "-" + Digits(-n) else Digits(n)
  }

  function DigitsValue(s: string): nat
    requires AllDigits(s)
  {
    if s == [] then 0 else 10 * DigitsValue(s[..|s| - 1]) + (s[|s| - 1] as int - '0' as int)
  }

  function Clamp(v: int): int {
    if v < MIN_INT64 then MIN_INT64 else if v > MAX_INT64 then MAX_INT64 else v
  }

  /** The digits a text starts with. */
  function Leading(s: string): (r: string)
    ensures AllDigits(r) && (AllDigits(s) ==> r == s)
  {
    if s == [] || !IsDigit(s[0]) then [] else [s[0]] + Leading(s[1..])
  }

  /** The digits are read from the left: a number that outgrows uint64 is out of range whatever
      follows it, otherwise a foreign character makes the text malformed. */
  function AtoiUnsigned(s: string, sign: int): int {
    var v := DigitsValue(Leading(s));
    if s != [] && (AllDigits(s) || v > MAX_UINT64) then Clamp(sign * v) else 0
  }

  /** strconv.Atoi with its error dropped, as its callers use it: zero for a malformed text,
      the nearest bound for a number that does not fit. */
  function Atoi(s: string): int {
    if s != [] && s[0] == '-' then AtoiUnsigned(s[1..], -1)
    else if s != [] && s[0] == '+' then AtoiUnsigned(s[1..], 1)
    else AtoiUnsigned(s, 1)
  }

  /** Where strconv.Atoi returns no error. */
  predicate IsInt(s: string) {
    var digits := if s != [] && (s[0] == '-' || s[0] == '+') then s[1..] else s;
    digits != [] && AllDigits(digits)
    && MIN_INT64 <= DigitsValue(digits) * (if s[0] == '-' then -1 else 1) <= MAX_INT64
  }

  lemma {:induction false} DigitsRoundTrip(n: nat)
    ensures DigitsValue(Digits(n)) == n
  {
    if n < 10 {
      assert DigitsValue([DigitChar(n)][..0]) == 0;
    } else {
      DigitsRoundTrip(n / 10);
      var s := Digits(n / 10) + [DigitChar(n % 10)];
      assert s[..|s| - 1] == Digits(n / 10);
    }
  }

  lemma AtoiOfDigits(n: nat, sign: int)
    requires sign == 1 || sign == -1
    requires MIN_INT64 <= sign * n <= MAX_INT64
    ensures AtoiUnsigned(Digits(n), sign) == sign * n
  {
    DigitsRoundTrip(n);
  }

  /** A number as written is read as such, a text without digits as zero. */
  lemma AtoiMeans(s: string)
    ensures IsInt(s) ==> Atoi(s) == if s[0] == '-' then -1 * DigitsValue(s[1..]) else if s[0] == '+' then DigitsValue(s[1..]) else DigitsValue(s)
    ensures Leading(s) == [] && (s == [] || (s[0] != '-' && s[0] != '+')) ==> Atoi(s) == 0
  {
  }

  /** Reading back what was printed loses nothing within the range of a Go int. */
  lemma AtoiDecimal(n: int)
    requires MIN_INT64 <= n <= MAX_INT64
    ensures Atoi(Decimal(n)) == n
  {
    var s := Decimal(n);
    if n < 0 {
      AtoiOfDigits(-n, -1);
      assert s[1..] == Digits(-n);
    } else {
      AtoiOfDigits(n, 1);
      assert IsDigit(s[0]);
    }
  }

  lemma DecimalInjective(m: int, n: int)
    requires Decimal(m) == Decimal(n)
    ensures m == n
  {
    if m >= 0 {
      DigitsRoundTrip(m);
      assert IsDigit(Decimal(m)[0]);
    } else {
      DigitsRoundTrip(-m);
      assert Decimal(m)[1..] == Digits(-m);
    }
    if n >= 0 {
      DigitsRoundTrip(n);
      assert IsDigit(Decimal(n)[0]);
    } else {
      DigitsRoundTrip(-n);
      assert Decimal(n)[1..] == Digits(-n);
    }
  }

  /** A text, a separator and a number. */
  function Keyed(prefix: string, separator: char, n: int): string {
    prefix + [separator] + Decimal(n)
  }

  /** A separator that %d never prints for these numbers. */
  predicate Separates(separator: char, n: int) {
    !IsDigit(separator) && (separator == '-' ==> n >= 0)
  }

  lemma NoSeparatorInNumber(separator: char, n: int)
    requires Separates(separator, n)
    ensures separator !in Decimal(n)
  {
    if n < 0 {
      assert separator !in Digits(-n);
    }
  }

  lemma NoSeparatorInTail(p: string, separator: char, n: int)
    requires Separates(separator, n)
    ensures forall i | |p| < i < |Keyed(p, separator, n)| :: Keyed(p, separator, n)[i] != separator
  {
    NoSeparatorInNumber(separator, n);
    var key := Keyed(p, separator, n);
    assert forall i | |p| < i < |key| :: key[i] == Decimal(n)[i - |p| - 1];
  }

  /** The prefix may itself contain the separator ("a-1" is a service name, "::1" is an address):
      the last separator still finds the split. */
  lemma KeyedInjective(p: string, q: string, separator: char, m: int, n: int)
    requires Separates(separator, m) && Separates(separator, n)
    requires Keyed(p, separator, m) == Keyed(q, separator, n)
    ensures p == q && m == n
  {
    var k := Keyed(p, separator, m);
    assert k[|p|] == separator && k[|q|] == separator;
    NoSeparatorInTail(p, separator, m);
    NoSeparatorInTail(q, separator, n);
    assert |p| == |q|;
    assert k[..|p|] == p && k[..|q|] == q;
    assert k[|p| + 1..] == Decimal(m) && k[|q| + 1..] == Decimal(n);
    DecimalInjective(m, n);
  }
}
