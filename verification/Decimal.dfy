/** Printing a replica count with `%d` and reading it back with `intstr.Parse`.
    The saved count travels through an annotation as decimal text. */
module Decimal {
  import opened Options

  const INT32_LIMIT: int := 0x8000_0000
  const INT64_LIMIT: int := 0x8000_0000_0000_0000

  predicate IsInt32(n: int) { -INT32_LIMIT <= n < INT32_LIMIT }

  function DigitChar(d: nat): char
    requires d < 10
  {
    ['0', '1', '2', '3', '4', '5', '6', '7', '8', '9'][d]
  }

  predicate IsDigit(c: char) { '0' <= c <= '9' }

  function DigitValue(c: char): nat
    requires IsDigit(c)
  {
    c as int - '0' as int
  }

  function PrintNat(n: nat): string {
    if n < 10 then [DigitChar(n)] else PrintNat(n / 10) + [DigitChar(n % 10)]
  }

  /** `fmt.Sprintf("%d", n)`. */
  function Print(n: int): string {
    if n < 0 then "-" + PrintNat(-n) else PrintNat(n)
  }

  predicate AllDigits(s: string) { forall i :: 0 <= i < |s| ==> IsDigit(s[i]) }

  function DigitsValue(s: string): nat
    requires AllDigits(s)
  {
    if s == [] then 0 else 10 * DigitsValue(s[..|s| - 1]) + DigitValue(s[|s| - 1])
  }

  /** `strconv.Atoi` on a 64-bit platform: an optional sign, at least one digit, digits only,
      and a value that fits the machine word. */
  function Atoi(s: string): Option<int> {
    var signed := s != [] && (s[0] == '-' || s[0] == '+');
    var digits := if signed then s[1..] else s;
    if digits == [] || !AllDigits(digits) then None
    else
      var v := if signed && s[0] == '-' then -(DigitsValue(digits) as int) else DigitsValue(digits);
      if -INT64_LIMIT <= v < INT64_LIMIT then Some(v) else None
  }

  /** The conversion `int32(v)`, which keeps the low 32 bits. */
  function Wrap32(v: int): (r: int)
    ensures IsInt32(r)
    ensures IsInt32(v) ==> r == v
    ensures (v - r) % 0x1_0000_0000 == 0
  {
    (v + INT32_LIMIT) % 0x1_0000_0000 - INT32_LIMIT
  }

  datatype IntOrString = IntVal(n: int) | StrVal(s: string)

  /** `intstr.Parse`. */
  function Parse(s: string): IntOrString {
    match Atoi(s)
    case Some(v) => IntVal(Wrap32(v))
    case None => StrVal(s)
  }

  lemma {:induction false} PrintNatReadsBack(n: nat)
    ensures PrintNat(n) != [] && AllDigits(PrintNat(n)) && DigitsValue(PrintNat(n)) == n
  {
    DigitReadsBack(n % 10);
    if n < 10 {
      ValueOfOne(DigitChar(n));
    } else {
      var front := PrintNat(n / 10);
      PrintNatReadsBack(n / 10);
      assert PrintNat(n)[..|front|] == front && PrintNat(n)[|front|] == DigitChar(n % 10);
    }
  }

  lemma DigitReadsBack(d: nat)
    requires d < 10
    ensures IsDigit(DigitChar(d)) && DigitValue(DigitChar(d)) == d
  {
  }

  /** Every 32-bit count printed by the scale-down is non-empty text that parses to the same count. */
  lemma {:induction false} SavedCountReadsBack(n: int)
    requires IsInt32(n)
    ensures Print(n) != []
    ensures Parse(Print(n)) == IntVal(n)
  {
    var digits := PrintNat(if n < 0 then -n else n);
    PrintNatReadsBack(if n < 0 then -n else n);
    AtoiAccepts(Print(n), digits);
    assert Print(n)[0] == '-' <==> n < 0 by {
      assert IsDigit(digits[0]);
    }
  }

  /** Printing loses nothing, so two different counts are never saved as the same text. */
  lemma PrintIsInjective(m: int, n: int)
    requires IsInt32(m) && IsInt32(n) && Print(m) == Print(n)
    ensures m == n
  {
    SavedCountReadsBack(m);
    SavedCountReadsBack(n);
  }

  function Power10(n: nat): nat { if n == 0 then 1 else 10 * Power10(n - 1) }

  /** Digits are worth what decimal notation makes them worth, piece by piece. */
  lemma {:induction false} ValueOfPieces(s: string, t: string)
    requires AllDigits(s) && AllDigits(t)
    ensures AllDigits(s + t) && DigitsValue(s + t) == DigitsValue(s) * Power10(|t|) + DigitsValue(t)
  {
    if t == [] {
      assert s + t == s;
    } else {
      var front := t[..|t| - 1];
      ValueOfPieces(s, front);
      assert (s + t)[..|s + t| - 1] == s + front && (s + t)[|s + t| - 1] == t[|t| - 1];
      TimesTen(DigitsValue(s), Power10(|front|), DigitsValue(front));
    }
  }

  lemma ValueOfOne(c: char)
    requires IsDigit(c)
    ensures DigitsValue([c]) == c as int - '0' as int
  {
    assert [c][..0] == [] && DigitsValue([]) == 0;
  }

  lemma TimesTen(a: nat, p: nat, b: nat)
    ensures 10 * (a * p + b) == a * (10 * p) + 10 * b
  {
  }

  predicate FitsWord(v: int) { -INT64_LIMIT <= v < INT64_LIMIT }

  /** Which texts are numbers: digits, with or without one sign, of a value that fits. */
  lemma AtoiAccepts(s: string, digits: string)
    requires digits != [] && AllDigits(digits) && (s == digits || s == "+" + digits || s == "-" + digits)
    ensures s != "-" + digits ==> Atoi(s) == if FitsWord(DigitsValue(digits)) then Some(DigitsValue(digits)) else None
    ensures s == "-" + digits ==> Atoi(s) == if FitsWord(-(DigitsValue(digits) as int)) then Some(-(DigitsValue(digits) as int)) else None
  {
    assert ("+" + digits)[1..] == digits && ("-" + digits)[1..] == digits;
    assert IsDigit(digits[0]);
  }

  /** And no others. */
  lemma AtoiRefuses(s: string)
    requires Atoi(s).Some?
    ensures exists digits :: digits != [] && AllDigits(digits) && (s == digits || s == "+" + digits || s == "-" + digits)
  {
    var digits := if s[0] == '-' || s[0] == '+' then s[1..] else s;
    assert digits != [] && AllDigits(digits) && (s == digits || s == "+" + digits || s == "-" + digits);
  }
}
