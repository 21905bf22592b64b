/** The two pieces of JavaScript number handling the game relies on:
    `Number(text)`, which turns the raw input into a guess, and the
    conversion of a number back into text inside a template string.
    Only decimal integers are modelled; every other string is NaN. */
module Numbers {
  import opened Options

  /** The value `Number(text)` produces for a guess. */
  datatype JsNumber = Num(value: int) | NaN

  predicate IsDigit(c: char) {
    '0' <= c <= '9'
  }

  predicate AllDigits(s: string) {
    forall i :: 0 <= i < |s| ==> IsDigit(s[i])
  }

  /** A non-empty run of decimal digits. */
  predicate IsUnsignedLiteral(s: string) {
    |s| > 0 && AllDigits(s)
  }

  function DigitValue(c: char): (d: nat)
    requires IsDigit(c)
    ensures d < 10
  {
    (c as int) - ('0' as int)
  }

  function DigitChar(d: nat): (c: char)
    requires d < 10
    ensures IsDigit(c) && DigitValue(c) == d
  {
    (('0' as int) + d) as char
  }

  /** The value of a run of digits, most significant digit first. */
  function DigitsValue(s: string): nat
    requires AllDigits(s)
    decreases |s|
  {
    if s == [] then 0 else 10 * DigitsValue(s[..|s| - 1]) + DigitValue(s[|s| - 1])
  }

  /** `Number(text)`: the empty string is 0, an optionally signed run
      of decimal digits is its value, and anything else is NaN. */
  function ToNumber(s: string): JsNumber {
    if s == [] then Num(0)
    else if IsUnsignedLiteral(s) then Num(DigitsValue(s))
    else if s[0] == '-' && IsUnsignedLiteral(s[1..]) then Num(-(DigitsValue(s[1..]) as int))
    else if s[0] == '+' && IsUnsignedLiteral(s[1..]) then Num(DigitsValue(s[1..]))
    else NaN
  }

  /** Decimal text of a natural number, without leading zeros. */
  function NatToString(n: nat): string
    decreases n
  {
    if n < 10 then [DigitChar(n)] else NatToString(n / 10) + [DigitChar(n % 10)]
  }

  /** Decimal text of an integer, as `${n}` writes it. */
  function IntToString(n: int): string {
    if n < 0 then "-" + NatToString(-n) else NatToString(n)
  }

  /** `${x}` for a guess: NaN is written "NaN". */
  function NumberToString(x: JsNumber): string {
    match x
    case Num(n) => IntToString(n)
    case NaN => "NaN"
  }

  /** `x === y` between a guess and a number that may be null:
      NaN equals nothing and no number equals null. */
  predicate StrictEquals(x: JsNumber, y: Option<int>) {
    x.Num? && y.Some? && x.value == y.value
  }

  /** `x > y`: every comparison with NaN is false. */
  predicate GreaterThan(x: JsNumber, y: int) {
    x.Num? && x.value > y
  }

  /** NatToString writes digits only, and reading them back gives n. */
  lemma {:induction false} NatToStringDigits(n: nat)
    ensures IsUnsignedLiteral(NatToString(n))
    ensures DigitsValue(NatToString(n)) == n
  {
    var s := NatToString(n);
    if n >= 10 {
      NatToStringDigits(n / 10);
      var prefix := NatToString(n / 10);
      assert s[..|s| - 1] == prefix;
      assert forall i :: 0 <= i < |s| ==> IsDigit(s[i]) by {
        forall i | 0 <= i < |s| ensures IsDigit(s[i]) {
          if i < |prefix| { assert s[i] == prefix[i]; }
        }
      }
    }
  }

  /** The text the game writes for a number is read back by `Number`
      as the same number. */
  lemma ToNumberOfIntToString(n: int)
    ensures ToNumber(IntToString(n)) == Num(n)
  {
    NatToStringDigits(if n < 0 then -n else n);
    if n < 0 {
      var s := IntToString(n);
      assert s[1..] == NatToString(-n);
      assert !IsDigit(s[0]);
    }
  }

  /** Different numbers are written differently. */
  lemma IntToStringInjective(m: int, n: int)
    requires IntToString(m) == IntToString(n)
    ensures m == n
  {
    ToNumberOfIntToString(m);
    ToNumberOfIntToString(n);
  }

  /** A string holding a character that is neither a digit nor a sign
      is not a number. */
  lemma ToNumberOfNonNumeric(s: string, i: nat)
    requires i < |s| && !IsDigit(s[i]) && s[i] != '-' && s[i] != '+'
    ensures ToNumber(s) == NaN
  {
    if 0 < i {
      assert s[1..][i - 1] == s[i];
    }
  }
}
