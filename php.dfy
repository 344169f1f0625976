/** The few pieces of PHP's value semantics that the product modules rely on:
    truthiness of an `if`/`?:` condition, string conversion by the `.`
    operator, decimal numerals, and the loose comparison of a `switch`. */
module Php {

  datatype Option<T> = None | Some(value: T)

  /** A PHP value as it reaches the modules: a missing array key or an SQL
      NULL, an integer, or a string. Row fields are modelled as strings. */
  datatype Value = Null | Int(i: int) | Str(s: string)

  /** Conversion to boolean: null, 0, "" and "0" are false, all else is true
      (so "0.0" and "00" are true). */
  predicate Truthy(v: Value) {
    match v
    case Null => false
    case Int(n) => n != 0
    case Str(s) => s != "" && s != "0"
  }

  /** Conversion to string, as done by the `.` operator and by `echo`. */
  function Text(v: Value): (r: string)
    ensures v.Int? ==> IsNumeral(r)
    ensures Truthy(v) ==> r != ""
  {
    match v
    case Null => ""
    case Int(n) => IntToString(n)
    case Str(s) => s
  }

  /** `switch ($v) { case 'lit': ... }` with a literal that is not a numeric
      string: only the string equal to it matches. */
  predicate SwitchMatches(v: Value, lit: string) {
    v == Str(lit)
  }

  /** PHP 8's loose `$v == 'lit'` against a string literal. Null compares as
      "". An integer compares numerically with a numeric string and as its
      decimal text with any other string. Two numeric strings compare as
      numbers, all other pairs as strings. Only integer numerals are taken
      as numeric strings here. */
  predicate LooseEquals(v: Value, lit: string) {
    match v
    case Null => lit == ""
    case Int(n) => if IsNumeral(lit) then ParseInt(lit) == Some(n) else IntToString(n) == lit
    case Str(t) => if IsNumeral(t) && IsNumeral(lit) then ParseInt(t) == ParseInt(lit) else t == lit
  }

  /** Against a non-empty literal that is not numeric, loose equality is
      equality with that very string, which is what `SwitchMatches` tests. */
  lemma SwitchMatchesIsLoose(v: Value, lit: string)
    requires lit != "" && !IsNumeral(lit)
    ensures LooseEquals(v, lit) <==> SwitchMatches(v, lit)
  {
    if v.Int? {
      assert IsNumeral(IntToString(v.i));
    }
  }

  predicate IsDigit(c: char) {
    '0' <= c <= '9'
  }

  predicate IsDigits(s: string) {
    forall i :: 0 <= i < |s| ==> IsDigit(s[i])
  }

  /** The shape of a decimal integer: digits, optionally after one minus sign. */
  predicate IsNumeral(s: string) {
    (|s| > 0 && IsDigits(s)) || (|s| > 1 && s[0] == '-' && IsDigits(s[1..]))
  }

  function DigitChar(d: nat): (c: char)
    requires d < 10
    ensures IsDigit(c) && DigitValue(c) == d
  {
    (48 + d) as char
  }

  function DigitValue(c: char): (d: nat)
    requires IsDigit(c)
    ensures d < 10
  {
    (c as int) - 48
  }

  /** Decimal digits of `n`, most significant first, without leading zeros. */
  function NatToString(n: nat): (r: string)
    ensures |r| > 0 && IsDigits(r)
    ensures |r| > 1 ==> r[0] != '0'
    decreases n
  {
    if n < 10 then [DigitChar(n)] else NatToString(n / 10) + [DigitChar(n % 10)]
  }

  /** PHP's decimal rendering of an integer. */
  function IntToString(n: int): (r: string)
    ensures IsNumeral(r)
  {
    if n < 0 then "-" + NatToString(-n) else NatToString(n)
  }

  /** Value of a non-empty digit string. */
  function DigitsValue(s: string): (n: nat)
    requires |s| > 0 && IsDigits(s)
    decreases |s|
  {
    if |s| == 1 then DigitValue(s[0])
    else DigitsValue(s[..|s| - 1]) * 10 + DigitValue(s[|s| - 1])
  }

  /** Reads a decimal integer; None when `s` is not a numeral. */
  function ParseInt(s: string): (r: Option<int>)
    ensures r.Some? <==> IsNumeral(s)
  {
    if |s| > 0 && IsDigits(s) then Some(DigitsValue(s))
    else if |s| > 1 && s[0] == '-' && IsDigits(s[1..]) then Some(0 - DigitsValue(s[1..]))
    else None
  }

  lemma {:induction false} NatToStringRoundTrip(n: nat)
    ensures DigitsValue(NatToString(n)) == n
    decreases n
  {
    if n >= 10 {
      NatToStringRoundTrip(n / 10);
      var s := NatToString(n);
      assert s[..|s| - 1] == NatToString(n / 10);
    }
  }

  /** Reading back what PHP prints for an integer gives that integer. */
  lemma IntToStringRoundTrip(n: int)
    ensures ParseInt(IntToString(n)) == Some(n)
  {
    if n < 0 {
      var t := NatToString(-n);
      NatToStringRoundTrip(-n);
      assert ("-" + t)[1..] == t;
      assert !IsDigit(("-" + t)[0]);
    } else {
      NatToStringRoundTrip(n);
    }
  }

  /** Distinct integers print differently. */
  lemma IntToStringInjective(m: int, n: int)
    ensures IntToString(m) == IntToString(n) ==> m == n
  {
    IntToStringRoundTrip(m);
    IntToStringRoundTrip(n);
  }

  /** An integer is truthy exactly when its decimal text is: the only
      integer that prints as "0" is 0, and none prints as "". So `Truthy`
      judges a value and the text `.` makes of it alike. */
  lemma TruthyText(v: Value)
    ensures Truthy(v) <==> Truthy(Str(Text(v)))
  {
    if v.Int? && Text(v) == "0" {
      IntToStringRoundTrip(v.i);
      assert ParseInt("0") == Some(0);
    }
  }

  /** A numeral holds only digits and '-', so no space and no letter. */
  lemma NumeralChars(s: string, c: char)
    requires IsNumeral(s)
    requires c != '-' && !IsDigit(c)
    ensures c !in s
  {
  }
}
