/** Python's `int()` on the values the library reads from API answers and on strings,
    and how it reads back what `str` writes. */
module Ints {
  import opened Wrappers
  import opened JsonValues
  import opened Collections

  predicate IsDigit(c: char) {
    '0' <= c <= '9'
  }

  /** Every character of `s` is a decimal digit. */
  predicate AllDigits(s: string) {
    s == [] || (AllDigits(s[..|s| - 1]) && IsDigit(s[|s| - 1]))
  }

  /** A run of digits starts with a digit. */
  lemma {:induction false} AllDigitsFirst(s: string)
    ensures AllDigits(s) && s != [] ==> IsDigit(s[0])
  {
    if AllDigits(s) && |s| > 1 {
      AllDigitsFirst(s[..|s| - 1]);
    }
  }

  /** The value of a run of decimal digits. */
  function DigitsValue(s: string): nat
    requires AllDigits(s)
  {
    if s == [] then 0
    else DigitsValue(s[..|s| - 1]) * 10 + (s[|s| - 1] as int - '0' as int)
  }

  /** `int(s)` for a string: an optional sign and one or more decimal digits, anything
      else raising ValueError. */
  function ParseInt(s: string): (r: Result<int>)
    ensures r.Err? ==> r.error.ValueError?
    ensures AllDigits(s) && s != [] ==> r == Ok(DigitsValue(s))
  {
    AllDigitsFirst(s);
    var negative := |s| > 0 && s[0] == '-';
    var digits := if |s| > 0 && (s[0] == '-' || s[0] == '+') then s[1..] else s;
    if digits != [] && AllDigits(digits) then
      var n: int := DigitsValue(digits);
      Ok(if negative then -n else n)
    else Err(ValueError(Str("invalid literal for int() with base 10: " + s)))
  }

  /** The digit `str` writes for `d` is a digit of value `d`. */
  lemma DigitCharValue(d: nat)
    requires d < 10
    ensures IsDigit(DigitChar(d)) && DigitChar(d) as int - '0' as int == d
  {
    var c := DigitChar(d);
    if d == 0 { assert c == '0'; }
    else if d == 1 { assert c == '1'; }
    else if d == 2 { assert c == '2'; }
    else if d == 3 { assert c == '3'; }
    else if d == 4 { assert c == '4'; }
    else if d == 5 { assert c == '5'; }
    else if d == 6 { assert c == '6'; }
    else if d == 7 { assert c == '7'; }
    else if d == 8 { assert c == '8'; }
    else { assert c == '9'; }
  }

  /** Reading back the digits `str` writes gives the number. */
  lemma {:induction false} DigitsOfNat(n: nat)
    ensures AllDigits(NatToString(n)) && NatToString(n) != []
    ensures DigitsValue(NatToString(n)) == n
  {
    var s := NatToString(n);
    if n < 10 {
      DigitCharValue(n);
      assert s[..0] == [];
    } else {
      DigitsOfNat(n / 10);
      DigitCharValue(n % 10);
      assert s[..|s| - 1] == NatToString(n / 10);
    }
  }

  /** `int(str(i)) == i`. */
  lemma ParseIntOfString(i: int)
    ensures ParseInt(IntToString(i)) == Ok(i)
  {
    if i < 0 {
      var n: nat := -i;
      assert IntToString(i) == "-" + NatToString(n);
      ParseNegative(n);
    } else {
      assert IntToString(i) == NatToString(i);
      ParseNatString(i);
    }
  }

  /** `int` reads back the digits `str` writes for a natural number. */
  lemma ParseNatString(n: nat)
    ensures ParseInt(NatToString(n)) == Ok(n)
  {
    var s := NatToString(n);
    DigitsOfNat(n);
    AllDigitsFirst(s);
  }

  /** `int` reads back a minus sign and the digits of a natural number. */
  lemma ParseNegative(n: nat)
    ensures ParseInt("-" + NatToString(n)) == Ok(-(n as int))
  {
    var s := "-" + NatToString(n);
    DigitsOfNat(n);
    assert s[1..] == NatToString(n);
  }

  const IntArgMessage := "int() argument must be a string, a bytes-like object or a real number"

  /** `int(x)` for a decoded value: ints as they are, booleans as 0 or 1, strings as
      `ParseInt` reads them; None, a list or a dict raise TypeError. */
  function IntOf(v: Json): (r: Result<int>)
    ensures v.Int? ==> r == Ok(v.i)
    ensures v.Str? ==> r == ParseInt(v.s)
    ensures v.Null? || v.Arr? || v.Obj? ==> r.Err? && r.error.TypeError?
    ensures r.Err? ==> r.error.ValueError? || r.error.TypeError?
  {
    match v
    case Int(i) => Ok(i)
    case Str(s) => ParseInt(s)
    case Bool(b) => Ok(if b then 1 else 0)
    case _ => Err(TypeError(IntArgMessage))
  }
}
