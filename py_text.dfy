/**
  Python's `str()` and `repr()` of values and the integer literals that
  `int()` accepts, as far as the provider needs them.
 */
module PyText {
  import opened Wrappers
  import opened Types
  import Text

  function DigitChar(d: int): char
    requires 0 <= d < 10
  {
    ('0' as int + d) as char
  }

  function DigitValue(c: char): int
    requires '0' <= c <= '9'
  {
    c as int - '0' as int
  }

  predicate AllDigits(s: string) {
    forall i :: 0 <= i < |s| ==> '0' <= s[i] <= '9'
  }

  /** `str(n)` for a natural number: its decimal digits, no leading zero. */
  function DecimalText(n: nat): (s: string)
    ensures |s| >= 1 && AllDigits(s)
    ensures |s| > 1 ==> s[0] != '0'
  {
    if n < 10 then [DigitChar(n)] else DecimalText(n / 10) + [DigitChar(n % 10)]
  }

  /** The number a string of decimal digits denotes. */
  function DigitsValue(s: string): nat
    requires AllDigits(s)
  {
    if s == [] then 0 else DigitsValue(s[..|s| - 1]) * 10 + DigitValue(s[|s| - 1])
  }

  /** Reading back the decimal text of a number gives the number. */
  lemma {:induction false} DigitsValueOfDecimalText(n: nat)
    ensures DigitsValue(DecimalText(n)) == n
  {
    if n >= 10 {
      DigitsValueOfDecimalText(n / 10);
      var s := DecimalText(n / 10) + [DigitChar(n % 10)];
      assert s[..|s| - 1] == DecimalText(n / 10);
    }
  }

  /** `str(i)` for an integer. */
  function IntText(i: int): (s: string)
    ensures |s| >= 1
  {
    if i < 0 then "-" + DecimalText(-i) else DecimalText(i)
  }

  /** The shape `int()` accepts: an optional `+` or `-`, then at least one decimal digit. */
  predicate IsIntLiteral(s: string) {
    var digits := if s != [] && (s[0] == '+' || s[0] == '-') then s[1..] else s;
    digits != [] && AllDigits(digits)
  }

  /** Leading zeros and a `+` sign are accepted; anything else with a letter is not. */
  lemma IntLiteralExamples()
    ensures IntLiteral("+7") == Some(7)
    ensures IntLiteral("007") == Some(7)
    ensures IntLiteral("-12") == Some(-12)
    ensures IntLiteral("abc") == None
    ensures IntLiteral("+") == None && IntLiteral("") == None
  {
    assert "+7"[1..] == "7";
    assert "-12"[1..] == "12";
    assert "12"[..1] == "1";
    assert "007"[..2] == "00" && "00"[..1] == "0";
    assert !IsIntLiteral("abc") by { assert !('0' <= "abc"[0] <= '9'); }
  }

  /**
    `int(s)` for a string: an optional sign followed by decimal digits.
    `None` is the `ValueError` Python raises for anything else.
   */
  function IntLiteral(s: string): (r: Option<int>)
    ensures r.Some? ==> |s| >= 1
    ensures r.Some? && r.value < 0 ==> s[0] == '-'
    ensures r.Some? <==> IsIntLiteral(s)
    ensures |s| >= 1 && AllDigits(s) ==> r == Some(DigitsValue(s))
    ensures |s| >= 2 && s[0] == '+' && AllDigits(s[1..]) ==> r == Some(DigitsValue(s[1..]))
    ensures |s| >= 2 && s[0] == '-' && AllDigits(s[1..]) ==> r == Some(-(DigitsValue(s[1..]) as int))
  {
    if |s| >= 2 && (s[0] == '-' || s[0] == '+') && AllDigits(s[1..]) then
      var magnitude: int := DigitsValue(s[1..]);
      Some(if s[0] == '-' then -magnitude else magnitude)
    else if |s| >= 1 && AllDigits(s) then Some(DigitsValue(s))
    else None
  }

  /** `int(str(i)) == i`. */
  lemma IntLiteralOfIntText(i: int)
    ensures IntLiteral(IntText(i)) == Some(i)
  {
    if i < 0 {
      NegativeLiteral(-i);
    } else {
      UnsignedLiteral(i);
    }
  }

  /** A minus sign followed by the decimal text of `n` reads as `-n`. */
  lemma NegativeLiteral(n: nat)
    ensures IntLiteral("-" + DecimalText(n)) == Some(-(n as int))
  {
    var digits := DecimalText(n);
    DigitsValueOfDecimalText(n);
    var s := "-" + digits;
    assert s[0] == '-' && s[1..] == digits;
  }

  /** The decimal text of `n` alone reads as `n`. */
  lemma UnsignedLiteral(n: nat)
    ensures IntLiteral(DecimalText(n)) == Some(n)
  {
    var digits := DecimalText(n);
    DigitsValueOfDecimalText(n);
    assert '0' <= digits[0] <= '9';
  }

  /** Up to `n` decimal digits of a fraction `0 <= f < 1`. */
  function FractionDigits(f: real, n: nat): string
    requires 0.0 <= f < 1.0
    decreases n
  {
    if n == 0 || f == 0.0 then ""
    else
      var d := (f * 10.0).Floor;
      [DigitChar(d)] + FractionDigits(f * 10.0 - d as real, n - 1)
  }

  /** `str(x)` for a float, in positional notation. */
  function FloatText(r: real): string {
    if r < 0.0 then "-" + NonNegativeFloatText(-r) else NonNegativeFloatText(r)
  }

  function NonNegativeFloatText(r: real): string
    requires r >= 0.0
  {
    var whole := r.Floor;
    var fraction := r - whole as real;
    if fraction == 0.0 then DecimalText(whole) + ".0"
    else
      var digits := Text.StripTrailing(FractionDigits(fraction, 17), '0');
      DecimalText(whole) + "." + (if digits == "" then "0" else digits)
  }

  /** `str(v)`: a string is itself, and an integer reads back with `int()`. */
  function PyStr(v: Value): (r: string)
    ensures v.Str? ==> r == v.s
    ensures v.Int? ==> IntLiteral(r) == Some(v.i)
    ensures v.Bool? ==> IntLiteral(r) == None
    decreases v, 1
  {
    match v
    case Null => "None"
    case Bool(b) => if b then "True" else "False"
    case Int(i) => IntLiteralOfIntText(i); IntText(i)
    case Float(r) => FloatText(r)
    case Str(s) => s
    case List(xs) => "[" + ReprItems(xs) + "]"
    case Dict(es) => "{" + ReprEntries(es) + "}"
  }

  /** `repr(v)`: strings are quoted; escaping of quotes and control characters is not modelled. */
  function PyRepr(v: Value): string
    decreases v, 2
  {
    if v.Str? then "'" + v.s + "'" else PyStr(v)
  }

  function ReprItems(xs: seq<Value>): string
    decreases xs
  {
    if xs == [] then ""
    else if |xs| == 1 then PyRepr(xs[0])
    else PyRepr(xs[0]) + ", " + ReprItems(xs[1..])
  }

  function ReprEntries(es: seq<Entry>): string
    decreases es
  {
    if es == [] then ""
    else
      var first := "'" + es[0].key + "': " + PyRepr(es[0].val);
      if |es| == 1 then first else first + ", " + ReprEntries(es[1..])
  }
}
