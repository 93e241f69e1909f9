/**
  Python's `str()` of the values an API answer holds: what an f-string
  inserts when it formats one of them.
 */
module PyStr {
  import opened Json

  /** The decimal digit for `d`. */
  function Digit(d: nat): (c: char)
    requires d < 10
    ensures '0' <= c <= '9'
    ensures c as int - '0' as int == d
  {
    ('0' as int + d) as char
  }

  predicate AllDigits(s: string)
  {
    forall k :: 0 <= k < |s| ==> '0' <= s[k] <= '9'
  }

  /** The decimal digits of `n`, most significant first. */
  function Digits(n: nat): (r: string)
    decreases n
    ensures |r| > 0 && AllDigits(r)
    // no leading zero: only 0 itself is written with a '0' first
    ensures r[0] == '0' ==> n == 0
  {
    (if n < 10 then "" else Digits(n / 10)) + [Digit(n % 10)]
  }

  /** The number a string of decimal digits denotes, read as Python's `int()` reads it. */
  function DigitsValue(s: string): nat
    requires AllDigits(s)
  {
    if s == [] then 0
    else DigitsValue(s[..|s| - 1]) * 10 + (s[|s| - 1] as int - '0' as int)
  }

  /** Appending a digit multiplies the value by ten and adds the digit. */
  lemma DigitsValueAppend(prefix: string, d: nat)
    requires AllDigits(prefix) && d < 10
    ensures AllDigits(prefix + [Digit(d)])
    ensures DigitsValue(prefix + [Digit(d)]) == DigitsValue(prefix) * 10 + d
  {
    var s := prefix + [Digit(d)];
    assert s[..|s| - 1] == prefix;
  }

  /** Reading back the digits of `n` gives `n`. */
  lemma {:induction false} DigitsRoundTrip(n: nat)
    decreases n
    ensures DigitsValue(Digits(n)) == n
  {
    if n < 10 {
      assert Digits(n) == [] + [Digit(n)];
      DigitsValueAppend([], n);
    } else {
      var q, d := n / 10, n % 10;
      assert Digits(n) == Digits(q) + [Digit(d)];
      DigitsValueAppend(Digits(q), d);
      DigitsRoundTrip(q);
      assert DigitsValue(Digits(n)) == q * 10 + d;
    }
  }

  /** The integer a decimal numeral with an optional leading '-' denotes. */
  function DecimalValue(s: string): int
  {
    if |s| > 0 && s[0] == '-' then
      if AllDigits(s[1..]) then -(DigitsValue(s[1..]) as int) else 0
    else if AllDigits(s) then DigitsValue(s) else 0
  }

  /** A numeral with or without a leading '-' denotes its digits' value, negated or not. */
  lemma NumeralValue(digits: string)
    requires |digits| > 0 && AllDigits(digits)
    ensures DecimalValue(digits) == DigitsValue(digits)
    ensures DecimalValue("-" + digits) == -(DigitsValue(digits) as int)
  {
    var neg := "-" + digits;
    assert neg[1..] == digits;
    assert forall k :: 1 <= k < |neg| ==> neg[k] == digits[k - 1];
  }

  /** A canonical decimal numeral: an optional '-', then digits with no leading zero. */
  predicate Canonical(s: string)
  {
    var digits := if |s| > 0 && s[0] == '-' then s[1..] else s;
    |digits| > 0 && AllDigits(digits) && (|digits| > 1 ==> digits[0] != '0')
  }

  /** Python's `str()` of an integer: its canonical decimal numeral, which reads back as the integer. */
  function Decimal(i: int): (r: string)
    ensures Canonical(r)
    ensures DecimalValue(r) == i
    ensures |r| > 0 && (i < 0 <==> r[0] == '-')
  {
    var magnitude := if i < 0 then -i else i;
    DigitsRoundTrip(magnitude);
    var digits := Digits(magnitude);
    NumeralValue(digits);
    if i < 0 then
      assert ("-" + digits)[1..] == digits;
      "-" + digits
    else digits
  }

  /**
    Python's `str()` of a value, which is what an f-string inserts.
    Lists and dictionaries are rendered as placeholders.
   */
  function Show(v: Value): (r: string)
    ensures v.Str? ==> r == v.s
    ensures v.Int? ==> Canonical(r) && DecimalValue(r) == v.i
    ensures v.Int? ==> |r| > 0 && (v.i < 0 <==> r[0] == '-')
    ensures v.Null? ==> r == "None"
    ensures v.Bool? ==> r == (if v.b then "True" else "False")
  {
    match v
    case Null => "None"
    case Bool(b) => if b then "True" else "False"
    case Int(i) => Decimal(i)
    case Str(s) => s
    case List(_) => "[...]"
    case Object(_) => "{...}"
  }
}
