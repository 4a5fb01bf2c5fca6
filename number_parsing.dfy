/**
 * The `getNumber` closure of the row normaliser: the character filter
 * `/[^0-9.+-eE]/g`, a decimal-prefix reading of `parseFloat`, and the
 * null / number / string dispatch around them.
 */
module NumberParsing {
  import opened Wrappers
  import opened JsValues

  // ---------------------------------------------------------------------
  // The character filter
  // ---------------------------------------------------------------------

  /**
   * Membership in the regex class `[0-9.+-eE]`, read the way JavaScript
   * reads it: `+-e` is a range from '+' (0x2B) to 'e' (0x65), not three
   * separate characters.
   */
  predicate IsKept(c: char) {
    ('0' <= c <= '9') || c == '.' || ('+' <= c <= 'e') || c == 'E'
  }

  /** The class collapses to the single range '+'..'e': digits, '.' and 'E' all lie inside it. */
  lemma KeptIsRange(c: char)
    ensures IsKept(c) <==> '+' <= c <= 'e'
  {
  }

  /** `s.replace(/[^0-9.+-eE]/g, '')`: drop every character outside the class. */
  function Filter(s: string): (r: string)
    ensures |r| <= |s|
    ensures forall i :: 0 <= i < |r| ==> IsKept(r[i])
    ensures (forall i :: 0 <= i < |s| ==> IsKept(s[i])) ==> r == s
  {
    if s == [] then [] else (if IsKept(s[0]) then [s[0]] else []) + Filter(s[1..])
  }

  /** Filtering works character by character, so it distributes over concatenation. */
  lemma {:induction false} FilterAppend(s: string, t: string)
    ensures Filter(s + t) == Filter(s) + Filter(t)
  {
    if s == [] {
      assert s + t == t;
    } else {
      assert (s + t)[1..] == s[1..] + t;
      FilterAppend(s[1..], t);
    }
  }

  /** Filtering keeps exactly the kept characters: each one as often as it occurs, no other. */
  lemma {:induction false} FilterCounts(s: string, c: char)
    ensures multiset(Filter(s))[c] == if IsKept(c) then multiset(s)[c] else 0
  {
    if s != [] {
      FilterCounts(s[1..], c);
      var head: string := if IsKept(s[0]) then [s[0]] else [];
      assert Filter(s) == head + Filter(s[1..]);
      assert multiset(Filter(s)) == multiset(head) + multiset(Filter(s[1..]));
      assert s == [s[0]] + s[1..];
      assert multiset(s) == multiset([s[0]]) + multiset(s[1..]);
    }
  }

  /** Filtering twice is filtering once. */
  lemma FilterIdempotent(s: string)
    ensures Filter(Filter(s)) == Filter(s)
  {
  }

  /** A string with no kept character filters to the empty string. */
  lemma {:induction false} FilterNoneKept(u: string)
    requires forall i :: 0 <= i < |u| ==> !IsKept(u[i])
    ensures Filter(u) == ""
  {
    if u != [] {
      FilterNoneKept(u[1..]);
    }
  }

  // ---------------------------------------------------------------------
  // parseFloat on the filtered string
  // ---------------------------------------------------------------------

  predicate IsDigit(c: char) {
    '0' <= c <= '9'
  }

  predicate AllDigits(d: string) {
    forall i :: 0 <= i < |d| ==> IsDigit(d[i])
  }

  /** Length of the run of decimal digits at the front of `s`. */
  function DigitCount(s: string): (r: nat)
    ensures r <= |s|
    ensures AllDigits(s[..r])
    ensures r < |s| ==> !IsDigit(s[r])
  {
    if s == [] || !IsDigit(s[0]) then 0 else 1 + DigitCount(s[1..])
  }

  function Pow10(n: nat): (r: nat)
    ensures r >= 1
  {
    if n == 0 then 1 else 10 * Pow10(n - 1)
  }

  /** The natural number a string of decimal digits denotes (0 for the empty string). */
  function DigitsValue(d: string): (r: nat)
    requires AllDigits(d)
    ensures r < Pow10(|d|)
  {
    if d == [] then 0
    else DigitsValue(d[..|d| - 1]) * 10 + (d[|d| - 1] as int - '0' as int)
  }

  /** Appending digits shifts the value of the front digits left by that many decimal places. */
  lemma {:induction false} DigitsValueAppend(a: string, b: string)
    requires AllDigits(a) && AllDigits(b)
    ensures AllDigits(a + b)
    ensures DigitsValue(a + b) == DigitsValue(a) * Pow10(|b|) + DigitsValue(b)
  {
    assert AllDigits(a + b) by {
      forall i | 0 <= i < |a + b| ensures IsDigit((a + b)[i]) {
        if i >= |a| {
          assert (a + b)[i] == b[i - |a|];
        }
      }
    }
    if b == [] {
      assert a + b == a;
    } else {
      var front := b[..|b| - 1];
      var d := b[|b| - 1] as int - '0' as int;
      assert (a + b)[..|a + b| - 1] == a + front;
      assert (a + b)[|a + b| - 1] == b[|b| - 1];
      DigitsValueAppend(a, front);
      var va, vf, p := DigitsValue(a), DigitsValue(front), Pow10(|front|);
      assert DigitsValue(a + b) == DigitsValue(a + front) * 10 + d;
      assert DigitsValue(b) == vf * 10 + d;
      assert Pow10(|b|) == 10 * p;
      ShiftDecimal(va, p, vf, d);
    }
  }

  /** Arithmetic behind `DigitsValueAppend`: one more digit multiplies the front part by ten. */
  lemma ShiftDecimal(va: int, p: int, vf: int, d: int)
    ensures (va * p + vf) * 10 + d == va * (10 * p) + (vf * 10 + d)
  {
  }

  /** The digits of a number before its exponent: `123`, `1.5`, `1.` or `.5`. */
  datatype Mantissa = Mantissa(intDigits: string, hasPoint: bool, fracDigits: string) {
    function Length(): nat {
      |intDigits| + (if hasPoint then 1 + |fracDigits| else 0)
    }

    /** The characters the mantissa is written with. */
    function Text(): string {
      intDigits + (if hasPoint then "." + fracDigits else "")
    }
  }

  /** An exponent part `(e|E)[+-]?digits`; the empty one has no digits and length 0. */
  datatype Exponent = Exponent(negative: bool, digits: string, length: nat)

  /**
   * The longest prefix of a string that `parseFloat` accepts, taken apart:
   * an optional sign, the mantissa and the exponent.
   */
  datatype Lexeme = Lexeme(negative: bool, mantissa: Mantissa, exponent: Exponent)

  /** 1 when the string starts with '+' or '-', else 0. */
  function SignLength(s: string): (r: nat)
    ensures r <= |s|
  {
    if |s| > 0 && (s[0] == '+' || s[0] == '-') then 1 else 0
  }

  /** The mantissa at the front of `u`, or nothing when it has neither integer nor fraction digits. */
  function MantissaAt(u: string): (r: Option<Mantissa>)
    ensures r.None? <==> DigitCount(u) == 0 && !(|u| > 1 && u[0] == '.' && IsDigit(u[1]))
    ensures r.Some? ==> r.value.Length() <= |u| && u[..r.value.Length()] == r.value.Text()
    ensures r.Some? ==> AllDigits(r.value.intDigits) && AllDigits(r.value.fracDigits)
    ensures r.Some? ==> r.value.intDigits != "" || r.value.fracDigits != ""
    ensures r.Some? ==> |r.value.intDigits| == DigitCount(u)
    ensures r.Some? ==> (r.value.hasPoint <==> |r.value.intDigits| < |u| && u[|r.value.intDigits|] == '.')
    ensures r.Some? && r.value.hasPoint ==> |r.value.fracDigits| == DigitCount(u[|r.value.intDigits| + 1..])
    ensures r.Some? && !r.value.hasPoint ==> r.value.fracDigits == ""
  {
    var ni := DigitCount(u);
    var hasPoint := ni < |u| && u[ni] == '.';
    var nf := if hasPoint then DigitCount(u[ni + 1..]) else 0;
    if ni == 0 && nf == 0 then None
    else Some(Mantissa(u[..ni], hasPoint, if hasPoint then u[ni + 1..][..nf] else ""))
  }

  /** The exponent part at the front of `t`, or the empty exponent when there is none. */
  function ExponentAt(t: string): (r: Exponent)
    ensures r.length <= |t|
    ensures AllDigits(r.digits)
    ensures r.length == 0 <==> r.digits == ""
    ensures r.length > 0 ==> r.length == |r.digits| + 1 || (r.length == |r.digits| + 2 && (t[1] == '+' || t[1] == '-'))
    ensures r.length > 0 ==> (t[0] == 'e' || t[0] == 'E') && t[r.length - |r.digits|..r.length] == r.digits
    ensures r.negative <==> r.length == |r.digits| + 2 && t[1] == '-'
    ensures r.length > 0 ==> r.length == |t| || !IsDigit(t[r.length])
    ensures |t| > 1 && (t[0] == 'e' || t[0] == 'E') && IsDigit(t[1]) ==> r.length > 0
    ensures |t| > 2 && (t[0] == 'e' || t[0] == 'E') && (t[1] == '+' || t[1] == '-') && IsDigit(t[2]) ==> r.length > 0
  {
    if |t| > 0 && (t[0] == 'e' || t[0] == 'E') then
      var j := if |t| > 1 && (t[1] == '+' || t[1] == '-') then 2 else 1;
      var n := DigitCount(t[j..]);
      if n > 0 then Exponent(j == 2 && t[1] == '-', t[j..][..n], j + n) else Exponent(false, "", 0)
    else Exponent(false, "", 0)
  }

  /** Recognise the numeric prefix of `s`, or nothing when `parseFloat` would give NaN. */
  function Scan(s: string): (r: Option<Lexeme>)
    ensures r.Some? ==> AllDigits(r.value.mantissa.intDigits) && AllDigits(r.value.mantissa.fracDigits)
    ensures r.Some? ==> AllDigits(r.value.exponent.digits)
    ensures r.Some? ==> SignLength(s) + r.value.mantissa.Length() + r.value.exponent.length <= |s|
    ensures r.None? <==> MantissaAt(s[SignLength(s)..]).None?
    ensures r.Some? ==> (r.value.negative <==> SignLength(s) == 1 && s[0] == '-')
    ensures r.Some? ==> s[SignLength(s)..][..r.value.mantissa.Length()] == r.value.mantissa.Text()
    ensures r.Some? ==> r.value.mantissa == MantissaAt(s[SignLength(s)..]).value
    ensures r.Some? ==> r.value.exponent == ExponentAt(s[SignLength(s) + r.value.mantissa.Length()..])
  {
    var i := SignLength(s);
    match MantissaAt(s[i..])
    case None => None
    case Some(m) =>
      Some(Lexeme(i == 1 && s[0] == '-', m, ExponentAt(s[i + m.Length()..])))
  }

  /** The value of a mantissa: integer digits plus fraction digits over the matching power of ten. */
  function MantissaValue(m: Mantissa): (r: real)
    requires AllDigits(m.intDigits) && AllDigits(m.fracDigits)
  {
    DigitsValue(m.intDigits) as real + DigitsValue(m.fracDigits) as real / Pow10(|m.fracDigits|) as real
  }

  /** The factor an exponent part scales the mantissa by: 10 to the signed exponent. */
  function ExponentScale(e: Exponent): (r: real)
    requires AllDigits(e.digits)
    ensures r > 0.0
  {
    var p := Pow10(DigitsValue(e.digits)) as real;
    if e.negative then 1.0 / p else p
  }

  /** The unsigned value of a mantissa and its exponent. */
  function Magnitude(m: Mantissa, e: Exponent): real
    requires AllDigits(m.intDigits) && AllDigits(m.fracDigits) && AllDigits(e.digits)
  {
    MantissaValue(m) * ExponentScale(e)
  }

  /** The exact decimal value a lexeme denotes (IEEE-754 rounding is not modelled). */
  function LexemeValue(x: Lexeme): real
    requires AllDigits(x.mantissa.intDigits) && AllDigits(x.mantissa.fracDigits)
    requires AllDigits(x.exponent.digits)
  {
    var magnitude := Magnitude(x.mantissa, x.exponent);
    if x.negative then -magnitude else magnitude
  }

  /** `parseFloat(t)`; `None` stands for NaN. */
  function ParseFloat(t: string): Option<real> {
    match Scan(t)
    case None => None
    case Some(x) => Some(LexemeValue(x))
  }

  /**
   * After an optional sign, the string starts with a digit, or with '.'
   * followed by a digit: the shape every number `parseFloat` reads begins with.
   */
  predicate StartsNumeric(t: string) {
    var u := if |t| > 0 && (t[0] == '+' || t[0] == '-') then t[1..] else t;
    (|u| > 0 && IsDigit(u[0])) || (|u| > 1 && u[0] == '.' && IsDigit(u[1]))
  }

  /** `parseFloat` yields NaN exactly when the string does not start like a number. */
  lemma ParseFloatNaNIff(t: string)
    ensures ParseFloat(t).None? <==> !StartsNumeric(t)
  {
    var u := t[SignLength(t)..];
    if |u| > 0 && IsDigit(u[0]) {
      assert DigitCount(u) > 0;
    } else if |u| > 1 && u[0] == '.' && IsDigit(u[1]) {
      assert DigitCount(u) == 0;
      assert DigitCount(u[1..]) > 0;
    }
  }

  /** A run of digits spans its own length even when more text follows it. */
  lemma {:induction false} DigitCountOfDigits(d: string, t: string)
    requires AllDigits(d)
    requires t == [] || !IsDigit(t[0])
    ensures DigitCount(d + t) == |d|
  {
    if d != [] {
      assert (d + t)[1..] == d[1..] + t;
      DigitCountOfDigits(d[1..], t);
    } else {
      assert d + t == t;
    }
  }

  /** Digits followed by neither a digit nor '.' form a mantissa without a fraction. */
  lemma MantissaOfDigits(d: string, t: string)
    requires d != [] && AllDigits(d)
    requires t == [] || !(IsDigit(t[0]) || t[0] == '.')
    ensures MantissaAt(d + t) == Some(Mantissa(d, false, ""))
  {
    DigitCountOfDigits(d, t);
    assert (d + t)[..|d|] == d;
  }

  /** A mantissa without a fraction is worth its integer digits. */
  lemma WholeMantissa(d: string)
    requires AllDigits(d)
    ensures MantissaValue(Mantissa(d, false, "")) == DigitsValue(d) as real
  {
    assert DigitsValue("") == 0 && Pow10(0) == 1;
    assert DigitsValue("") as real / Pow10(0) as real == 0.0;
  }

  /** Without an exponent part the mantissa is scaled by one. */
  lemma NoExponentScale()
    ensures ExponentScale(Exponent(false, "", 0)) == 1.0
  {
    assert DigitsValue("") == 0 && Pow10(0) == 1;
  }

  /** Digits followed by text that cannot continue a number scan as a lone unsigned mantissa. */
  lemma ScanDigitsThen(d: string, t: string)
    requires d != [] && AllDigits(d)
    requires t == [] || !(IsDigit(t[0]) || t[0] == '.' || t[0] == 'e' || t[0] == 'E')
    ensures Scan(d + t) == Some(Lexeme(false, Mantissa(d, false, ""), Exponent(false, "", 0)))
  {
    var s := d + t;
    assert SignLength(s) == 0 by {
      assert s[0] == d[0];
    }
    assert s[0..] == s;
    MantissaOfDigits(d, t);
    assert s[|d|..] == t;
    assert ExponentAt(t) == Exponent(false, "", 0);
  }

  /**
   * `parseFloat` of a digit string followed by text that cannot continue a
   * number (no digit, '.', 'e' or 'E' next) is the value of the digits.
   */
  lemma ParseFloatDigitsThen(d: string, t: string)
    requires d != [] && AllDigits(d)
    requires t == [] || !(IsDigit(t[0]) || t[0] == '.' || t[0] == 'e' || t[0] == 'E')
    ensures ParseFloat(d + t) == Some(DigitsValue(d) as real)
  {
    var x := Lexeme(false, Mantissa(d, false, ""), Exponent(false, "", 0));
    ScanDigitsThen(d, t);
    WholeMantissa(d);
    NoExponentScale();
    assert Magnitude(x.mantissa, x.exponent) == DigitsValue(d) as real;
    assert LexemeValue(x) == DigitsValue(d) as real;
  }

  /** `parseFloat` of a string of digits alone is their decimal value. */
  lemma ParseFloatDigits(d: string)
    requires d != [] && AllDigits(d)
    ensures ParseFloat(d) == Some(DigitsValue(d) as real)
  {
    ParseFloatDigitsThen(d, "");
    assert d + "" == d;
  }

  /** A leading '-' changes the lexeme only in its sign. */
  lemma ScanNegate(t: string)
    requires t == [] || (t[0] != '+' && t[0] != '-')
    ensures Scan(t).Some? ==> !Scan(t).value.negative
    ensures Scan("-" + t) == if Scan(t).None? then None else Some(Scan(t).value.(negative := true))
  {
    if Scan(t).Some? {
      ScanNegateSome(t);
    } else {
      ScanNegateNone(t);
    }
  }

  /** When `t` reads as a number, so does `"-" + t`, with the same digits and the sign set. */
  lemma ScanNegateSome(t: string)
    requires t == [] || (t[0] != '+' && t[0] != '-')
    requires Scan(t).Some?
    ensures !Scan(t).value.negative
    ensures Scan("-" + t) == Some(Scan(t).value.(negative := true))
  {
    var s := "-" + t;
    assert SignLength(t) == 0 && t[0..] == t;
    assert SignLength(s) == 1 && s[0] == '-' && s[1..] == t;
    var x := Scan(t).value;
    var len := x.mantissa.Length();
    assert MantissaAt(s[1..]) == Some(x.mantissa);
    assert s[1 + len..] == t[len..];
    assert Scan(s) == Some(Lexeme(true, x.mantissa, x.exponent));
  }

  /** When `t` reads as NaN, so does `"-" + t`. */
  lemma ScanNegateNone(t: string)
    requires t == [] || (t[0] != '+' && t[0] != '-')
    requires Scan(t).None?
    ensures Scan("-" + t) == None
  {
    var s := "-" + t;
    assert SignLength(t) == 0 && t[0..] == t;
    assert SignLength(s) == 1 && s[1..] == t;
  }

  /** A leading '-' negates what follows it, and NaN stays NaN. */
  lemma ParseFloatNegate(t: string)
    requires t == [] || (t[0] != '+' && t[0] != '-')
    ensures ParseFloat("-" + t).None? <==> ParseFloat(t).None?
    ensures ParseFloat(t).Some? ==> ParseFloat("-" + t) == Some(-ParseFloat(t).value)
  {
    ScanNegate(t);
    if Scan(t).Some? {
      var x := Scan(t).value;
      LexemeValueNegate(x);
      assert Scan("-" + t) == Some(x.(negative := true));
    } else {
      assert Scan("-" + t) == None;
    }
  }

  /** Setting the sign of an unsigned lexeme negates its value. */
  lemma LexemeValueNegate(x: Lexeme)
    requires AllDigits(x.mantissa.intDigits) && AllDigits(x.mantissa.fracDigits)
    requires AllDigits(x.exponent.digits) && !x.negative
    ensures LexemeValue(x.(negative := true)) == -LexemeValue(x)
  {
    var y := x.(negative := true);
    var magnitude := Magnitude(x.mantissa, x.exponent);
    assert y.mantissa == x.mantissa && y.exponent == x.exponent;
    assert LexemeValue(x) == magnitude;
    assert LexemeValue(y) == -magnitude;
  }

  // ---------------------------------------------------------------------
  // getNumber
  // ---------------------------------------------------------------------

  /**
   * The `getNumber` closure: null and undefined give null, a number is kept,
   * anything else goes through `String`, the filter and `parseFloat`, and
   * NaN becomes null. `None` is JavaScript `null`.
   */
  function GetNumber(v: Value): (r: Option<real>)
    ensures IsNullish(v) ==> r.None?
    ensures v.Num? ==> r == Some(v.x)
    ensures v.Str? ==> (r.None? <==> !StartsNumeric(Filter(v.s)))
  {
    match v
    case Undefined => None
    case Null => None
    case Num(x) => Some(x)
    case Str(_) =>
      ParseFloatNaNIff(Filter(ToJsString(v)));
      ParseFloat(Filter(ToJsString(v)))
    case Bool(_) => ParseFloat(Filter(ToJsString(v)))
  }

  /** "true" filters to "e": only its 'e' lies in the kept range. */
  lemma FilterTrue()
    ensures Filter("true") == "e"
  {
    assert Filter("e") == "e";
    assert "ue"[1..] == "e" && Filter("ue") == "e";
    assert "rue"[1..] == "ue" && Filter("rue") == "e";
    assert "true"[1..] == "rue";
  }

  /** "false" filters to "ae": only its 'a' and 'e' lie in the kept range. */
  lemma FilterFalse()
    ensures Filter("false") == "ae"
  {
    assert Filter("e") == "e";
    assert "se"[1..] == "e" && Filter("se") == "e";
    assert "lse"[1..] == "se" && Filter("lse") == "e";
    assert "alse"[1..] == "lse" && Filter("alse") == "ae";
    assert "false"[1..] == "alse";
  }

  /** A string whose first character is a letter reads as NaN. */
  lemma ParseFloatLetterFirst(t: string)
    requires |t| > 0 && 'a' <= t[0] <= 'z'
    ensures ParseFloat(t) == None
  {
    assert SignLength(t) == 0 && t[0..] == t;
    assert DigitCount(t) == 0;
  }

  /** Booleans never become numbers: "true" filters to "e" and "false" to "ae". */
  lemma GetNumberOfBool(b: bool)
    ensures GetNumber(Bool(b)) == None
  {
    if b {
      FilterTrue();
      ParseFloatLetterFirst("e");
    } else {
      FilterFalse();
      ParseFloatLetterFirst("ae");
    }
  }

  /**
   * Unit suffixes are stripped: digits followed by text with no kept
   * character (" nm", "µm", "nm") read as the digits alone.
   */
  lemma GetNumberUnitSuffix(d: string, unit: string)
    requires d != [] && AllDigits(d)
    requires forall i :: 0 <= i < |unit| ==> !IsKept(unit[i])
    ensures Filter(d + unit) == d
    ensures GetNumber(Str(d + unit)) == Some(DigitsValue(d) as real)
  {
    FilterAppend(d, unit);
    FilterNoneKept(unit);
    assert Filter(d + unit) == d;
    ParseFloatDigits(d);
  }

  /** The digits "600" denote six hundred. */
  lemma DigitsValueSixHundred()
    ensures DigitsValue("600") == 600
  {
    assert DigitsValue("6") == 6 by {
      assert "6"[..0] == "";
    }
    assert DigitsValue("60") == 60 by {
      assert "60"[..1] == "6";
    }
    assert "600"[..2] == "60";
  }

  /** A wavelength with a unit: "600nm" reads as 600. */
  lemma GetNumberNanometres()
    ensures Filter("600nm") == "600"
    ensures GetNumber(Str("600nm")) == Some(600.0)
  {
    assert "600nm" == "600" + "nm";
    GetNumberUnitSuffix("600", "nm");
    DigitsValueSixHundred();
  }

  /**
   * Characters inside the range '+'..'e' survive the filter even though they
   * are not numeric: "<600" keeps its '<', reads as NaN and becomes null.
   */
  lemma GetNumberKeepsLessThan()
    ensures Filter("<600") == "<600"
    ensures GetNumber(Str("<600")) == None
  {
    assert !StartsNumeric("<600");
  }

  /** The digit "1" denotes one. */
  lemma DigitsValueOne()
    ensures DigitsValue("1") == 1
  {
    assert "1"[..0] == "";
  }

  /** The same quirk for a decimal comma: "1,5" keeps its ',' and only the leading 1 is read. */
  lemma GetNumberKeepsComma()
    ensures Filter("1,5") == "1,5"
    ensures GetNumber(Str("1,5")) == Some(1.0)
  {
    assert forall i :: 0 <= i < |"1,5"| ==> IsKept("1,5"[i]);
    assert "1,5" == "1" + ",5";
    ParseFloatDigitsThen("1", ",5");
    DigitsValueOne();
    assert ParseFloat("1,5") == Some(1.0);
  }
}
