/**
 * Exact decimal parsing. Prices and quantities are `real`s: the model keeps
 * the decimal value that the text spells out, with no floating-point rounding.
 *
 * The accepted grammar is the common core of Python's `float()` and
 * JavaScript's `Number()`: an optional sign, digits, and an optional `.`
 * followed by digits, with at least one digit in all. Exponents, `inf`,
 * `nan`, `Infinity` and digit-group underscores are not part of the model.
 */
module Numbers {
  import opened Wrappers
  import opened Text

  function DigitVal(c: char): nat
    requires IsDigit(c)
  {
    c as int - '0' as int
  }

  function Pow10(n: nat): (r: nat)
    ensures r >= 1
  {
    if n == 0 then 1 else 10 * Pow10(n - 1)
  }

  /** The value of a string of decimal digits, most significant first. */
  function DigitsValue(s: string): (v: nat)
    requires AllDigits(s)
    ensures v < Pow10(|s|)
  {
    if s == [] then 0 else DigitsValue(s[..|s| - 1]) * 10 + DigitVal(s[|s| - 1])
  }

  /** The value of the digits after a decimal point. */
  function FracValue(s: string): (v: real)
    requires AllDigits(s)
    ensures 0.0 <= v < 1.0
  {
    if s == [] then 0.0 else
    var n, d := DigitsValue(s), Pow10(|s|);
    assert (n as real) / (d as real) < 1.0 by { BelowOne(n as real, d as real); }
    n as real / d as real
  }

  lemma BelowOne(n: real, d: real)
    requires 0.0 <= n < d
    ensures 0.0 <= n / d < 1.0
  {
    assert n / d * d == n;
  }

  /** The value of the decimal literal `a.b`. */
  function DecimalValue(a: string, b: string): (v: real)
    requires AllDigits(a) && AllDigits(b)
    ensures v >= 0.0
  {
    DigitsValue(a) as real + FracValue(b)
  }

  /** An unsigned literal: digits, optionally a point and more digits, at least one digit in all. */
  function ParseUnsigned(u: string): Option<real> {
    var k := IndexOf(u, '.');
    if k < 0 then
      if u != [] && AllDigits(u) then Some(DigitsValue(u) as real) else None
    else
      var a, b := u[..k], u[k + 1..];
      if AllDigits(a) && AllDigits(b) && |a| + |b| > 0 then Some(DecimalValue(a, b)) else None
  }

  /** Python `float(s)` on the modelled grammar; `None` stands for the `ValueError` it raises. */
  function PyFloat(s: string): Option<real> {
    var t := Strip(s);
    if |t| > 0 && t[0] == '-' then
      match ParseUnsigned(t[1..])
      case Some(v) => Some(-v)
      case None => None
    else if |t| > 0 && t[0] == '+' then ParseUnsigned(t[1..])
    else ParseUnsigned(t)
  }

  /** The clean-up step of `converter_para_float`: drop every "R$" and every space, then strip. */
  function Limpar(s: string): string {
    Strip(RemoveChar(RemoveAll(s, "R$"), ' '))
  }

  /**
   * The rewrite step of `converter_para_float`. With both separators and
   * exactly one comma, points are thousands separators and the comma is the
   * decimal point; otherwise every comma becomes a point.
   */
  function ReescreverDecimal(limpo: string): string {
    var partes := Split(limpo, ',');
    if '.' in limpo && ',' in limpo && |partes| == 2 then RemoveChar(partes[0], '.') + "." + partes[1]
    else if ',' in limpo then ReplaceChar(limpo, ',', '.')
    else limpo
  }

  /**
   * `converter_para_float` of the PDF extractor: Brazilian number text to a
   * value, 0.0 for empty, 'None', 'nan' and anything unparsable.
   */
  function ConverterParaFloat(s: string): real {
    if s == "" || s == "None" || s == "nan" then 0.0
    else PyFloat(ReescreverDecimal(Limpar(s))).GetOr(0.0)
  }

  lemma {:induction false} AllDigitsNoSpecials(a: string)
    requires AllDigits(a)
    ensures '.' !in a && ',' !in a && ' ' !in a && 'R' !in a && '-' !in a && '+' !in a
  {
    forall i | 0 <= i < |a|
      ensures a[i] != '.' && a[i] != ',' && a[i] != ' ' && a[i] != 'R' && a[i] != '-' && a[i] != '+'
    {
      assert IsDigit(a[i]);
    }
  }

  /** A literal `a.b` of digit strings parses to its decimal value. */
  lemma ParseUnsignedDecimal(a: string, b: string)
    requires AllDigits(a) && AllDigits(b) && |a| + |b| > 0
    ensures ParseUnsigned(a + "." + b) == Some(DecimalValue(a, b))
  {
    var u := a + "." + b;
    AllDigitsNoSpecials(a);
    assert u[|a|] == '.';
    assert forall j | 0 <= j < |a| :: u[j] == a[j];
    var k := IndexOf(u, '.');
    assert k == |a|;
    assert u[..k] == a && u[k + 1..] == b;
  }

  /** A plain digit string parses to its integer value. */
  lemma ParseUnsignedDigits(a: string)
    requires AllDigits(a) && a != []
    ensures ParseUnsigned(a) == Some(DigitsValue(a) as real)
  {
    AllDigitsNoSpecials(a);
  }

  /** Python's `float` reads `a.b` for digit strings `a` and `b` as the decimal value. */
  lemma PyFloatDecimal(a: string, b: string)
    requires AllDigits(a) && AllDigits(b) && |a| + |b| > 0
    ensures PyFloat(a + "." + b) == Some(DecimalValue(a, b))
  {
    var t := a + "." + b;
    assert t[0] != '-' && t[0] != '+' && !IsSpace(t[0]) by {
      if a != [] { assert t[0] == a[0]; assert IsDigit(a[0]); } else { assert t[0] == '.'; }
    }
    assert !IsSpace(t[|t| - 1]) by {
      if b != [] { assert t[|t| - 1] == b[|b| - 1]; assert IsDigit(b[|b| - 1]); } else { assert t[|t| - 1] == '.'; }
    }
    StripNoop(t);
    ParseUnsignedDecimal(a, b);
  }

  /** Text without 'R', without spaces and without whitespace at its ends is already clean. */
  lemma LimparNoop(s: string)
    requires 'R' !in s && ' ' !in s && NoSpaceAtEnds(s)
    ensures Limpar(s) == s
  {
    RemoveAllAbsent(s, "R$");
    RemoveCharAbsent(s, ' ');
    StripNoop(s);
  }

  /** With only a comma, the comma becomes the decimal point. */
  lemma ReescreverComma(a: string, b: string)
    requires AllDigits(a) && AllDigits(b)
    ensures ReescreverDecimal(a + "," + b) == a + "." + b
  {
    AllDigitsNoSpecials(a);
    AllDigitsNoSpecials(b);
    var s := a + "," + b;
    assert s[|a|] == ',';
    assert '.' !in s;
    var t := ReplaceChar(s, ',', '.');
    assert forall i | 0 <= i < |t| :: t[i] == (a + "." + b)[i];
  }

  /** With points before the one comma, the points are dropped and the comma becomes the point. */
  lemma ReescreverThousands(x: string, b: string)
    requires ',' !in x && '.' in x && AllDigits(b)
    ensures ReescreverDecimal(x + "," + b) == RemoveChar(x, '.') + "." + b
  {
    AllDigitsNoSpecials(b);
    var s := x + "," + b;
    assert s[|x|] == ',';
    assert '.' in s by {
      var i :| 0 <= i < |x| && x[i] == '.';
      assert s[i] == '.';
    }
    SplitTwo(x, ',', b);
  }

  /** "12,5" style: digits, one comma, digits. The comma is the decimal point. */
  lemma ConverterCommaDecimal(a: string, b: string)
    requires AllDigits(a) && AllDigits(b) && |a| + |b| > 0
    ensures ConverterParaFloat(a + "," + b) == DecimalValue(a, b)
  {
    var s := a + "," + b;
    AllDigitsNoSpecials(a);
    AllDigitsNoSpecials(b);
    assert NoSpaceAtEnds(s) by {
      if a != [] { assert s[0] == a[0]; } else { assert s[0] == ','; }
      if b != [] { assert s[|s| - 1] == b[|b| - 1]; } else { assert s[|s| - 1] == ','; }
    }
    assert 'R' !in s && ' ' !in s;
    LimparNoop(s);
    NotSentinel(s, |a|);
    ReescreverComma(a, b);
    PyFloatDecimal(a, b);
  }

  /** "1234" style: plain digits read as their integer value. */
  lemma ConverterDigits(a: string)
    requires AllDigits(a) && a != []
    ensures ConverterParaFloat(a) == DigitsValue(a) as real
  {
    AllDigitsNoSpecials(a);
    assert IsDigit(a[0]) && IsDigit(a[|a| - 1]);
    LimparNoop(a);
    SplitNone(a, ',');
    StripNoop(a);
    ParseUnsignedDigits(a);
  }

  /** "1234.56" style: digits, one point, digits, read as the decimal value. */
  lemma ConverterPointDecimal(a: string, b: string)
    requires AllDigits(a) && AllDigits(b) && |a| + |b| > 0
    ensures ConverterParaFloat(a + "." + b) == DecimalValue(a, b)
  {
    var s := a + "." + b;
    AllDigitsNoSpecials(a);
    AllDigitsNoSpecials(b);
    assert NoSpaceAtEnds(s) by {
      if a != [] { assert s[0] == a[0]; } else { assert s[0] == '.'; }
      if b != [] { assert s[|s| - 1] == b[|b| - 1]; } else { assert s[|s| - 1] == '.'; }
    }
    assert 'R' !in s && ' ' !in s && ',' !in s;
    assert s[|a|] == '.';
    LimparNoop(s);
    SplitNone(s, ',');
    PyFloatDecimal(a, b);
  }

  /** Text holding a comma is none of the sentinels 'None', 'nan' and "". */
  lemma NotSentinel(s: string, i: nat)
    requires i < |s| && s[i] == ','
    ensures s != "" && s != "None" && s != "nan"
  {
  }

  /** Digits grouped with points, a comma and digits: nothing for the cleanup to remove, and no comma before the one. */
  lemma MilharLimpo(x: string, b: string)
    requires forall i | 0 <= i < |x| :: IsDigit(x[i]) || x[i] == '.'
    requires '.' in x && AllDigits(b)
    ensures ',' !in x
    ensures var s := x + "," + b; 'R' !in s && ' ' !in s && NoSpaceAtEnds(s)
  {
    var s := x + "," + b;
    AllDigitsNoSpecials(b);
    forall i | 0 <= i < |s| ensures s[i] != 'R' && s[i] != ' ' {
      if i < |x| { assert s[i] == x[i]; } else if i > |x| { assert s[i] == b[i - |x| - 1]; }
    }
    forall i | 0 <= i < |x| ensures x[i] != ',' { }
    assert s[0] == x[0];
    if b != [] { assert s[|s| - 1] == b[|b| - 1]; } else { assert s[|s| - 1] == ','; }
  }

  /**
   * "1.234,56" style: digits grouped with points, one comma, digits. Points
   * are thousands separators and the comma is the decimal point.
   */
  lemma ConverterThousands(x: string, b: string)
    requires forall i | 0 <= i < |x| :: IsDigit(x[i]) || x[i] == '.'
    requires '.' in x && AllDigits(b)
    requires AllDigits(RemoveChar(x, '.')) && |RemoveChar(x, '.')| + |b| > 0
    ensures ConverterParaFloat(x + "," + b) == DecimalValue(RemoveChar(x, '.'), b)
  {
    var s := x + "," + b;
    MilharLimpo(x, b);
    LimparNoop(s);
    NotSentinel(s, |x|);
    ReescreverThousands(x, b);
    PyFloatDecimal(RemoveChar(x, '.'), b);
  }

  /** The digits "1234" and "56" read as 1234 and 56. */
  lemma DigitosDoExemplo()
    ensures AllDigits("1234") && AllDigits("56")
    ensures DigitsValue("1234") == 1234 && DigitsValue("56") == 56
  {
    assert "1234"[..3] == "123" && "123"[..2] == "12" && "12"[..1] == "1" && "56"[..1] == "5";
    assert DigitsValue("1") == 1;
    assert DigitsValue("12") == 12;
    assert DigitsValue("123") == 123;
  }

  /** The decimal value of the worked example with thousands separators. */
  lemma DecimalValueMilhar()
    ensures AllDigits("1234") && AllDigits("56")
    ensures DecimalValue("1234", "56") == 1234.56
  {
    DigitosDoExemplo();
    assert Pow10(2) == 100;
    assert FracValue("56") == 0.56;
  }

  /** The decimal value of the worked example with a decimal comma. */
  lemma DecimalValueVirgula()
    ensures AllDigits("12") && AllDigits("5")
    ensures DecimalValue("12", "5") == 12.5
  {
    assert DigitsValue("12") == 12 by {
      assert "12"[..1] == "1";
    }
    assert FracValue("5") == 0.5 by {
      assert DigitsValue("5") == 5;
      assert Pow10(1) == 10;
    }
  }

  /** The worked example with thousands separators: "1.234,56" is 1234.56. */
  lemma ConverterExampleThousands(s: string)
    requires s == "1.234,56"
    ensures ConverterParaFloat(s) == 1234.56
  {
    DecimalValueMilhar();
    assert RemoveChar("1.234", '.') == "1234";
    assert "1.234" + "," + "56" == s;
    ConverterThousands("1.234", "56");
  }

  /** The worked example with a decimal comma: "12,5" is 12.5. */
  lemma ConverterExampleComma(s: string)
    requires s == "12,5"
    ensures ConverterParaFloat(s) == 12.5
  {
    DecimalValueVirgula();
    assert "12" + "," + "5" == s;
    ConverterCommaDecimal("12", "5");
  }

  /** A literal needs at least one digit. */
  lemma ParseUnsignedNoDigits(u: string)
    requires NoDigits(u)
    ensures ParseUnsigned(u).None?
  {
    var k := IndexOf(u, '.');
    if k < 0 {
      if u != [] { assert u[0] in u; }
    } else {
      var a, b := u[..k], u[k + 1..];
      if a != [] { assert a[0] == u[0] && u[0] in u; }
      if b != [] { assert b[0] == u[k + 1] && u[k + 1] in u; }
    }
  }

  /** `float` refuses text without a digit. */
  lemma PyFloatNoDigits(s: string)
    requires NoDigits(s)
    ensures PyFloat(s).None?
  {
    var t := Strip(s);
    StripNoDigits(s);
    if |t| > 0 {
      NoDigitsSlice(t, 1, |t|);
      ParseUnsignedNoDigits(t[1..]);
    }
    ParseUnsignedNoDigits(t);
  }

  /** The rewrite step adds only points, so it keeps text free of digits. */
  lemma ReescreverNoDigits(limpo: string)
    requires NoDigits(limpo)
    ensures NoDigits(ReescreverDecimal(limpo))
  {
    var partes := Split(limpo, ',');
    SplitNoDigits(limpo, ',');
    if !('.' in limpo && ',' in limpo && |partes| == 2) && ',' in limpo {
      var r := ReplaceChar(limpo, ',', '.');
      forall c | c in r
        ensures !IsDigit(c)
      {
        var i :| 0 <= i < |r| && r[i] == c;
        assert limpo[i] in limpo;
      }
    }
  }

  /** The sentinels 'None', 'nan' and "", and any other text without a digit, give 0.0. */
  lemma ConverterFallbacks(s: string)
    requires NoDigits(s)
    ensures ConverterParaFloat(s) == 0.0
  {
    if s != "" && s != "None" && s != "nan" {
      RemoveAllNoDigits(s, "R$");
      var l := Limpar(s);
      assert NoDigits(RemoveChar(RemoveAll(s, "R$"), ' '));
      StripNoDigits(RemoveChar(RemoveAll(s, "R$"), ' '));
      ReescreverNoDigits(l);
      PyFloatNoDigits(ReescreverDecimal(l));
    }
  }

  /** JavaScript numbers: a finite value or NaN (infinities are not modelled). */
  datatype JsNum = Finite(r: real) | NaN

  /** The longest prefix of `s` made of digits. */
  function DigitRun(s: string): (r: string)
    ensures |r| <= |s| && AllDigits(r) && r == s[..|r|]
    ensures |r| == |s| || !IsDigit(s[|r|])
  {
    if s != [] && IsDigit(s[0]) then [s[0]] + DigitRun(s[1..]) else []
  }

  /** JavaScript `parseFloat(s)`: the longest decimal prefix after leading whitespace, else NaN. */
  function JsParseFloat(s: string): JsNum {
    var t := StripLeft(s);
    var neg := |t| > 0 && t[0] == '-';
    var u := if |t| > 0 && (t[0] == '-' || t[0] == '+') then t[1..] else t;
    var a := DigitRun(u);
    var rest := u[|a|..];
    var b := if |rest| > 0 && rest[0] == '.' then DigitRun(rest[1..]) else [];
    if |a| + |b| == 0 then NaN
    else Finite(if neg then -DecimalValue(a, b) else DecimalValue(a, b))
  }

  /** JavaScript `Number(s)` for a string: blank is 0, a complete literal its value, anything else NaN. */
  function JsNumberOfString(s: string): JsNum {
    if Strip(s) == [] then Finite(0.0)
    else match PyFloat(s)
         case Some(v) => Finite(v)
         case None => NaN
  }

  /** `parseFloat` reads a whole digit string as its integer value. */
  lemma JsParseFloatDigits(a: string)
    requires AllDigits(a) && a != []
    ensures JsParseFloat(a) == Finite(DigitsValue(a) as real)
  {
    assert !IsSpace(a[0]) && a[0] != '-' && a[0] != '+' by { assert IsDigit(a[0]); }
    assert StripLeft(a) == a;
    DigitRunAll(a);
    assert a[|a|..] == [];
  }

  /** `parseFloat` reads `a.b` for digit strings as the decimal value. */
  lemma JsParseFloatDecimal(a: string, b: string)
    requires AllDigits(a) && AllDigits(b) && |a| + |b| > 0
    ensures JsParseFloat(a + "." + b) == Finite(DecimalValue(a, b))
  {
    var t := a + "." + b;
    assert !IsSpace(t[0]) && t[0] != '-' && t[0] != '+' by {
      if a != [] { assert t[0] == a[0]; assert IsDigit(a[0]); } else { assert t[0] == '.'; }
    }
    assert StripLeft(t) == t;
    DigitRunStop(a, "." + b);
    assert t == a + ("." + b);
    assert t[|a|..] == "." + b && ("." + b)[1..] == b;
    DigitRunAll(b);
  }

  /** The digit run of digits followed by a non-digit is those digits. */
  lemma {:induction false} DigitRunStop(a: string, s: string)
    requires AllDigits(a) && s != [] && !IsDigit(s[0])
    ensures DigitRun(a + s) == a
  {
    if a == [] {
      assert a + s == s;
    } else {
      assert (a + s)[0] == a[0];
      assert (a + s)[1..] == a[1..] + s;
      DigitRunStop(a[1..], s);
      assert [a[0]] + a[1..] == a;
    }
  }

  lemma {:induction false} DigitRunAll(a: string)
    requires AllDigits(a)
    ensures DigitRun(a) == a
  {
    if a != [] {
      DigitRunAll(a[1..]);
    }
  }
}
