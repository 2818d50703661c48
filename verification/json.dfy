/**
 * JSON values exchanged between the browser pages, the server and the
 * catalogue store, with the conversions each side applies to them: Python's
 * truthiness, `(x or '').strip()` and `float(str(x).replace(',', '.'))` on
 * the server; JavaScript's truthiness and `Number(x || 0)` in the browser.
 */
module Json {
  import opened Wrappers
  import opened Text
  import opened Numbers

  /**
   * A JSON value. `Stamp` is a timestamp written by the server (the store's
   * creation time or a UTC clock reading), kept as the clock's seconds.
   */
  datatype Value =
    | Null
    | Bool(b: bool)
    | Num(n: real)
    | Str(s: string)
    | Arr(items: seq<Value>)
    | Obj(fields: map<string, Value>)
    | Stamp(t: int)

  /** A JSON object, a Python dict, a stored document. */
  type Object = map<string, Value>

  /** Python `d.get(k)`: the stored value, or None when the key is missing. */
  function Get(o: Object, k: string): Value {
    if k in o then o[k] else Null
  }

  /** Python `d.get(k, default)`. */
  function GetDefault(o: Object, k: string, default: Value): Value {
    if k in o then o[k] else default
  }

  /** Python truthiness: None, False, zero, empty text, empty list and empty dict are false. */
  predicate PyTruthy(v: Value) {
    match v
    case Null => false
    case Bool(b) => b
    case Num(n) => n != 0.0
    case Str(s) => s != []
    case Arr(xs) => xs != []
    case Obj(m) => m != map[]
    case Stamp(_) => true
  }

  /**
   * Python `x or ''` used as text: the text of a string and "" for a false
   * value. A true value that is not a string has no text: the `.strip()` or
   * `.casefold()` the server applies next raises.
   */
  function PyOrEmpty(v: Value): (r: Option<string>)
    ensures r.None? <==> PyTruthy(v) && !v.Str?
    ensures !PyTruthy(v) ==> r == Some([])
    ensures v.Str? ==> r == Some(v.s)
  {
    if !PyTruthy(v) then Some([])
    else if v.Str? then Some(v.s)
    else None
  }

  /** Python `(x or '').strip()`; None where it raises. */
  function PyStrippedOrEmpty(v: Value): (r: Option<string>)
    ensures r.Some? <==> PyOrEmpty(v).Some?
    ensures r.Some? ==> NoSpaceAtEnds(r.value) && |r.value| <= |PyOrEmpty(v).value|
  {
    match PyOrEmpty(v)
    case Some(s) => Some(Strip(s))
    case None => None
  }

  /**
   * Python `float(str(x).replace(',', '.'))`; None where it raises. A number
   * reads as itself; the text of None, a boolean, a list, a dict or a
   * timestamp is never a number.
   */
  function PyToFloat(v: Value): (r: Option<real>)
    ensures v.Num? ==> r == Some(v.n)
    ensures !v.Num? && !v.Str? ==> r.None?
  {
    match v
    case Num(n) => Some(n)
    case Str(s) => PyFloat(ReplaceChar(s, ',', '.'))
    case _ => None
  }

  /** Text that `float` accepts is still accepted when its decimal point is written as a comma. */
  lemma PyToFloatCommaDecimal(a: string, b: string)
    requires AllDigits(a) && AllDigits(b) && |a| + |b| > 0
    ensures PyToFloat(Str(a + "," + b)) == Some(DecimalValue(a, b))
  {
    AllDigitsNoSpecials(a);
    AllDigitsNoSpecials(b);
    var s := a + "," + b;
    var t := ReplaceChar(s, ',', '.');
    assert t == a + "." + b by {
      assert forall i | 0 <= i < |t| :: t[i] == (a + "." + b)[i];
    }
    PyFloatDecimal(a, b);
  }

  /** Text with a decimal point and no comma is read by `float` unchanged. */
  lemma PyToFloatDecimal(a: string, b: string)
    requires AllDigits(a) && AllDigits(b) && |a| + |b| > 0
    ensures PyToFloat(Str(a + "." + b)) == Some(DecimalValue(a, b))
  {
    AllDigitsNoSpecials(a);
    AllDigitsNoSpecials(b);
    var s := a + "." + b;
    assert ReplaceChar(s, ',', '.') == s;
    PyFloatDecimal(a, b);
  }

  /**
   * Unlike `converter_para_float`, the server's conversion does not read
   * thousands separators: "1.234,56" becomes "1.234.56", which `float` rejects.
   */
  lemma PyToFloatRejectsThousands(a: string, b: string, c: string)
    requires AllDigits(a) && AllDigits(b) && AllDigits(c) && a != [] && b != [] && c != []
    ensures PyToFloat(Str(a + "." + b + "," + c)) == None
  {
    AllDigitsNoSpecials(a);
    AllDigitsNoSpecials(b);
    AllDigitsNoSpecials(c);
    var s := a + "." + b + "," + c;
    var t := ReplaceChar(s, ',', '.');
    assert t == a + "." + b + "." + c;
    assert IsDigit(t[0]) && IsDigit(t[|t| - 1]) by {
      assert t[0] == a[0];
      assert t[|t| - 1] == c[|c| - 1];
    }
    StripNoop(t);
    assert t[|a|] == '.' && forall j | 0 <= j < |a| :: t[j] == a[j];
    assert IndexOf(t, '.') == |a|;
    assert t[|a| + 1..][|b|] == '.';
  }

  /** JavaScript truthiness: null, false, 0, NaN and "" are false; every list and object is true. */
  predicate JsTruthy(v: Value) {
    match v
    case Null => false
    case Bool(b) => b
    case Num(n) => n != 0.0
    case Str(s) => s != []
    case _ => true
  }

  /** JavaScript truthiness of a number: 0 and NaN are false. */
  predicate JsNumTruthy(x: JsNum) {
    x.Finite? && x.r != 0.0
  }

  /**
   * JavaScript `Number(x || 0)` for a value received from the server. Lists
   * and objects are read as NaN (a one-element list would go through its text).
   */
  function JsNumberOr0(v: Value): (r: JsNum)
    ensures !JsTruthy(v) ==> r == Finite(0.0)
    ensures v.Num? ==> r == Finite(v.n)
    ensures v.Str? && v.s != [] ==> r == JsNumberOfString(v.s)
  {
    if !JsTruthy(v) then Finite(0.0)
    else match v
      case Num(n) => Finite(n)
      case Bool(_) => Finite(1.0)
      case Str(s) => JsNumberOfString(s)
      case _ => NaN
  }

  /**
   * `Number` reads text with a decimal point as its value but, unlike
   * `parseNumero`, gives NaN for text with a decimal comma.
   */
  lemma JsNumberOr0Decimal(a: string, b: string)
    requires AllDigits(a) && AllDigits(b) && |a| + |b| > 0
    ensures JsNumberOr0(Str(a + "." + b)) == Finite(DecimalValue(a, b))
    ensures JsNumberOr0(Str(a + "," + b)) == NaN
  {
    AllDigitsNoSpecials(a);
    AllDigitsNoSpecials(b);
    PyFloatDecimal(a, b);
    var s := a + "," + b;
    assert NoSpaceAtEnds(s) && s[0] != '-' && s[0] != '+' by {
      if a != [] { assert s[0] == a[0]; } else { assert s[0] == ','; }
      if b != [] { assert s[|s| - 1] == b[|b| - 1]; } else { assert s[|s| - 1] == ','; }
    }
    StripNoop(s);
    assert '.' !in s && s[|a|] == ',';
  }

  /** JavaScript `Number(x || 0)` for a number: 0 and NaN give 0. */
  function JsNumOr0(x: JsNum): (r: real)
    ensures JsNumTruthy(x) ==> r == x.r
    ensures !JsNumTruthy(x) ==> r == 0.0
  {
    if JsNumTruthy(x) then x.r else 0.0
  }
}
