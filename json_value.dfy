/** JSON values as the checkout code receives them from `JSON.parse`, with the
    JavaScript operations it applies to them: property reads, truthiness,
    `a || b`, numeric coercion and `Math.round`. JSON numbers are exact
    rationals here (`real`); binary floating point is not modelled. */
module JsonValue {
  import opened Wrappers
  import opened JsObject
  import Js

  datatype Json =
    | Null
    | Bool(b: bool)
    | Num(x: real)
    | Str(s: string)
    | Arr(elems: seq<Json>)
    | Obj(fields: Entries<Json>)

  /** What a property read yields: a JSON value, or `undefined` (None). */
  type Value = Option<Json>

  /** JavaScript truthiness: `undefined`, `null`, `false`, `0` and `""` are
      falsy; every other value, including `[]` and `{}`, is truthy. */
  predicate Truthy(v: Value) {
    match v
    case None => false
    case Some(Null) => false
    case Some(Bool(b)) => b
    case Some(Num(x)) => x != 0.0
    case Some(Str(s)) => s != ""
    case Some(_) => true
  }

  /** `a || b`. */
  function Or(a: Value, b: Value): Value {
    if Truthy(a) then a else b
  }

  /** `a || b` keeps a truthy left operand and otherwise yields the right one,
      so it is truthy exactly when one of its operands is. */
  lemma OrTruthy(a: Value, b: Value)
    ensures Truthy(Or(a, b)) <==> Truthy(a) || Truthy(b)
    ensures Or(a, b) == a || Or(a, b) == b
  {
  }

  /** `v.k` for a value that is not `null`: own properties of objects; arrays,
      strings, numbers and booleans have none of the names this code reads. */
  function Prop(v: Json, k: string): Value {
    if v.Obj? then Get(v.fields, k) else None
  }

  // ---------------------------------------------------------------- numbers

  function Pow10(n: nat): (p: nat)
    ensures p >= 1
  {
    if n == 0 then 1 else 10 * Pow10(n - 1)
  }

  /** An unsigned decimal literal: digits with an optional fraction, at least
      one digit in all (`12`, `3.5`, `.5`, `7.`). */
  function UnsignedLiteral(body: string): Option<real> {
    var k := Js.DigitRun(body);
    var whole := Js.DigitsValue(body[..k]) as real;
    if k == |body| then (if k == 0 then None else Some(whole))
    else if body[k] != '.' then None
    else
      var frac := body[k + 1..];
      var m := Js.DigitRun(frac);
      if m != |frac| || k + m == 0 then None
      else Some(whole + Js.DigitsValue(frac) as real / Pow10(m) as real)
  }

  /** A decimal literal: an optional sign before an unsigned literal. */
  function DecimalLiteral(t: string): Option<real> {
    var start := if |t| > 0 && (t[0] == '-' || t[0] == '+') then 1 else 0;
    var magnitude := UnsignedLiteral(t[start..]);
    if magnitude.Some? && start == 1 && t[0] == '-' then Some(-magnitude.value)
    else magnitude
  }

  /** `Number(s)` for a string: surrounding whitespace is ignored, the empty
      string is 0, a decimal literal is its value, anything else is NaN (None). */
  function StringToNumber(s: string): Option<real> {
    var t := Js.Trim(s);
    if t == "" then Some(0.0) else DecimalLiteral(t)
  }

  /** `Number(v)`, None standing for NaN. An array converts through its string
      form: `[]` is 0, a one-element array converts like its element (except
      that `[true]` and `[false]` give NaN), and a longer one, whose string
      form contains a comma, is NaN. */
  function ToNumber(v: Json): Option<real> {
    match v
    case Null => Some(0.0)
    case Bool(b) => Some(if b then 1.0 else 0.0)
    case Num(x) => Some(x)
    case Str(s) => StringToNumber(s)
    case Arr(es) =>
      if |es| == 0 then Some(0.0)
      else if |es| == 1 && !es[0].Bool? then ToNumber(es[0])
      else None
    case Obj(_) => None
  }

  /** `Math.round(x)`: the nearest integer, halves rounded up. */
  function Round(x: real): (n: int)
    ensures x - 0.5 < n as real <= x + 0.5
  {
    (x + 0.5).Floor
  }

  /** `Math.round(v * 100)`: an amount in dollars as whole cents; NaN stays NaN. */
  function Cents(v: Json): (r: Js.Number)
    ensures r.Int? <==> ToNumber(v).Some?
  {
    var x := ToNumber(v);
    if x.Some? then Js.Int(Round(x.value * 100.0)) else Js.NaN
  }

  /** Whole numbers are left alone by rounding. */
  lemma RoundWhole(n: int)
    ensures Round(n as real) == n
  {
  }

  /** A whole number of dollars, given as a number, is that many hundreds of
      cents. */
  lemma CentsOfWholeDollars(n: int)
    ensures Cents(Num(n as real)) == Js.Int(100 * n)
  {
    RoundWhole(100 * n);
  }

  /** A run of digits is read as its value. */
  lemma UnsignedLiteralDigits(ds: string)
    requires |ds| >= 1 && forall i :: 0 <= i < |ds| ==> Js.IsDigit(ds[i])
    ensures UnsignedLiteral(ds) == Some(Js.DigitsValue(ds) as real)
  {
    Js.DigitRunAllDigits(ds);
    assert ds[..|ds|] == ds;
  }

  /** A run of digits with no sign is read as its value. */
  lemma DecimalLiteralDigits(ds: string)
    requires |ds| >= 1 && forall i :: 0 <= i < |ds| ==> Js.IsDigit(ds[i])
    ensures DecimalLiteral(ds) == Some(Js.DigitsValue(ds) as real)
  {
    assert Js.IsDigit(ds[0]);
    assert ds[0..] == ds;
    UnsignedLiteralDigits(ds);
  }

  /** A run of digits after a minus sign is read as the negated value. */
  lemma DecimalLiteralNegated(t: string)
    requires |t| >= 2 && t[0] == '-'
    requires forall i :: 1 <= i < |t| ==> Js.IsDigit(t[i])
    ensures DecimalLiteral(t) == Some(-(Js.DigitsValue(t[1..]) as real))
  {
    UnsignedLiteralDigits(t[1..]);
  }

  /** The text of an integer has no surrounding whitespace. */
  lemma ShowIntTrimmed(n: int)
    ensures Js.Trim(Js.ShowInt(n)) == Js.ShowInt(n)
  {
    var s := Js.ShowInt(n);
    assert !Js.IsSpace(s[0]);
    assert Js.TrimStart(s) == s;
    assert Js.IsDigit(s[|s| - 1]) by {
      if n < 0 {
        assert s[|s| - 1] == Js.ShowNat(-n)[|Js.ShowNat(-n)| - 1];
      }
    }
  }

  /** `Number` reads back the decimal text `String` writes for an integer. */
  lemma StringToNumberShowInt(n: int)
    ensures StringToNumber(Js.ShowInt(n)) == Some(n as real)
  {
    var m: nat := if n < 0 then -n else n;
    Js.DigitsValueShowNat(m);
    ShowIntTrimmed(n);
    if n < 0 {
      assert Js.ShowInt(n)[1..] == Js.ShowNat(m);
      DecimalLiteralNegated(Js.ShowInt(n));
    } else {
      DecimalLiteralDigits(Js.ShowNat(m));
    }
  }

  /** A price written as a decimal string of dollars (`"12"`, `"-3"`) turns into
      the matching number of cents. */
  lemma CentsOfDollarString(n: int)
    ensures Cents(Str(Js.ShowInt(n))) == Js.Int(100 * n)
  {
    StringToNumberShowInt(n);
    RoundWhole(100 * n);
  }
}
