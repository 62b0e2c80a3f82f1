/**
 * Python's `int(x)` and `float(x)` on the values the normaliser meets.
 * String arguments follow the decimal literal grammar after `str.strip()`:
 * an optional sign and ASCII digits for `int`, plus a decimal point and an
 * exponent for `float`.
 */
module PyConvert {
  import opened Wrappers
  import opened PyText
  import opened PyValue

  /** `[+|-]digits` with nothing around it. */
  function SignedDigits(t: string): (r: Option<int>)
    ensures r.Some? ==> t != []
    ensures t != [] && AllDigits(t) ==> r == Some(DigitsValue(t))
    ensures t != [] && t[0] == '-' && t[1..] != [] && AllDigits(t[1..]) ==> r == Some(-(DigitsValue(t[1..]) as int))
  {
    if t != [] && (t[0] == '+' || t[0] == '-') then
      var ds := t[1..];
      if ds != [] && AllDigits(ds) then Some(if t[0] == '-' then -(DigitsValue(ds) as int) else DigitsValue(ds)) else None
    else if t != [] && AllDigits(t) then Some(DigitsValue(t))
    else None
  }

  predicate IsCanonical(d: Decimal) {
    (d.mantissa == 0 ==> d.exponent == 0) && (d.mantissa != 0 ==> d.mantissa % 10 != 0)
  }

  function Abs(i: int): nat {
    if i < 0 then -i else i
  }

  /** `int(f)` for a float: the integer part, rounded toward zero. */
  function Truncate(d: Decimal): (n: int)
    ensures d.exponent >= 0 ==> n == d.mantissa * Pow10(d.exponent)
    ensures d.exponent < 0 ==> Abs(n) * Pow10(-d.exponent) <= Abs(d.mantissa)
                               < (Abs(n) + 1) * Pow10(-d.exponent)
    ensures n != 0 ==> (n < 0 <==> d.mantissa < 0)
  {
    if d.exponent >= 0 then d.mantissa * Pow10(d.exponent)
    else
      var q: int := Quotient(Abs(d.mantissa), Pow10(-d.exponent));
      if d.mantissa >= 0 then q else -q
  }

  /** Division of naturals, with the bounds that define it. */
  function Quotient(a: nat, p: nat): (q: nat)
    requires p >= 1
    ensures q * p <= a < (q + 1) * p
  {
    assert a == (a / p) * p + a % p;
    a / p
  }

  /** `int(x)`: the integer, or the ValueError / TypeError it raises. */
  function ToInt(j: Json): (r: Result<int, Fault>)
    ensures r.Err? ==> r.error == IntRefused(j)
    ensures r.Err? <==> j.Null? || j.Array? || j.Object? || (j.Str? && SignedDigits(Strip(j.s)).None?)
    ensures j.Int? ==> r == Ok(j.i)
    ensures j.Bool? ==> r == Ok(if j.b then 1 else 0)
    ensures j.Float? ==> r == Ok(Truncate(j.d))
  {
    match j
    case Bool(b) => Ok(if b then 1 else 0)
    case Int(i) => Ok(i)
    case Float(d) => Ok(Truncate(d))
    case Str(s) =>
      (match SignedDigits(Strip(s))
       case Some(n) => Ok(n)
       case None => Err(IntRefused(j)))
    case _ => Err(IntRefused(j))
  }

  /**
   * An unsigned decimal literal `digits [. [digits]] | . digits`, optionally
   * followed by `(e|E) [+|-] digits`: the digits read as one integer and the
   * power of ten that scales it.
   */
  function UnsignedDecimal(body: string): (r: Option<(nat, int)>)
    ensures body != [] && AllDigits(body) ==> r == Some((DigitsValue(body), 0))
  {
    var e := FindEither(body, 'e', 'E');
    var mant := body[..e];
    var exp := if e < |body| then SignedDigits(body[e + 1..]) else Some(0);
    var p := FindEither(mant, '.', '.');
    var whole := mant[..p];
    var frac := if p < |mant| then mant[p + 1..] else [];
    assert AllDigits(body) ==> e == |body| && mant == body;
    assert AllDigits(body) ==> p == |mant| && whole == body && frac == [] && whole + frac == body;
    if exp.Some? && AllDigits(whole) && AllDigits(frac) && |whole| + |frac| > 0 then
      assert AllDigits(whole + frac);
      Some((DigitsValue(whole + frac), exp.value - |frac|))
    else None
  }

  /** The literals `float(s)` accepts: an optional sign and an unsigned decimal, after stripping whitespace. */
  function FloatLiteral(s: string): (r: Option<Decimal>)
    ensures r.Some? ==> IsCanonical(r.value)
    ensures r.Some? ==> Strip(s) != []
  {
    var t := Strip(s);
    var signed := t != [] && (t[0] == '+' || t[0] == '-');
    match UnsignedDecimal(if signed then t[1..] else t)
    case Some((m, e)) => Some(Normalize(Decimal(if signed && t[0] == '-' then -(m as int) else m, e)))
    case None => None
  }

  /** `float(x)`: the float in canonical form, or the ValueError / TypeError it raises. */
  function ToFloat(j: Json): (r: Result<Decimal, Fault>)
    ensures r.Ok? ==> IsCanonical(r.value)
    ensures r.Err? ==> r.error == FloatRefused(j)
    ensures r.Err? <==> j.Null? || j.Array? || j.Object? || (j.Str? && FloatLiteral(j.s).None?)
    ensures j.Int? ==> r == Ok(Normalize(Decimal(j.i, 0)))
    ensures j.Str? && FloatLiteral(j.s).Some? ==> r == Ok(FloatLiteral(j.s).value)
    ensures j.Float? ==> r == Ok(Normalize(j.d))
    ensures j.Bool? ==> r == Ok(Decimal(if j.b then 1 else 0, 0))
  {
    match j
    case Bool(b) => Ok(Decimal(if b then 1 else 0, 0))
    case Int(i) => Ok(Normalize(Decimal(i, 0)))
    case Float(d) => Ok(Normalize(d))
    case Str(s) =>
      (match FloatLiteral(s)
       case Some(d) => Ok(d)
       case None => Err(FloatRefused(j)))
    case _ => Err(FloatRefused(j))
  }

  /** `str(n)` has no whitespace at either end, so `int` and `float` read it as written. */
  lemma IntReprStripped(n: int)
    ensures Strip(IntRepr(n)) == IntRepr(n)
  {
    var r := IntRepr(n);
    assert r[0] == '-' || IsDigit(r[0]);
    assert IsDigit(r[|r| - 1]);
    StripUnchanged(r);
  }

  /** `int(ds)` on a run of digits: its value, or the ValueError of `int('')`. */
  lemma IntOfDigits(ds: string)
    requires AllDigits(ds)
    ensures ToInt(Str(ds)) == if ds == [] then Err(IntRefused(Str(ds))) else Ok(DigitsValue(ds))
  {
    if ds != [] {
      assert IsDigit(ds[0]) && IsDigit(ds[|ds| - 1]);
    }
    StripUnchanged(ds);
  }

  /** Round trip: `int(str(n)) == n`. */
  lemma IntRoundTrip(n: int)
    ensures ToInt(Str(IntRepr(n))) == Ok(n)
  {
    var t := IntRepr(n);
    IntReprStripped(n);
    if n < 0 {
      assert t[0] == '-' && t[1..] == NatRepr(-n);
    } else {
      assert t == NatRepr(n);
    }
    assert SignedDigits(t) == Some(n);
  }

  /** `str(n)` is a literal `float` accepts, read as the integer `n`. */
  lemma FloatLiteralOfIntRepr(n: int)
    ensures FloatLiteral(IntRepr(n)) == Some(Normalize(Decimal(n, 0)))
  {
    var t := IntRepr(n);
    IntReprStripped(n);
    var body := NatRepr(Abs(n));
    assert IsDigit(body[0]);
    if n < 0 {
      assert t[0] == '-' && t[1..] == body;
    } else {
      assert t == body;
    }
    assert UnsignedDecimal(body) == Some((Abs(n), 0));
    assert t[0] == '-' || t[0] == '+' <==> n < 0;
  }

  /** `float(str(n)) == float(n)`: an integer written out reads back as the same float. */
  lemma FloatOfIntString(n: int)
    ensures ToFloat(Str(IntRepr(n))) == ToFloat(Int(n))
  {
    FloatLiteralOfIntRepr(n);
  }

  /** `float("N/A")` raises. */
  lemma FloatRefusesText()
    ensures ToFloat(Str("N/A")) == Err(FloatRefused(Str("N/A")))
  {
    NotAFloat("N/A");
  }

  /** A text with no space at either end that opens with no sign, digit or point is refused by `float`. */
  lemma NotAFloat(t: string)
    requires t != [] && !IsSpace(t[0]) && !IsSpace(t[|t| - 1])
    requires !IsDigit(t[0]) && t[0] != '.' && t[0] != '+' && t[0] != '-'
    ensures ToFloat(Str(t)) == Err(FloatRefused(Str(t)))
  {
    assert Strip(t) == t by { StripUnchanged(t); }
    assert UnsignedDecimal(t) == None by { NotADecimal(t); }
  }

  /** A text whose first character is neither a digit nor a point is no decimal literal. */
  lemma NotADecimal(body: string)
    requires body != [] && !IsDigit(body[0]) && body[0] != '.'
    ensures UnsignedDecimal(body) == None
  {
    var e := FindEither(body, 'e', 'E');
    var p := FindEither(body[..e], '.', '.');
    if e == 0 {
      // an exponent with no mantissa before it
      assert body[..e] == [];
    } else {
      assert p > 0;
      assert !AllDigits(body[..e][..p]) by { assert body[..e][..p][0] == body[0]; }
    }
  }

  /** `float("120")` is 120.0. */
  lemma FloatOfPlainNumber()
    ensures ToFloat(Str("120")) == Ok(Decimal(12, 1))
  {
    assert NatRepr(1) == "1";
    assert NatRepr(12) == "12";
    assert IntRepr(120) == "120";
    assert Normalize(Decimal(12, 1)) == Decimal(12, 1);
    assert Normalize(Decimal(120, 0)) == Decimal(12, 1);
    FloatOfIntString(120);
  }
}
