/**
 * The Python values that the proxy receives from its upstream services and
 * hands to `jsonify`: what `response.json()` / `request.get_json()` produce.
 * A dict is an ordered list of members (Python dicts keep insertion order);
 * a float is an exact decimal `mantissa * 10^exponent`.
 */
module PyValue {
  import opened Wrappers
  import opened PyText

  /** A float, held exactly as `mantissa * 10^exponent`. */
  datatype Decimal = Decimal(mantissa: int, exponent: int)

  datatype Json =
    | Null
    | Bool(b: bool)
    | Int(i: int)
    | Float(d: Decimal)
    | Str(s: string)
    | Array(items: seq<Json>)
    | Object(members: seq<Member>)

  datatype Member = Member(key: string, value: Json)

  /** The exceptions the core can raise, as Python would report them. */
  datatype Fault =
    | Upstream(message: string)  // raised by the HTTP call or by `response.json()`
    | AttributeGet(receiver: Json)  // `.get` called on a value that is not a dict
    | NotIterable(value: Json)  // `for x in value` on a value that cannot be iterated
    | FloatRefused(value: Json)  // `float(value)` raised
    | IntRefused(value: Json)  // `int(value)` raised

  function Pow10(k: nat): (p: nat)
    ensures p >= 1
  {
    if k == 0 then 1 else 10 * Pow10(k - 1)
  }

  /**
   * The canonical form of a decimal: no trailing zero in the mantissa, and
   * zero written `0 * 10^0`. Two decimals denote the same number exactly
   * when their canonical forms are equal.
   */
  function Normalize(d: Decimal): (r: Decimal)
    ensures r.mantissa == 0 <==> d.mantissa == 0
    ensures r.mantissa == 0 ==> r.exponent == 0
    ensures r.mantissa != 0 ==> r.mantissa % 10 != 0 && r.exponent >= d.exponent
    ensures r.mantissa != 0 ==> r.mantissa * Pow10(r.exponent - d.exponent) == d.mantissa
    decreases if d.mantissa < 0 then -d.mantissa else d.mantissa
  {
    if d.mantissa == 0 then Decimal(0, 0)
    else if d.mantissa % 10 == 0 then
      var r := Normalize(Decimal(d.mantissa / 10, d.exponent + 1));
      var k := r.exponent - d.exponent - 1;
      assert r.mantissa * Pow10(k + 1) == 10 * (r.mantissa * Pow10(k));
      r
    else d
  }

  /** Python truthiness (`bool(x)`). */
  predicate Truthy(j: Json) {
    match j
    case Null => false
    case Bool(b) => b
    case Int(i) => i != 0
    case Float(d) => d.mantissa != 0
    case Str(s) => s != []
    case Array(items) => items != []
    case Object(members) => members != []
  }

  /** Python's falsy values: None, False, zero, and the empty string, list and dict. */
  lemma FalsyValues(j: Json)
    ensures !Truthy(j) <==>
              || j == Null || j == Bool(false) || j == Int(0) || (j.Float? && j.d.mantissa == 0)
              || j == Str("") || j == Array([]) || j == Object([])
  {
  }

  /** `type(x).__name__` */
  function TypeName(j: Json): string {
    match j
    case Null => "NoneType"
    case Bool(_) => "bool"
    case Int(_) => "int"
    case Float(_) => "float"
    case Str(_) => "str"
    case Array(_) => "list"
    case Object(_) => "dict"
  }

  /** `d[key]` when present: the value of the first member with that key. */
  function Lookup(members: seq<Member>, key: string): Option<Json> {
    if members == [] then None
    else if members[0].key == key then Some(members[0].value)
    else Lookup(members[1..], key)
  }

  /** A key is absent exactly when no member carries it. */
  lemma {:induction false} LookupNone(members: seq<Member>, key: string)
    ensures Lookup(members, key).None? <==> forall i :: 0 <= i < |members| ==> members[i].key != key
  {
    if members != [] && members[0].key != key {
      LookupNone(members[1..], key);
      assert forall i :: 1 <= i < |members| ==> members[i] == members[1..][i - 1];
    }
  }

  /** A member whose key does not occur earlier is the one found under that key. */
  lemma {:induction false} LookupAt(members: seq<Member>, i: nat)
    requires i < |members| && members[i].key !in Keys(Object(members))[..i]
    ensures Lookup(members, members[i].key) == Some(members[i].value)
  {
    if i > 0 {
      var keys := Keys(Object(members));
      assert keys[..i] == [keys[0]] + keys[1..i];
      assert Keys(Object(members[1..]))[..i - 1] == keys[1..i];
      LookupAt(members[1..], i - 1);
    }
  }

  /** A key that is not among a body's keys is not found in it. */
  lemma AbsentKey(body: Json, key: string)
    requires key !in Keys(body)
    ensures Field(body, key).None?
  {
    if body.Object? {
      LookupNone(body.members, key);
      forall i | 0 <= i < |body.members|
        ensures body.members[i].key != key
      {
        assert body.members[i].key == Keys(body)[i];
      }
    }
  }

  /** `d.get(key, default)` on a dict. */
  function GetOr(members: seq<Member>, key: string, default: Json): Json {
    match Lookup(members, key)
    case Some(v) => v
    case None => default
  }

  /**
   * `d.get(key, default)` yields the default exactly when no member carries
   * the key, and otherwise the value of the first member that does.
   */
  lemma GetOrFirst(members: seq<Member>, key: string, default: Json)
    ensures (forall i :: 0 <= i < |members| ==> members[i].key != key) ==> GetOr(members, key, default) == default
    ensures forall i :: 0 <= i < |members| && members[i].key == key && key !in Keys(Object(members))[..i] ==>
              GetOr(members, key, default) == members[i].value
  {
    LookupNone(members, key);
    forall i | 0 <= i < |members| && members[i].key == key && key !in Keys(Object(members))[..i]
      ensures GetOr(members, key, default) == members[i].value
    {
      LookupAt(members, i);
    }
  }

  /** `x.get(key, default)` on any value: only a dict has `.get`. */
  function DictGet(j: Json, key: string, default: Json): (r: Result<Json, Fault>)
    ensures r.Err? <==> !j.Object?
    ensures r.Err? ==> r.error == AttributeGet(j)
    ensures j.Object? && Lookup(j.members, key).None? ==> r == Ok(default)
    ensures j.Object? && Lookup(j.members, key).Some? ==> r == Ok(Lookup(j.members, key).value)
  {
    if j.Object? then Ok(GetOr(j.members, key, default)) else Err(AttributeGet(j))
  }

  /** The value stored under `key` in a response body, if the body is a dict holding that key. */
  function Field(body: Json, key: string): Option<Json> {
    if body.Object? then Lookup(body.members, key) else None
  }

  /** The keys of a dict, in insertion order. */
  function Keys(body: Json): seq<string> {
    if body.Object? then seq(|body.members|, i requires 0 <= i < |body.members| => body.members[i].key) else []
  }

  /**
   * `repr(f)` for a float: the shortest digits, in fixed notation when the
   * decimal point falls between 4 places left of the first digit and
   * 16 places right of it, in exponent notation otherwise.
   */
  function FloatRepr(d: Decimal): string {
    CanonicalRepr(Normalize(d))
  }

  /** `repr` of a float given in canonical form. */
  function CanonicalRepr(n: Decimal): string {
    if n.mantissa == 0 then "0.0"
    else Layout(if n.mantissa < 0 then "-" else "", NatRepr(if n.mantissa < 0 then -n.mantissa else n.mantissa), n.exponent)
  }

  /** The float `<sign>0.<digits> * 10^(|digits| + exponent)`, in fixed or exponent notation. */
  function Layout(sign: string, digits: string, exponent: int): string
    requires digits != []
  {
    var point := |digits| + exponent;  // the value is 0.<digits> * 10^point
    if -4 < point <= 16 then FixedNotation(sign, digits, point)
    else ExponentNotation(sign, digits, point - 1)
  }

  /** `<digits>` with the decimal point `point` places from its start, and at least one digit after it. */
  function FixedNotation(sign: string, digits: string, point: int): string {
    if point <= 0 then sign + "0." + Zeros(-point) + digits
    else if point < |digits| then sign + digits[..point] + "." + digits[point..]
    else sign + digits + Zeros(point - |digits|) + ".0"
  }

  /** `d[.ddd]e±XX`: one digit before the point and a signed exponent of at least two digits. */
  function ExponentNotation(sign: string, digits: string, e: int): string
    requires digits != []
  {
    var eDigits := NatRepr(if e < 0 then -e else e);
    sign + digits[..1] + (if |digits| > 1 then "." + digits[1..] else "")
    + "e" + (if e < 0 then "-" else "+") + (if |eDigits| < 2 then "0" + eDigits else eDigits)
  }

  /**
   * `repr` of a whole float in fixed notation is the integer's spelling
   * followed by ".0", as in "1998.0".
   */
  lemma FloatReprOfWhole(n: int)
    requires |NatRepr(if n < 0 then -n else n)| <= 16
    ensures FloatRepr(Decimal(n, 0)) == IntRepr(n) + ".0"
  {
    if n == 0 {
      assert NatRepr(0) == "0";
    } else {
      var a: nat := if n < 0 then -n else n;
      var r := Normalize(Decimal(n, 0));
      var m: nat := if r.mantissa < 0 then -r.mantissa else r.mantissa;
      var k: nat := r.exponent;
      assert m > 0 && m * Pow10(k) == a && (r.mantissa < 0 <==> n < 0) by { NormalizeWhole(n); }
      var digits := NatRepr(m);
      assert NatRepr(a) == digits + Zeros(k) by { NatReprScaled(m, k); }
      var sign := if n < 0 then "-" else "";
      assert CanonicalRepr(r) == Layout(sign, digits, k);
      assert Layout(sign, digits, k) == FixedNotation(sign, digits, |digits| + k) by {
        assert 0 < |digits| + k <= 16;
      }
      assert FixedNotation(sign, digits, |digits| + k) == sign + digits + Zeros(k) + ".0";
      assert IntRepr(n) == sign + (digits + Zeros(k));
      AppendAssociates(sign, digits, Zeros(k));
    }
  }

  /** The canonical form of a nonzero whole number: its significant digits and a count of trailing zeros. */
  lemma NormalizeWhole(n: int)
    requires n != 0
    ensures var r := Normalize(Decimal(n, 0));
            && r.exponent >= 0 && (r.mantissa < 0 <==> n < 0)
            && (if r.mantissa < 0 then -r.mantissa else r.mantissa) * Pow10(r.exponent) == (if n < 0 then -n else n)
  {
    var r := Normalize(Decimal(n, 0));
    SignOfProduct(r.mantissa, Pow10(r.exponent));
  }

  lemma SignOfProduct(x: int, p: int)
    requires p >= 1
    ensures x > 0 ==> x * p > 0
    ensures x < 0 ==> x * p < 0
    ensures (-x) * p == -(x * p)
  {
  }

  /** Appending `k` zeros to the spelling of a positive number multiplies it by `10^k`. */
  lemma {:induction false} NatReprScaled(m: nat, k: nat)
    requires m > 0
    ensures NatRepr(m * Pow10(k)) == NatRepr(m) + Zeros(k)
  {
    if k == 0 {
      assert m * Pow10(k) == m;
    } else {
      var b := m * Pow10(k - 1);
      var front, zeros := NatRepr(m), Zeros(k - 1);
      assert NatRepr(b) == front + zeros by { NatReprScaled(m, k - 1); }
      assert b >= 1 && m * Pow10(k) == b * 10 by { MultiplyPow10(m, k); }
      assert NatRepr(b * 10) == NatRepr(b) + "0" by { NatReprTimesTen(b); }
      assert (front + zeros) + "0" == front + Zeros(k) by {
        assert zeros + "0" == Zeros(k);
        AppendAssociates(front, zeros, "0");
      }
    }
  }

  lemma AppendAssociates(a: string, b: string, c: string)
    ensures (a + b) + c == a + (b + c)
  {
  }

  lemma MultiplyPow10(m: nat, k: nat)
    requires m > 0 && k > 0
    ensures m * Pow10(k) == (m * Pow10(k - 1)) * 10
    ensures m * Pow10(k - 1) >= 1
  {
    var p := Pow10(k - 1);
    assert Pow10(k) == 10 * p;
    assert m * p >= p;
  }

  lemma NatReprTimesTen(b: nat)
    requires b >= 1
    ensures NatRepr(b * 10) == NatRepr(b) + "0"
  {
    assert (b * 10) / 10 == b && (b * 10) % 10 == 0;
    assert [DigitChar(0)] == "0";
  }

  /** `repr(s)` for a string: single quotes unless only double quotes avoid an escape. */
  function QuoteRepr(s: string): string {
    if '\'' in s && '"' !in s then "\"" + s + "\"" else "'" + s + "'"
  }

  /** `repr(x)` */
  function Repr(j: Json): string
    decreases j
  {
    match j
    case Null => "None"
    case Bool(b) => if b then "True" else "False"
    case Int(i) => IntRepr(i)
    case Float(d) => FloatRepr(d)
    case Str(s) => QuoteRepr(s)
    case Array(items) => "[" + ReprItems(items) + "]"
    case Object(members) => "{" + ReprMembers(members) + "}"
  }

  function ReprItems(items: seq<Json>): string
    decreases items
  {
    if items == [] then ""
    else Repr(items[0]) + (if |items| == 1 then "" else ", " + ReprItems(items[1..]))
  }

  function ReprMembers(members: seq<Member>): string
    decreases members
  {
    if members == [] then ""
    else
      QuoteRepr(members[0].key) + ": " + Repr(members[0].value)
      + (if |members| == 1 then "" else ", " + ReprMembers(members[1..]))
  }

  /** `str(x)`: a string is itself, anything else its repr. */
  function PyStr(j: Json): string {
    if j.Str? then j.s else Repr(j)
  }

  /**
   * `str(x)` of the scalars the ids and engine sizes hold: a string is
   * itself, an integer its decimal spelling, None is "None", a whole float
   * in fixed notation ends in ".0".
   */
  lemma PyStrOfScalars(n: int, s: string)
    ensures PyStr(Str(s)) == s
    ensures PyStr(Int(n)) == IntRepr(n)
    ensures PyStr(Null) == "None"
    ensures |NatRepr(if n < 0 then -n else n)| <= 16 ==> PyStr(Float(Decimal(n, 0))) == IntRepr(n) + ".0"
  {
    if |NatRepr(if n < 0 then -n else n)| <= 16 {
      FloatReprOfWhole(n);
    }
  }

  /**
   * `repr` of a string is the string between two equal quotes, single ones
   * unless the text holds a single quote and no double quote.
   */
  lemma ReprQuotesText(s: string)
    ensures var q := Repr(Str(s));
            && |q| == |s| + 2 && q[1..|q| - 1] == s && q[0] == q[|q| - 1]
            && (q[0] == '"' <==> '\'' in s && '"' !in s)
            && (q[0] == '\'' || q[0] == '"')
  {
    var q := Repr(Str(s));
    if '\'' in s && '"' !in s {
      assert q == "\"" + s + "\"";
    } else {
      assert q == "'" + s + "'";
    }
  }

  /** `for x in j`: a list yields its items, a string its characters, a dict its keys. */
  function Iterate(j: Json): (r: Result<seq<Json>, Fault>)
    ensures r.Err? <==> !(j.Array? || j.Str? || j.Object?)
    ensures r.Err? ==> r.error == NotIterable(j)
    ensures j.Array? ==> r == Ok(j.items)
    ensures j.Str? ==> r.Ok? && |r.value| == |j.s| && forall i :: 0 <= i < |j.s| ==> r.value[i] == Str([j.s[i]])
    ensures j.Object? ==> r.Ok? && |r.value| == |j.members|
                          && forall i :: 0 <= i < |j.members| ==> r.value[i] == Str(j.members[i].key)
  {
    match j
    case Array(items) => Ok(items)
    case Str(s) => Ok(seq(|s|, i requires 0 <= i < |s| => Str([s[i]])))
    case Object(members) => Ok(seq(|members|, i requires 0 <= i < |members| => Str(members[i].key)))
    case _ => Err(NotIterable(j))
  }

  /** A name between single quotes, as Python's messages print type names. */
  function Quoted(name: string): string {
    "'" + name + "'"
  }

  /** `str(e)` for each fault. */
  function Message(f: Fault): string {
    match f
    case Upstream(message) => message
    case AttributeGet(v) => Quoted(TypeName(v)) + " object has no attribute 'get'"
    case NotIterable(v) => Quoted(TypeName(v)) + " object is not iterable"
    case FloatRefused(v) =>
      if v.Str? then "could not convert string to float: " + Repr(v)
      else "float() argument must be a string or a real number, not '" + TypeName(v) + "'"
    case IntRefused(v) =>
      if v.Str? then "invalid literal for int() with base 10: " + Repr(v)
      else "int() argument must be a string, a bytes-like object or a real number, not '" + TypeName(v) + "'"
  }
}
