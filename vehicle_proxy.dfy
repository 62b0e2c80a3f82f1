/**
 * The vehicle lookup of the proxy blueprint: normalising one registration
 * record into the fixed response shape (single plate and batch), plus the
 * two list helpers of the backend relays (the drivers filter and the
 * first-match search by id).
 */
module VehicleProxy {
  import opened Wrappers
  import opened PyText
  import opened PyValue
  import opened PyConvert
  import opened Exchange

  const NotFound: string := "Non trouv\U{E9}"

  /**
   * The six keys every vehicle body opens with, in order: all the keys of the
   * "Inconnu", "Non trouvé" and batch "Erreur" shapes, and of the stand-alone
   * application's success shape.
   */
  const OpeningKeys: seq<string> := ["success", "plaque", "marque", "modele", "energie", "co2PerKm"]

  /** The keys of the success shape: the opening keys plus the two optional numbers. */
  const SuccessKeys: seq<string> := OpeningKeys + ["puissance", "cylindree"]

  /** A failure shape: no vehicle, `marque` tells why, no `puissance` or `cylindree` key. */
  predicate IsFailure(body: Json, plaque: Json, marque: string) {
    && Keys(body) == OpeningKeys
    && Field(body, "success") == Some(Bool(false))
    && Field(body, "plaque") == Some(plaque)
    && Field(body, "marque") == Some(Str(marque))
    && Field(body, "modele") == Some(Str(""))
    && Field(body, "energie") == Some(Str("Inconnu"))
    && Field(body, "co2PerKm") == Some(Null)
  }

  /** The single-plate error shape: the "Erreur" failure shape plus the exception text. */
  predicate IsSingleError(body: Json, plaque: Json, fault: Fault) {
    && Keys(body) == OpeningKeys + ["error"]
    && Field(body, "success") == Some(Bool(false))
    && Field(body, "plaque") == Some(plaque)
    && Field(body, "marque") == Some(Str("Erreur"))
    && Field(body, "modele") == Some(Str(""))
    && Field(body, "energie") == Some(Str("Inconnu"))
    && Field(body, "co2PerKm") == Some(Null)
    && Field(body, "error") == Some(Str(Message(fault)))
  }

  /** The success shape: every key present, `puissance` and `cylindree` possibly null. */
  predicate IsFound(body: Json, plaque: Json) {
    && Keys(body) == SuccessKeys
    && Field(body, "success") == Some(Bool(true))
    && Field(body, "plaque") == Some(plaque)
  }

  /** The six members that open every vehicle body are found under their keys. */
  lemma OpeningFields(body: Json)
    requires body.Object? && |body.members| >= 6 && Keys(body)[..6] == OpeningKeys
    ensures Field(body, "success") == Some(body.members[0].value)
    ensures Field(body, "plaque") == Some(body.members[1].value)
    ensures Field(body, "marque") == Some(body.members[2].value)
    ensures Field(body, "modele") == Some(body.members[3].value)
    ensures Field(body, "energie") == Some(body.members[4].value)
    ensures Field(body, "co2PerKm") == Some(body.members[5].value)
  {
    var ms, keys := body.members, Keys(body);
    assert keys[..6] == ["success", "plaque", "marque", "modele", "energie", "co2PerKm"];
    forall i | 0 <= i < 6
      ensures ms[i].key == keys[..6][i] && ms[i].key !in keys[..i]
    {
      assert keys[..i] == keys[..6][..i];
    }
    assert ms[0].key == "success" && ms[1].key == "plaque" && ms[2].key == "marque";
    assert ms[3].key == "modele" && ms[4].key == "energie" && ms[5].key == "co2PerKm";
    LookupAt(ms, 1);
    LookupAt(ms, 2);
    LookupAt(ms, 3);
    LookupAt(ms, 4);
    LookupAt(ms, 5);
  }

  function FailureBody(plaque: Json, marque: string): (body: Json)
    ensures IsFailure(body, plaque, marque)
  {
    var body := Object([Member("success", Bool(false)), Member("plaque", plaque), Member("marque", Str(marque)),
                        Member("modele", Str("")), Member("energie", Str("Inconnu")), Member("co2PerKm", Null)]);
    assert Keys(body) == OpeningKeys;
    OpeningFields(body);
    body
  }

  function SingleErrorBody(plaque: Json, fault: Fault): (body: Json)
    ensures IsSingleError(body, plaque, fault)
  {
    var body := Object([Member("success", Bool(false)), Member("plaque", plaque), Member("marque", Str("Erreur")),
                        Member("modele", Str("")), Member("energie", Str("Inconnu")), Member("co2PerKm", Null),
                        Member("error", Str(Message(fault)))]);
    assert Keys(body) == OpeningKeys + ["error"];
    OpeningFields(body);
    LookupAt(body.members, 6);
    body
  }

  /**
   * `cylindree`: when `ccm` is truthy, every digit of `str(ccm)` read as one
   * integer; null when `ccm` is absent or falsy, or when it has no digit
   * (the `int('')` failure is caught on the spot).
   */
  function Cylinder(vehicle: seq<Member>): (r: Option<int>)
    ensures var raw := GetOr(vehicle, "ccm", Str(""));
            r.Some? <==> Truthy(raw) && KeepDigits(PyStr(raw)) != []
    ensures r.Some? ==> r.value == DigitsValue(KeepDigits(PyStr(GetOr(vehicle, "ccm", Str("")))))
  {
    var raw := GetOr(vehicle, "ccm", Str(""));
    if !Truthy(raw) then None
    else
      var digits := KeepDigits(PyStr(raw));
      IntOfDigits(digits);
      match ToInt(Str(digits))
      case Ok(n) => Some(n)
      case Err(_) => None
  }

  /**
   * `co2PerKm`: `float(co2)` when `co2` is truthy and `str(co2)` is not blank,
   * null otherwise; a value `float` refuses is raised, not caught.
   */
  function Co2(vehicle: seq<Member>): (r: Result<Option<Decimal>, Fault>)
    ensures var raw := GetOr(vehicle, "co2", Str(""));
            r == Ok(None) <==> !Truthy(raw) || AllSpace(PyStr(raw))
    ensures var raw := GetOr(vehicle, "co2", Str(""));
            r.Err? <==> Truthy(raw) && !AllSpace(PyStr(raw)) && ToFloat(raw).Err?
    ensures r.Err? ==> r.error == FloatRefused(GetOr(vehicle, "co2", Str("")))
    ensures r.Ok? && r.value.Some? ==> ToFloat(GetOr(vehicle, "co2", Str(""))) == Ok(r.value.value)
  {
    var raw := GetOr(vehicle, "co2", Str(""));
    if Truthy(raw) && Strip(PyStr(raw)) != [] then
      match ToFloat(raw)
      case Ok(d) => Ok(Some(d))
      case Err(f) => Err(f)
    else Ok(None)
  }

  /**
   * `puissance`: `int(puisFisc)` when `puisFisc` is truthy, null otherwise;
   * a value `int` refuses is raised, not caught.
   */
  function Power(vehicle: seq<Member>): (r: Result<Option<int>, Fault>)
    ensures var raw := GetOr(vehicle, "puisFisc", Null);
            r == Ok(None) <==> !Truthy(raw)
    ensures var raw := GetOr(vehicle, "puisFisc", Null);
            r.Err? <==> Truthy(raw) && ToInt(raw).Err?
    ensures r.Err? ==> r.error == IntRefused(GetOr(vehicle, "puisFisc", Null))
    ensures r.Ok? && r.value.Some? ==> ToInt(GetOr(vehicle, "puisFisc", Null)) == Ok(r.value.value)
  {
    if Truthy(GetOr(vehicle, "puisFisc", Null)) then
      match ToInt(GetOr(vehicle, "puisFisc", Int(0)))
      case Ok(n) => Ok(Some(n))
      case Err(f) => Err(f)
    else Ok(None)
  }

  /** The "3" of "cm3" is a digit too: "1998 cm3" reads as 19983. */
  lemma CylinderKeepsEveryDigit()
    ensures Cylinder([Member("ccm", Str("1998 cm3"))]) == Some(19983)
  {
    var vehicle := [Member("ccm", Str("1998 cm3"))];
    var raw := GetOr(vehicle, "ccm", Str(""));
    assert raw == Str("1998 cm3");
    assert PyStr(raw) == "1998 cm3";
    DigitsOfEngineSize(PyStr(raw));
    ValueOfEngineDigits();
    assert Truthy(raw) && KeepDigits(PyStr(raw)) == "19983";
  }

  lemma DigitsOfEngineSize(text: string)
    requires text == "1998 cm3"
    ensures KeepDigits(text) == "19983"
  {
    var number, unit := text[..4], text[4..];
    assert number + unit == text;
    KeepDigitsAppend(number, unit);
    assert AllDigits(number);
    KeepDigitsOfDigits(number);
    var c, m, three := unit[1..], unit[2..], unit[3..];
    assert three == "3" && KeepDigits(three) == three;
    assert KeepDigits(m) == three by { assert m[1..] == three && !IsDigit(m[0]); }
    assert KeepDigits(c) == three by { assert c[1..] == m && !IsDigit(c[0]); }
    assert KeepDigits(unit) == three by { assert unit[1..] == c && !IsDigit(unit[0]); }
  }


  lemma ValueOfEngineDigits()
    ensures DigitsValue("19983") == 19983
  {
    assert DigitsValue("1") == 1;
    assert DigitsValue("19") == 19 by { assert "19"[..1] == "1"; }
    assert DigitsValue("199") == 199 by { assert "199"[..2] == "19"; }
    assert DigitsValue("1998") == 1998 by { assert "1998"[..3] == "199"; }
    assert DigitsValue("19983") == 19983 by { assert "19983"[..4] == "1998"; }
  }

  /**
   * A whole float `ccm` is printed with a trailing ".0", whose zero is a
   * digit too: 1998.0 reads as 19980.
   */
  lemma CylinderOfWholeFloat(n: nat)
    requires n > 0 && |NatRepr(n)| <= 16
    ensures Cylinder([Member("ccm", Float(Decimal(n, 0)))]) == Some(10 * n)
  {
    var raw := Float(Decimal(n, 0));
    var ds := NatRepr(n);
    assert GetOr([Member("ccm", raw)], "ccm", Str("")) == raw;
    assert PyStr(raw) == ds + ".0" by { PyStrOfScalars(n, ""); }
    assert KeepDigits(ds + ".0") == ds + "0" by {
      KeepDigitsAppend(ds, ".0");
      KeepDigitsOfDigits(ds);
      assert ".0"[1..] == "0";
      assert KeepDigits(".0") == KeepDigits("0") == "0";
    }
    assert DigitsValue(ds + "0") == 10 * n by {
      assert (ds + "0")[..|ds|] == ds;
    }
  }

  /** A present key keeps its value, even a falsy one; the default is used only when the key is absent. */
  lemma FalsyMakeIsKept(plaque: Json)
    ensures VehicleBody(plaque, [Member("marque", Str(""))]).Ok?
    ensures Field(VehicleBody(plaque, [Member("marque", Str(""))]).value, "marque") == Some(Str(""))
    ensures Field(VehicleBody(plaque, []).value, "marque") == Some(Str("Inconnu"))
  {
    assert GetOr([Member("marque", Str(""))], "marque", Str("Inconnu")) == Str("");
  }

  function FloatOrNull(d: Option<Decimal>): Json {
    match d
    case Some(x) => Float(x)
    case None => Null
  }

  function IntOrNull(n: Option<int>): Json {
    match n
    case Some(x) => Int(x)
    case None => Null
  }

  /** The success body built from a record; a conversion that raises aborts it. */
  function VehicleBody(plaque: Json, vehicle: seq<Member>): (r: Result<Json, Fault>)
    ensures r.Ok? <==> Co2(vehicle).Ok? && Power(vehicle).Ok?
    ensures r.Err? ==> r.error == if Co2(vehicle).Err? then Co2(vehicle).error else Power(vehicle).error
    ensures r.Ok? ==> IsFound(r.value, plaque)
    ensures r.Ok? ==> Field(r.value, "marque") == Some(GetOr(vehicle, "marque", Str("Inconnu")))
                      && Field(r.value, "modele") == Some(GetOr(vehicle, "modele", Str("")))
                      && Field(r.value, "energie") == Some(GetOr(vehicle, "energieNGC", Str("Inconnu")))
    ensures r.Ok? ==> Field(r.value, "co2PerKm") == Some(FloatOrNull(Co2(vehicle).value))
                      && Field(r.value, "puissance") == Some(IntOrNull(Power(vehicle).value))
                      && Field(r.value, "cylindree") == Some(IntOrNull(Cylinder(vehicle)))
  {
    var cylindree := Cylinder(vehicle);
    match Co2(vehicle)
    case Err(f) => Err(f)
    case Ok(co2) =>
      match Power(vehicle)
      case Err(f) => Err(f)
      case Ok(puissance) =>
        var body := Object([
          Member("success", Bool(true)),
          Member("plaque", plaque),
          Member("marque", GetOr(vehicle, "marque", Str("Inconnu"))),
          Member("modele", GetOr(vehicle, "modele", Str(""))),
          Member("energie", GetOr(vehicle, "energieNGC", Str("Inconnu"))),
          Member("co2PerKm", FloatOrNull(co2)),
          Member("puissance", IntOrNull(puissance)),
          Member("cylindree", IntOrNull(cylindree))]);
        assert Keys(body) == SuccessKeys;
        OpeningFields(body);
        LookupAt(body.members, 6);
        LookupAt(body.members, 7);
        Ok(body)
  }

  /** `data.get("data")` on the envelope, where the envelope is a dict. */
  function DataOf(envelope: Json): Json
    requires envelope.Object?
  {
    GetOr(envelope.members, "data", Null)
  }

  /** The envelope, or its `data`, is falsy: the plate is not known upstream. */
  predicate Missing(envelope: Json) {
    !Truthy(envelope) || (envelope.Object? && !Truthy(DataOf(envelope)))
  }

  /** The envelope is a non-empty dict whose `data` is a non-empty dict. */
  predicate HasRecord(envelope: Json) {
    envelope.Object? && Truthy(envelope) && Truthy(DataOf(envelope)) && DataOf(envelope).Object?
  }

  /**
   * The body of the `try` block for one plate, from the decoded envelope on:
   * the success or "Non trouvé" body, or the exception that escapes it.
   */
  function Interpret(plaque: Json, envelope: Json): (r: Result<Json, Fault>)
    ensures Missing(envelope) ==> r == Ok(FailureBody(plaque, NotFound))
    ensures HasRecord(envelope) ==> r == VehicleBody(plaque, DataOf(envelope).members)
    ensures !Missing(envelope) && !HasRecord(envelope) ==>
              r == Err(AttributeGet(if envelope.Object? then DataOf(envelope) else envelope))
  {
    if !Truthy(envelope) then Ok(FailureBody(plaque, NotFound))
    else
      match DictGet(envelope, "data", Null)
      case Err(f) => Err(f)
      case Ok(data) =>
        if !Truthy(data) then Ok(FailureBody(plaque, NotFound))
        else
          // the first `.get` on the record raises when it is not a dict
          if !data.Object? then Err(AttributeGet(data))
          else VehicleBody(plaque, data.members)
  }

  /** One plate's lookup and normalisation, or the exception raised on the way. */
  function Attempt(plaque: Json, outcome: Outcome): Result<Json, Fault> {
    match outcome
    case Raised(message) => Err(Upstream(message))
    case Returned(envelope) => Interpret(plaque, envelope)
  }

  /** The lookup found a record and both of its conversions succeed. */
  predicate Found(outcome: Outcome) {
    && outcome.Returned?
    && HasRecord(outcome.json)
    && Co2(DataOf(outcome.json).members).Ok?
    && Power(DataOf(outcome.json).members).Ok?
  }

  /** `not plaque or plaque.strip() == ""` */
  predicate IsBlank(plaque: string) {
    plaque == [] || Strip(plaque) == []
  }

  /** A plate is blank exactly when it is empty or made of whitespace only. */
  lemma BlankMeansAllSpace(plaque: string)
    ensures IsBlank(plaque) <==> AllSpace(plaque)
  {
  }

  /**
   * One plate's attempt yields a body exactly when the envelope arrives and
   * either holds no record or holds one whose conversions succeed; an
   * exception of the call itself is passed on as it is.
   */
  lemma AttemptSucceeds(plaque: Json, outcome: Outcome)
    ensures Attempt(plaque, outcome).Ok? <==> outcome.Returned? && (Missing(outcome.json) || Found(outcome))
    ensures outcome.Raised? ==> Attempt(plaque, outcome) == Err(Upstream(outcome.message))
  {
  }

  /** GET /api/vehicle/<plaque> */
  function GetVehicleData(plaque: string, outcome: Outcome): (r: Reply)
    ensures r.queried == if IsBlank(plaque) then [] else [plaque]
    ensures IsBlank(plaque) ==> r.status == 200 && IsFailure(r.body, Str(""), "Inconnu")
    ensures !IsBlank(plaque) && outcome.Returned? && Missing(outcome.json) ==>
              r.status == 200 && IsFailure(r.body, Str(plaque), NotFound)
    ensures !IsBlank(plaque) && Found(outcome) ==>
              r.status == 200 && IsFound(r.body, Str(plaque))
              && r.body == VehicleBody(Str(plaque), DataOf(outcome.json).members).value
    ensures !IsBlank(plaque) && outcome.Raised? ==>
              r.status == 500 && IsSingleError(r.body, Str(plaque), Upstream(outcome.message))
    ensures !IsBlank(plaque) && !Found(outcome) && !(outcome.Returned? && Missing(outcome.json)) ==>
              r.status == 500 && Attempt(Str(plaque), outcome).Err?
              && IsSingleError(r.body, Str(plaque), Attempt(Str(plaque), outcome).error)
  {
    if IsBlank(plaque) then Reply(FailureBody(Str(""), "Inconnu"), 200, [])
    else
      match Attempt(Str(plaque), outcome)
      case Ok(body) => Reply(body, 200, [plaque])
      case Err(f) => Reply(SingleErrorBody(Str(plaque), f), 500, [plaque])
  }

  /**
   * The `success` flag is true exactly when the envelope holds a record
   * whose conversions both succeed; every other outcome is one of the
   * failure shapes.
   */
  lemma SuccessExactlyWhenFound(plaque: string, outcome: Outcome)
    requires !IsBlank(plaque)
    ensures Field(GetVehicleData(plaque, outcome).body, "success") == Some(Bool(true)) <==> Found(outcome)
    ensures Found(outcome) ==> outcome.json.Object? && Truthy(outcome.json) && Truthy(DataOf(outcome.json))
  {
    if outcome.Returned? && Missing(outcome.json) {
      assert !HasRecord(outcome.json);
    }
  }

  /**
   * A `co2` that is present and not blank but that `float` refuses is not
   * caught where it is parsed: the whole lookup answers the "Erreur" shape
   * with status 500.
   */
  lemma UnparsableCo2IsAnError(plaque: string, outcome: Outcome)
    requires !IsBlank(plaque) && outcome.Returned? && HasRecord(outcome.json)
    requires var raw := GetOr(DataOf(outcome.json).members, "co2", Str(""));
             Truthy(raw) && !AllSpace(PyStr(raw)) && ToFloat(raw).Err?
    ensures var raw := GetOr(DataOf(outcome.json).members, "co2", Str(""));
            var r := GetVehicleData(plaque, outcome);
            r.status == 500 && IsSingleError(r.body, Str(plaque), FloatRefused(raw))
  {
  }

  /** Likewise a truthy `puisFisc` that `int` refuses, once `co2` has been read. */
  lemma UnparsablePowerIsAnError(plaque: string, outcome: Outcome)
    requires !IsBlank(plaque) && outcome.Returned? && HasRecord(outcome.json)
    requires Co2(DataOf(outcome.json).members).Ok?
    requires var raw := GetOr(DataOf(outcome.json).members, "puisFisc", Null);
             Truthy(raw) && ToInt(raw).Err?
    ensures var raw := GetOr(DataOf(outcome.json).members, "puisFisc", Null);
            var r := GetVehicleData(plaque, outcome);
            r.status == 500 && IsSingleError(r.body, Str(plaque), IntRefused(raw))
  {
  }

  // ---------------------------------------------------------------------
  // POST /api/vehicles/batch

  /**
   * One entry of a batch: the same lookup and normalisation as a single
   * plate, except that an exception is caught per item and becomes the
   * "Erreur" failure shape, which carries no `error` text.
   */
  function BatchItem(plaque: Json, outcome: Outcome): Json {
    match Attempt(plaque, outcome)
    case Ok(body) => body
    case Err(_) => FailureBody(plaque, "Erreur")
  }

  /** Each batch entry has one of the three shapes, chosen by the outcome of its lookup. */
  lemma BatchItemShape(plaque: Json, outcome: Outcome)
    ensures outcome.Returned? && Missing(outcome.json) ==> IsFailure(BatchItem(plaque, outcome), plaque, NotFound)
    ensures Found(outcome) ==> IsFound(BatchItem(plaque, outcome), plaque)
    ensures !Found(outcome) && !(outcome.Returned? && Missing(outcome.json)) ==>
              IsFailure(BatchItem(plaque, outcome), plaque, "Erreur")
  {
  }

  /** `data.get('plaques', [])` on the request body, when it is a dict. */
  function PlatesOf(request: Json): Json
    requires request.Object?
  {
    GetOr(request.members, "plaques", Array([]))
  }

  /** The entries of a batch, one per plate, the k-th looked up by the k-th call. */
  function BatchResults(plates: seq<Json>, upstream: nat -> Outcome): seq<Json> {
    MapIndexed(plates, Entry(upstream))
  }

  /** The k-th plate's entry, from the k-th lookup. */
  function Entry(upstream: nat -> Outcome): (nat, Json) -> Json {
    (k: nat, plaque: Json) => BatchItem(plaque, upstream(k))
  }

  /** The plates as the provider receives them: each interpolated with `str`. */
  function Queried(plates: seq<Json>): seq<string> {
    MapIndexed(plates, SentAs)
  }

  /** The text sent for the plate at position `k`: its `str`, whatever the position. */
  function SentAs(k: nat, plaque: Json): string {
    PyStr(plaque)
  }

  /** `f` applied to each element and its position. */
  function MapIndexed<T>(items: seq<Json>, f: (nat, Json) -> T): seq<T> {
    seq(|items|, k requires 0 <= k < |items| => f(k, items[k]))
  }

  /** Mapping one more element appends its image. */
  lemma MapIndexedStep<T>(items: seq<Json>, f: (nat, Json) -> T, i: nat)
    requires i < |items|
    ensures MapIndexed(items[..i + 1], f) == MapIndexed(items[..i], f) + [f(i, items[i])]
  {
    assert items[..i + 1][i] == items[i];
    assert forall k :: 0 <= k < i ==> items[..i + 1][k] == items[..i][k];
  }

  const EmptyList: string := "Liste de plaques vide"

  /**
   * POST /api/vehicles/batch. `upstream(k)` is the outcome of the k-th
   * registration lookup of this request.
   */
  method GetMultipleVehicles(request: Json, upstream: nat -> Outcome) returns (r: Reply)
    ensures !request.Object? ==> r == Reply(ErrorBody(Message(AttributeGet(request))), 500, [])
    ensures request.Object? && !Truthy(PlatesOf(request)) ==> r == Reply(ErrorBody(EmptyList), 400, [])
    ensures request.Object? && Truthy(PlatesOf(request)) && Iterate(PlatesOf(request)).Err? ==>
              r == Reply(ErrorBody(Message(NotIterable(PlatesOf(request)))), 500, [])
    ensures request.Object? && Truthy(PlatesOf(request)) && Iterate(PlatesOf(request)).Ok? ==>
              var plates := Iterate(PlatesOf(request)).value;
              r == Reply(Object([Member("vehicles", Array(BatchResults(plates, upstream)))]), 200, Queried(plates))
  {
    if !request.Object? {
      return Reply(ErrorBody(Message(AttributeGet(request))), 500, []);
    }
    var plaques := GetOr(request.members, "plaques", Array([]));
    if !Truthy(plaques) {
      return Reply(ErrorBody(EmptyList), 400, []);
    }
    var plates: seq<Json>;
    match Iterate(plaques) {
      case Err(f) =>
        return Reply(ErrorBody(Message(f)), 500, []);
      case Ok(items) =>
        plates := items;
    }
    var results, sent := LookUpEach(plates, upstream);
    return Reply(Object([Member("vehicles", Array(results))]), 200, sent);
  }

  /**
   * The loop of the batch: each plate in turn is sent to the provider and
   * its entry appended, an exception being caught for that plate alone.
   */
  method LookUpEach(plates: seq<Json>, upstream: nat -> Outcome) returns (results: seq<Json>, sent: seq<string>)
    ensures results == BatchResults(plates, upstream)
    ensures sent == Queried(plates)
  {
    results, sent := [], [];
    var i := 0;
    while i < |plates|
      invariant 0 <= i <= |plates|
      invariant results == BatchResults(plates[..i], upstream)
      invariant sent == Queried(plates[..i])
    {
      var plaque := plates[i];
      var entry: Json;
      match Attempt(plaque, upstream(i)) {
        case Ok(body) =>
          entry := body;
        case Err(_) =>
          entry := FailureBody(plaque, "Erreur");
      }
      assert entry == Entry(upstream)(i, plaque);
      MapIndexedStep(plates, Entry(upstream), i);
      MapIndexedStep(plates, SentAs, i);
      results := results + [entry];
      sent := sent + [PyStr(plaque)];
      i := i + 1;
    }
    assert plates[..i] == plates;
  }

  /**
   * A batch entry agrees with the single-plate endpoint on the same plate
   * and outcome wherever the single call answers 200: the bodies are equal.
   */
  lemma BatchAgreesWithSingle(plaque: string, outcome: Outcome)
    requires !IsBlank(plaque)
    ensures GetVehicleData(plaque, outcome).status == 200 ==> BatchItem(Str(plaque), outcome) == GetVehicleData(plaque, outcome).body
  {
    var r := GetVehicleData(plaque, outcome);
    var a := Attempt(Str(plaque), outcome);
    if a.Ok? {
      assert r == Reply(a.value, 200, [plaque]);
    } else {
      assert r.status == 500;
    }
  }

  /** A body with exactly the failure keys has no `error` member. */
  lemma NoErrorMember(body: Json)
    requires Keys(body) == OpeningKeys
    ensures Field(body, "error").None?
  {
    assert forall k :: k in OpeningKeys ==> |k| != |"error"|;
    AbsentKey(body, "error");
  }

  /**
   * Where the single endpoint answers 500 with the exception text, the batch
   * entry is the "Erreur" failure shape without any `error` member.
   */
  lemma BatchDropsErrorText(plaque: string, outcome: Outcome)
    requires !IsBlank(plaque)
    ensures GetVehicleData(plaque, outcome).status == 500 ==>
              IsFailure(BatchItem(Str(plaque), outcome), Str(plaque), "Erreur")
              && Field(GetVehicleData(plaque, outcome).body, "error").Some?
              && Field(BatchItem(Str(plaque), outcome), "error").None?
  {
    var r := GetVehicleData(plaque, outcome);
    var item := BatchItem(Str(plaque), outcome);
    var a := Attempt(Str(plaque), outcome);
    if a.Err? {
      assert r == Reply(SingleErrorBody(Str(plaque), a.error), 500, [plaque]);
      assert IsFailure(item, Str(plaque), "Erreur") by {
        assert item == FailureBody(Str(plaque), "Erreur");
      }
      NoErrorMember(item);
    } else {
      assert r.status == 200;
    }
  }



  /**
   * The batch does not pre-check blank plates: an empty plate is looked up
   * like any other and never gets the "Inconnu" shape of the single endpoint.
   */
  lemma BatchBlankPlateIsLookedUp(outcome: Outcome)
    ensures !IsFailure(BatchItem(Str(""), outcome), Str(""), "Inconnu")
    ensures GetVehicleData("", outcome).queried == [] && IsFailure(GetVehicleData("", outcome).body, Str(""), "Inconnu")
  {
    var body := BatchItem(Str(""), outcome);
    assert Field(body, "marque") != Some(Str("Inconnu")) || Field(body, "success") != Some(Bool(false));
  }

  // ---------------------------------------------------------------------
  // GET /api/users/drivers

  /** `u.get('type') == 5` for a dict `u`: an int 5 or a float equal to 5 (`True` is 1, not 5). */
  predicate IsDriver(user: Json) {
    user.Object?
    && var t := GetOr(user.members, "type", Null);
       t == Int(5) || (t.Float? && Normalize(t.d) == Decimal(5, 0))
  }

  /**
   * `type` compares equal to 5 as an int or a float; the string "5", `True`,
   * a missing `type` and a user that is not a dict are no drivers.
   */
  lemma WhoIsADriver()
    ensures IsDriver(Object([Member("type", Int(5))]))
    ensures IsDriver(Object([Member("type", Float(Decimal(50, -1)))]))
    ensures !IsDriver(Object([Member("type", Str("5"))]))
    ensures !IsDriver(Object([Member("type", Bool(true))]))
    ensures !IsDriver(Object([]))
    ensures !IsDriver(Int(5))
  {
    assert Normalize(Decimal(50, -1)) == Decimal(5, 0);
  }

  /** The position of the first element that is not a dict, or the length when all are. */
  function FirstNonDict(items: seq<Json>): (k: nat)
    ensures k <= |items|
    ensures k < |items| ==> !items[k].Object?
    ensures forall j :: 0 <= j < k ==> items[j].Object?
  {
    if items == [] || !items[0].Object? then 0
    else
      var k := FirstNonDict(items[1..]);
      assert forall j :: 1 <= j <= k ==> items[j] == items[1..][j - 1];
      1 + k
  }

  /** The drivers among `users`, in their order. */
  function DriversAmong(users: seq<Json>): seq<Json> {
    if users == [] then []
    else (if IsDriver(users[0]) then [users[0]] else []) + DriversAmong(users[1..])
  }

  /** A user is kept exactly when it is a driver. */
  lemma {:induction false} DriversAmongMembers(users: seq<Json>, u: Json)
    ensures u in DriversAmong(users) <==> u in users && IsDriver(u)
  {
    if users != [] {
      DriversAmongMembers(users[1..], u);
      assert users == [users[0]] + users[1..];
    }
  }

  /** The filter distributes over concatenation, so it keeps the users' order. */
  lemma {:induction false} DriversAppend(a: seq<Json>, b: seq<Json>)
    ensures DriversAmong(a + b) == DriversAmong(a) + DriversAmong(b)
  {
    if a == [] {
      assert a + b == b;
    } else {
      var head := if IsDriver(a[0]) then [a[0]] else [];
      assert (a + b)[0] == a[0] && (a + b)[1..] == a[1..] + b;
      assert DriversAmong(a + b) == head + DriversAmong(a[1..] + b);
      DriversAppend(a[1..], b);
      assert head + (DriversAmong(a[1..]) + DriversAmong(b)) == (head + DriversAmong(a[1..])) + DriversAmong(b);
    }
  }

  /** The filter keeps no more users than it is given. */
  lemma {:induction false} DriversAmongLength(users: seq<Json>)
    ensures |DriversAmong(users)| <= |users|
  {
    if users != [] {
      DriversAmongLength(users[1..]);
    }
  }

  /**
   * `[u for u in users if u.get('type') == 5]`: the drivers, or the
   * AttributeError of the first user that is not a dict.
   */
  function Drivers(users: seq<Json>): (r: Result<seq<Json>, Fault>)
    ensures r.Ok? <==> forall k :: 0 <= k < |users| ==> users[k].Object?
    ensures r.Ok? ==> forall u :: u in r.value <==> u in users && IsDriver(u)
    ensures r.Ok? ==> |r.value| <= |users|
    ensures r.Ok? ==> r.value == DriversAmong(users)
    ensures r.Err? ==> FirstNonDict(users) < |users| && r.error == AttributeGet(users[FirstNonDict(users)])
  {
    var k := FirstNonDict(users);
    if k < |users| then Err(AttributeGet(users[k]))
    else
      DriversAmongLength(users);
      assert forall u :: u in DriversAmong(users) <==> u in users && IsDriver(u) by {
        forall u ensures u in DriversAmong(users) <==> u in users && IsDriver(u) {
          DriversAmongMembers(users, u);
        }
      }
      Ok(DriversAmong(users))
  }

  /** GET /api/users/drivers, given the outcome of the call to the user service. */
  function GetDrivers(outcome: Outcome): (r: Reply)
    ensures r.queried == []
    ensures r.status == 200 <==> outcome.Returned? && Iterate(outcome.json).Ok? && Drivers(Iterate(outcome.json).value).Ok?
    ensures r.status == 200 ==> r.body == Array(Drivers(Iterate(outcome.json).value).value)
    ensures r.status != 200 ==> r.status == 500 && Keys(r.body) == ["error"]
    ensures outcome.Raised? ==> r.body == ErrorBody(outcome.message)
    ensures outcome.Returned? && Iterate(outcome.json).Err? ==> r.body == ErrorBody(Message(NotIterable(outcome.json)))
    ensures outcome.Returned? && Iterate(outcome.json).Ok? && Drivers(Iterate(outcome.json).value).Err? ==>
              r.body == ErrorBody(Message(Drivers(Iterate(outcome.json).value).error))
  {
    match outcome
    case Raised(message) => Reply(ErrorBody(message), 500, [])
    case Returned(users) =>
      match Iterate(users)
      case Err(f) => Reply(ErrorBody(Message(f)), 500, [])
      case Ok(items) =>
        match Drivers(items)
        case Err(f) => Reply(ErrorBody(Message(f)), 500, [])
        case Ok(drivers) => Reply(Array(drivers), 200, [])
  }

  // ---------------------------------------------------------------------
  // GET /api/routes/<id>, /api/orders/<id>, /api/users/<id>

  /** `str(x.get('id')) == str(wanted)`, where `x` is a dict. */
  predicate IdMatches(item: Json, id: string) {
    item.Object? && PyStr(GetOr(item.members, "id", Null)) == id
  }

  /** How a search by id ends: at a match, at the end, or at an element whose `.get` raises. */
  datatype Search = Match(index: nat) | NoMatch | NotADict(index: nat)

  /**
   * `next((x for x in items if str(x.get('id')) == str(id)), None)`: stops
   * at the first match or at the first non-dict met before any match;
   * items after that point are never examined.
   */
  function FirstMatch(items: seq<Json>, id: string): (r: Search)
    ensures r.Match? ==> r.index < |items| && IdMatches(items[r.index], id)
    ensures r.NotADict? ==> r.index < |items| && !items[r.index].Object?
    ensures r.NoMatch? <==> Passed(items, id, |items|)
    ensures !r.NoMatch? ==> Passed(items, id, r.index)
  {
    if items == [] then NoMatch
    else if !items[0].Object? then NotADict(0)
    else if IdMatches(items[0], id) then Match(0)
    else
      var r := FirstMatch(items[1..], id);
      PassedCons(items, id, |items| - 1);
      match r
      case Match(k) =>
        PassedCons(items, id, k);
        assert items[k + 1] == items[1..][k];
        Match(k + 1)
      case NoMatch => NoMatch
      case NotADict(k) =>
        PassedCons(items, id, k);
        assert items[k + 1] == items[1..][k];
        NotADict(k + 1)
  }

  /** The first `n` items are dicts whose id differs from the wanted one. */
  predicate Passed(items: seq<Json>, id: string, n: nat)
    requires n <= |items|
  {
    forall j :: 0 <= j < n ==> items[j].Object? && !IdMatches(items[j], id)
  }

  lemma PassedCons(items: seq<Json>, id: string, n: nat)
    requires 0 < |items| && n < |items|
    ensures Passed(items, id, n + 1) <==> items[0].Object? && !IdMatches(items[0], id) && Passed(items[1..], id, n)
  {
    assert forall j :: 1 <= j < n + 1 ==> items[j] == items[1..][j - 1];
  }


  /** The three collections the proxy searches by id. */
  datatype Collection = Routes | Orders | Users

  function NotFoundMessage(c: Collection): string {
    match c
    case Routes => "Route not found"
    case Orders => "Order not found"
    case Users => "User not found"
  }

  /** GET /api/<collection>/<id>, given the outcome of the call listing the collection. */
  function GetById(c: Collection, outcome: Outcome, id: string): (r: Reply)
    ensures r.queried == []
    ensures r.status == 200 <==>
              outcome.Returned? && Iterate(outcome.json).Ok?
              && var items := Iterate(outcome.json).value;
                 FirstMatch(items, id).Match? && Truthy(items[FirstMatch(items, id).index])
    ensures r.status == 200 ==> IdMatches(r.body, id) && Truthy(r.body)
                                && r.body == Iterate(outcome.json).value[FirstMatch(Iterate(outcome.json).value, id).index]
    ensures r.status == 404 <==>
              outcome.Returned? && Iterate(outcome.json).Ok? && !FirstMatch(Iterate(outcome.json).value, id).NotADict?
              && r.status != 200
    ensures r.status == 404 ==> r.body == ErrorBody(NotFoundMessage(c))
    ensures r.status in {200, 404, 500}
    ensures outcome.Raised? ==> r == Reply(ErrorBody(outcome.message), 500, [])
    ensures outcome.Returned? && Iterate(outcome.json).Err? ==>
              r == Reply(ErrorBody(Message(NotIterable(outcome.json))), 500, [])
    ensures outcome.Returned? && Iterate(outcome.json).Ok? && FirstMatch(Iterate(outcome.json).value, id).NotADict? ==>
              var items := Iterate(outcome.json).value;
              r == Reply(ErrorBody(Message(AttributeGet(items[FirstMatch(items, id).index]))), 500, [])
  {
    match outcome
    case Raised(message) => Reply(ErrorBody(message), 500, [])
    case Returned(listing) =>
      match Iterate(listing)
      case Err(f) => Reply(ErrorBody(Message(f)), 500, [])
      case Ok(items) =>
        match FirstMatch(items, id)
        case NotADict(k) => Reply(ErrorBody(Message(AttributeGet(items[k]))), 500, [])
        case NoMatch => Reply(ErrorBody(NotFoundMessage(c)), 404, [])
        case Match(k) =>
          if Truthy(items[k]) then Reply(items[k], 200, []) else Reply(ErrorBody(NotFoundMessage(c)), 404, [])
  }

  /** With several items carrying the wanted id, the earliest one is returned and a later, different one never is. */
  lemma FirstOfDuplicates(c: Collection, items: seq<Json>, id: string, i: nat, j: nat)
    requires i < j < |items| && IdMatches(items[i], id) && IdMatches(items[j], id) && Truthy(items[i])
    requires forall k :: 0 <= k < i ==> items[k].Object? && !IdMatches(items[k], id)
    ensures GetById(c, Returned(Array(items)), id) == Reply(items[i], 200, [])
    ensures items[j] != items[i] ==> GetById(c, Returned(Array(items)), id).body != items[j]
  {
    FirstMatchAt(items, id, i);
    assert Iterate(Array(items)) == Ok(items);
  }

  /** A search stops at a matching dict once every earlier item has been passed over. */
  lemma FirstMatchAt(items: seq<Json>, id: string, i: nat)
    requires i < |items| && IdMatches(items[i], id) && Passed(items, id, i)
    ensures FirstMatch(items, id) == Match(i)
  {
  }
}
