/**
 * The stand-alone application's vehicle lookup: the same registration
 * provider and the same success test as the proxy blueprint, but `co2` is
 * passed through as received, no number is parsed, and the failure shapes
 * are much thinner.
 */
module MainApp {
  import opened Wrappers
  import opened PyValue
  import opened Exchange
  import VehicleProxy

  /** The not-found shape: `{"success": false, "plaque": plaque}` and nothing else. */
  predicate IsNotFound(body: Json, plaque: string) {
    && Keys(body) == ["success", "plaque"]
    && Field(body, "success") == Some(Bool(false))
    && Field(body, "plaque") == Some(Str(plaque))
  }

  /** The success shape: the record's fields with their defaults, `co2` untouched. */
  predicate IsFound(body: Json, plaque: string, vehicle: seq<Member>) {
    && Keys(body) == VehicleProxy.OpeningKeys
    && Field(body, "success") == Some(Bool(true))
    && Field(body, "plaque") == Some(Str(plaque))
    && Field(body, "marque") == Some(GetOr(vehicle, "marque", Str("Inconnu")))
    && Field(body, "modele") == Some(GetOr(vehicle, "modele", Str("")))
    && Field(body, "energie") == Some(GetOr(vehicle, "energieNGC", Str("Inconnu")))
    && Field(body, "co2PerKm") == Some(GetOr(vehicle, "co2", Null))
  }

  function NotFoundBody(plaque: string): (body: Json)
    ensures IsNotFound(body, plaque)
  {
    var body := Object([Member("success", Bool(false)), Member("plaque", Str(plaque))]);
    assert Keys(body) == ["success", "plaque"];
    LookupAt(body.members, 1);
    body
  }

  function FoundBody(plaque: string, vehicle: seq<Member>): (body: Json)
    ensures IsFound(body, plaque, vehicle)
  {
    var body := Object([
      Member("success", Bool(true)),
      Member("plaque", Str(plaque)),
      Member("marque", GetOr(vehicle, "marque", Str("Inconnu"))),
      Member("modele", GetOr(vehicle, "modele", Str(""))),
      Member("energie", GetOr(vehicle, "energieNGC", Str("Inconnu"))),
      Member("co2PerKm", GetOr(vehicle, "co2", Null))]);
    assert Keys(body) == VehicleProxy.OpeningKeys;
    VehicleProxy.OpeningFields(body);
    body
  }

  /**
   * GET /api/vehicle/<plaque>. Every call, blank plate included, performs
   * exactly one lookup; every exception answers `{"error": str(e)}` with 500.
   */
  function GetVehicleData(plaque: string, outcome: Outcome): (r: Reply)
    ensures r.queried == [plaque]
    ensures r.status == 200 || r.status == 500
    ensures outcome.Raised? ==> r == Reply(ErrorBody(outcome.message), 500, [plaque])
    ensures outcome.Returned? && VehicleProxy.Missing(outcome.json) ==>
              r.status == 200 && IsNotFound(r.body, plaque)
    ensures outcome.Returned? && VehicleProxy.HasRecord(outcome.json) ==>
              r.status == 200 && IsFound(r.body, plaque, VehicleProxy.DataOf(outcome.json).members)
    ensures outcome.Returned? && !VehicleProxy.Missing(outcome.json) && !VehicleProxy.HasRecord(outcome.json) ==>
              var j := outcome.json;
              r.status == 500
              && r.body == ErrorBody(Message(AttributeGet(if j.Object? then VehicleProxy.DataOf(j) else j)))
  {
    match outcome
    case Raised(message) => Reply(ErrorBody(message), 500, [plaque])
    case Returned(data) =>
      if !Truthy(data) then Reply(NotFoundBody(plaque), 200, [plaque])
      else
        match DictGet(data, "data", Null)
        case Err(f) => Reply(ErrorBody(Message(f)), 500, [plaque])
        case Ok(v) =>
          if !Truthy(v) then Reply(NotFoundBody(plaque), 200, [plaque])
          else if !v.Object? then Reply(ErrorBody(Message(AttributeGet(v))), 500, [plaque])
          else Reply(FoundBody(plaque, v.members), 200, [plaque])
  }

  /** An exception leaves only its message: no `success`, `plaque` or `marque`. */
  lemma ErrorHasOnlyMessage(plaque: string, outcome: Outcome)
    ensures GetVehicleData(plaque, outcome).status == 500 ==>
              Keys(GetVehicleData(plaque, outcome).body) == ["error"]
              && Field(GetVehicleData(plaque, outcome).body, "success").None?
  {
    var r := GetVehicleData(plaque, outcome);
    if r.status == 500 {
      assert Keys(r.body) == ["error"];
      assert |"success"| != |"error"|;
      AbsentKey(r.body, "success");
    }
  }

  /**
   * On the same record, the two variants agree on success, make, model and
   * energy wherever the proxy's conversions succeed.
   */
  lemma VariantsAgree(plaque: string, vehicle: seq<Member>)
    requires VehicleProxy.VehicleBody(Str(plaque), vehicle).Ok?
    ensures var mine := FoundBody(plaque, vehicle);
            var proxy := VehicleProxy.VehicleBody(Str(plaque), vehicle).value;
            && Field(mine, "success") == Field(proxy, "success") == Some(Bool(true))
            && Field(mine, "marque") == Field(proxy, "marque")
            && Field(mine, "modele") == Field(proxy, "modele")
            && Field(mine, "energie") == Field(proxy, "energie")
  {
    var mine := FoundBody(plaque, vehicle);
    var proxy := VehicleProxy.VehicleBody(Str(plaque), vehicle).value;
    assert IsFound(mine, plaque, vehicle);
    assert VehicleProxy.IsFound(proxy, Str(plaque));
  }

  /** This variant never reports an engine size, and never a power either. */
  lemma NoEngineSize(plaque: string, vehicle: seq<Member>)
    ensures Field(FoundBody(plaque, vehicle), "cylindree").None?
    ensures Field(FoundBody(plaque, vehicle), "puissance").None?
  {
    var mine := FoundBody(plaque, vehicle);
    assert forall k :: k in VehicleProxy.OpeningKeys ==> |k| != |"cylindree"|;
    AbsentKey(mine, "cylindree");
    assert forall k :: k in VehicleProxy.OpeningKeys ==> |k| != |"puissance"|;
    AbsentKey(mine, "puissance");
  }
}
