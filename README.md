# Vehicle lookup proxy, modelled in Dafny

This project models the vehicle lookup of a small Flask API proxy for a
fleet-management front end:

- The proxy blueprint's `GET /api/vehicle/<plaque>` asks a French
  registration-plate provider about one plate. It normalises the record into
  a fixed response shape: make, model, energy, CO2 per km, fiscal power and
  engine size. There are three failure shapes:
  - "Inconnu" for a blank plate;
  - "Non trouvé" when the provider has no data;
  - "Erreur" when an exception escapes.
- `POST /api/vehicles/batch` does the same for a list of plates. It catches
  exceptions per plate, keeps the input order, and answers 400 on an empty list.
- Two list helpers of the backend relays:
  - the drivers filter (users whose `type` equals 5);
  - the first-match search by id used for routes, orders and users.
- The stand-alone application's variant of `GET /api/vehicle/<plaque>`. It
  passes `co2` through unparsed and has thinner failure shapes.

The Python values involved are the `Json` datatype of `PyValue`:
- dicts are ordered member lists;
- floats are exact decimals;
- Python's truthiness, `.get`, iteration, `str()` and `repr()` are written
  out for them.

`int()` and `float()` on those values are in `PyConvert`. `str.strip()`,
`str.isdigit` filtering and decimal spelling are in `PyText`. The network is
an input:
- `Exchange.Outcome` is either the exception raised by the outbound call or
  the decoded JSON body;
- the batch receives `upstream(k)`, the outcome of its k-th call;
- each `Exchange.Reply` records the plates sent to the provider, so "no
  lookup" and "exactly one lookup" can be stated.

Modules:
- `Wrappers` (`wrappers.dfy`);
- `PyText` (`pytext.dfy`);
- `PyValue` (`pyvalue.dfy`);
- `PyConvert` (`pyconvert.dfy`);
- `Exchange` (`exchange.dfy`);
- `VehicleProxy` (`vehicle_proxy.dfy`), for `vehicle_proxy.py`;
- `MainApp` (`main_app.dfy`), for `main.py`.

Points where the code is followed rather than the intent one might read
into it:
- `ccm` keeps every digit of `str(ccm)`, so "1998 cm3" gives 19983, and a
  whole float 1998.0 gives 19980.
- A non-blank `co2` that `float` refuses, or a truthy `puisFisc` that `int`
  refuses, is not caught where it is parsed. The single endpoint then answers
  the "Erreur" shape with status 500. The batch answers an "Erreur" entry
  with no `error` text.
- The batch does not check for blank plates. An empty plate is sent to the
  provider like any other.
- A matching but falsy item in the id search (an empty dict when the
  requested id is "None") answers 404, because the handler tests the match
  for truthiness.

## Model

| member | source | states |
|---|---|---|
| PyText.Strip | vehicle_proxy.py:45 | `plaque.strip()`: empty exactly when the text is all whitespace; otherwise neither end is whitespace; it is the original slice with only whitespace cut from either end |
| PyText.KeepDigits | vehicle_proxy.py:71 | `''.join(filter(str.isdigit, s))` yields only digits and is no longer than its input |
| PyText.KeepDigitsAppend | vehicle_proxy.py:71 | the digit filter distributes over concatenation, so digits keep their order |
| PyText.KeepDigitsMembers | vehicle_proxy.py:71 | a character survives the filter exactly when it is a digit of the input |
| PyText.KeepDigitsOfDigits | vehicle_proxy.py:71 | an all-digit string passes the filter unchanged |
| PyText.NatRepr | vehicle_proxy.py:71 | `str(n)` is a non-empty digit string without leading zero whose value is `n` |
| PyText.NatReprOfDigits | vehicle_proxy.py:71 | conversely, a digit string without leading zero is `str(int(ds))` |
| PyText.FindEither | vehicle_proxy.py:77 | first position of either character, or the length when neither occurs |
| PyValue.Normalize | vehicle_proxy.py:77 | canonical form of a decimal, the same number (mantissa times a power of ten gives the original) |
| PyValue.LookupNone | vehicle_proxy.py:82-84 | `d.get(key)` finds nothing exactly when no member has the key |
| PyValue.LookupAt | vehicle_proxy.py:82-84 | `d.get(key)` returns the value of the first member carrying the key |
| PyValue.FalsyValues | vehicle_proxy.py:63 | a value is falsy exactly when it is None, False, zero, or an empty string, list or dict |
| PyValue.GetOrFirst | vehicle_proxy.py:64-86 | `d.get(key, default)` is the default when no member has the key, and otherwise the value of the first member that has it |
| PyValue.DictGet | vehicle_proxy.py:63 | `.get` raises the AttributeError exactly on a value that is not a dict, yields the default on a dict without the key, and on a dict with it the value of the first member carrying it |
| PyValue.PyStrOfScalars | vehicle_proxy.py:206 | `str` of a string is itself, of an int its decimal spelling, of None "None", of a whole float in fixed notation the spelling followed by ".0" |
| PyValue.FloatReprOfWhole | vehicle_proxy.py:71 | `repr` of a whole float whose digits fit the fixed notation is the integer's spelling followed by ".0" |
| PyValue.NatReprScaled | vehicle_proxy.py:71 | the spelling of `m * 10^k` is that of `m` followed by `k` zeros |
| PyValue.ReprQuotesText | vehicle_proxy.py:77 | `repr` of a string is the string between two equal quotes, double ones exactly when the text holds a single quote and no double quote |
| PyValue.Iterate | vehicle_proxy.py:122 | `for x in v`: a list yields its items, a string its characters, a dict its keys; anything else raises "not iterable" |
| PyConvert.Truncate | vehicle_proxy.py:86 | `int(f)` rounds toward zero: exact for whole numbers, otherwise the largest magnitude not above the float's, with its sign |
| PyConvert.ToInt | vehicle_proxy.py:86 | `int(x)` fails exactly on None, lists, dicts and strings that are not a signed digit run after stripping; ints and bools convert to themselves / 0, 1, and floats to their truncation toward zero |
| PyConvert.UnsignedDecimal | vehicle_proxy.py:77 | a plain digit run reads as its own value with exponent 0 |
| PyConvert.FloatLiteral | vehicle_proxy.py:77 | an accepted literal yields a canonical decimal and is not blank |
| PyConvert.ToFloat | vehicle_proxy.py:77 | `float(x)` fails exactly on None, lists, dicts and strings outside the literal grammar, with `FloatRefused`; an int or a float converts to its canonical decimal, a bool to 0 or 1, and an accepted string to the literal it spells |
| PyConvert.IntOfDigits | vehicle_proxy.py:71 | `int(ds)` of a digit run is its value; of the empty string it raises |
| PyConvert.IntRoundTrip | vehicle_proxy.py:71 | `int(str(n)) == n` for every integer |
| PyConvert.FloatOfIntString | vehicle_proxy.py:77 | `float(str(n)) == float(n)` for every integer |
| PyConvert.FloatOfPlainNumber | vehicle_proxy.py:77 | `float("120")` is 120.0 |
| PyConvert.FloatRefusesText | vehicle_proxy.py:77 | `float("N/A")` raises |
| PyConvert.NotAFloat | vehicle_proxy.py:77 | `float(s)` raises for any text with no space at either end whose first character is neither a sign, a digit nor a point |
| PyConvert.NotADecimal | vehicle_proxy.py:77 | an unsigned literal can start only with a digit or a point; any other first character, an exponent mark included, is refused |
| VehicleProxy.OpeningFields | vehicle_proxy.py:90-97 | each of the six opening keys of a response body is found with its own value |
| VehicleProxy.FailureBody | vehicle_proxy.py:90-97 | failure shape: exactly the keys success, plaque, marque, modele, energie, co2PerKm with false, the plate, the reason, "", "Inconnu", null |
| VehicleProxy.SingleErrorBody | vehicle_proxy.py:99-109 | the "Erreur" shape followed by an `error` key holding `str(e)` |
| VehicleProxy.Cylinder | vehicle_proxy.py:67-73 | present exactly when `ccm` is truthy and `str(ccm)` has a digit; then the value of all its digits in order |
| VehicleProxy.Co2 | vehicle_proxy.py:76-77 | null exactly when `co2` is absent, falsy or blank; otherwise `float(co2)`, whose refusal is raised as `FloatRefused(co2)` |
| VehicleProxy.Power | vehicle_proxy.py:86 | null exactly when `puisFisc` is absent or falsy; otherwise `int(puisFisc)`, whose refusal is raised |
| VehicleProxy.CylinderKeepsEveryDigit | vehicle_proxy.py:71 | a `ccm` of "1998 cm3" gives 19983 |
| VehicleProxy.CylinderOfWholeFloat | vehicle_proxy.py:67-73 | a positive whole float `ccm` with at most 16 digits gives ten times its value, as 1998.0 gives 19980, because the zero of ".0" is kept |
| VehicleProxy.FalsyMakeIsKept | vehicle_proxy.py:82 | a present but empty `marque` stays empty; "Inconnu" appears only when the key is absent |
| VehicleProxy.VehicleBody | vehicle_proxy.py:66-88 | success shape with all eight keys; make, model and energy from `marque`/`modele`/`energieNGC` or their defaults; the parsed numbers, null where absent; a co2 error wins over a power error |
| VehicleProxy.Interpret | vehicle_proxy.py:61-97 | falsy envelope or `data` gives "Non trouvé"; a dict record gives the success body; a truthy non-dict envelope or record raises the `.get` AttributeError |
| VehicleProxy.BlankMeansAllSpace | vehicle_proxy.py:45 | a plate is blank exactly when it is empty or all whitespace |
| VehicleProxy.AttemptSucceeds | vehicle_proxy.py:55-109 | one plate's attempt yields a body exactly when the envelope arrives and holds no record or a record whose conversions succeed; the call's own exception is passed on unchanged |
| VehicleProxy.GetVehicleData | vehicle_proxy.py:42-109 | blank plate: "Inconnu" shape, 200, no lookup; otherwise one lookup, 200 with "Non trouvé" or the success body built from the record by `VehicleBody`, or 500 with the "Erreur" shape carrying the exception text |
| VehicleProxy.SuccessExactlyWhenFound | vehicle_proxy.py:63-88 | for a non-blank plate, `success` is true exactly when the envelope and its `data` are truthy, `data` is a dict and both conversions succeed |
| VehicleProxy.UnparsableCo2IsAnError | vehicle_proxy.py:76-109 | an unparsable non-blank `co2` answers 500 with the "Erreur" shape |
| VehicleProxy.UnparsablePowerIsAnError | vehicle_proxy.py:86-109 | an unparsable truthy `puisFisc` answers 500 with the "Erreur" shape |
| VehicleProxy.BatchItemShape | vehicle_proxy.py:123-172 | one batch entry: "Non trouvé" when the envelope or its `data` is falsy, the success shape when the record converts, and otherwise the "Erreur" shape |
| VehicleProxy.MapIndexedStep | vehicle_proxy.py:121-172 | the entries for the first k+1 plates are those for the first k followed by the k-th plate's entry, so appending in the loop keeps the input order |
| VehicleProxy.LookUpEach | vehicle_proxy.py:121-172 | the loop builds exactly the ordered entries and sends exactly the plates, one per input |
| VehicleProxy.GetMultipleVehicles | vehicle_proxy.py:111-177 | non-dict request: 500 with the error; missing or falsy `plaques`: 400 "Liste de plaques vide"; non-iterable: 500; otherwise 200 `{"vehicles": entries}` with one lookup per plate |
| VehicleProxy.BatchAgreesWithSingle | vehicle_proxy.py:122-172 | where the single endpoint answers 200 for a non-blank plate, the batch entry for that plate and outcome is the same body |
| VehicleProxy.BatchDropsErrorText | vehicle_proxy.py:163-172 | where the single endpoint answers 500 with an `error` text, the batch entry is the "Erreur" shape with no `error` member |
| VehicleProxy.BatchBlankPlateIsLookedUp | vehicle_proxy.py:122-125 | an empty plate in a batch never gets the "Inconnu" shape the single endpoint gives it without a lookup |
| VehicleProxy.WhoIsADriver | vehicle_proxy.py:280 | an int 5 or a float equal to 5 makes a driver; the string "5", `True`, a missing `type` and a non-dict user do not |
| VehicleProxy.FirstNonDict | vehicle_proxy.py:280 | the position of the first user that is not a dict, every user before it being a dict, or the length when all are dicts |
| VehicleProxy.DriversAmongMembers | vehicle_proxy.py:280 | a user is in the filtered list exactly when it is among the users and its `type` equals 5 |
| VehicleProxy.DriversAmongLength | vehicle_proxy.py:280 | the filter keeps no more users than it is given |
| VehicleProxy.Drivers | vehicle_proxy.py:280 | when every user is a dict, the result is exactly the ordered filtered list `DriversAmong`: the users whose `type` equals 5, no others, repeats kept, no longer than the input; otherwise it fails with the `.get` error of the first user that is not a dict |
| VehicleProxy.DriversAppend | vehicle_proxy.py:280 | the driver filter distributes over concatenation, so it keeps the users' order |
| VehicleProxy.GetDrivers | vehicle_proxy.py:271-286 | 200 with the drivers exactly when the user list is fetched, iterable and all dicts; otherwise 500 `{"error": str(e)}` with the text of the call's exception, of the iteration error or of the first non-dict's `.get` error |
| VehicleProxy.FirstMatch | vehicle_proxy.py:206 | the first item whose `str(id)` equals the requested id, none when no item matches, or the error of the first non-dict before any match |
| VehicleProxy.GetById | vehicle_proxy.py:197-214 | 200 with the first matching item exactly when it exists and is truthy; 404 with "Route/Order/User not found" when the search completes otherwise; 500 with `{"error": str(e)}` for the failed call, a listing that is not iterable, or a non-dict met before any match |
| VehicleProxy.FirstMatchAt | vehicle_proxy.py:206-208 | the search answers position `i` when the item there is a dict with the wanted id and every earlier item is a dict with another id |
| VehicleProxy.FirstOfDuplicates | vehicle_proxy.py:206-209 | when several items carry the id, the earliest one is answered and a later, different one never is |
| MainApp.NotFoundBody | main.py:59 | exactly `{"success": false, "plaque": plaque}` |
| MainApp.FoundBody | main.py:51-58 | the six keys, success true, the plate, defaults for make/model/energy, `co2` as received (null if absent) |
| MainApp.GetVehicleData | main.py:43-61 | exactly one lookup, even for a blank plate; falsy envelope or `data`: not found, 200; dict record: found, 200; any exception: `{"error": str(e)}`, 500 |
| MainApp.ErrorHasOnlyMessage | main.py:60-61 | an error reply holds only the `error` key |
| MainApp.VariantsAgree | main.py:49-58 | on a record where the proxy's conversions succeed, both variants report success with the same make, model and energy |
| MainApp.NoEngineSize | main.py:51-58 | the found body of this variant has no `cylindree` and no `puissance` member |

## Left out

- HTTP transport: the URLs and token, timeouts, TLS verification, `urllib3`
  warnings. Each outbound call is an `Outcome` input. Its exception text is
  taken as given.
- Flask plumbing: routing, CORS, the blueprint wiring in app.py, `jsonify`
  (NaN and infinity cannot occur in the model), and the `print` logging. If
  `request.get_json()` itself raises, the handler answers 500. That case is
  not modelled: the request body is a `Json` input.
- The pure relays `health_check`/`health`, `get_routes`, `get_orders` and
  `get_users` pass the upstream body and status through verbatim, so there
  is nothing to state about them.
- The `ask` endpoint of main.py: it runs the `ollama` CLI as a subprocess.
  server.py is not part of this model, for the same reason.
- PyConvert.ToFloat: keeps the literal's exact decimal value. It does not
  round to binary64, and does not accept `inf`, `nan`, underscores or
  non-ASCII decimal digits (Python reads `float("١٢٠")` as 120.0; the model
  refuses it).
- PyValue.FloatRepr: prints the exact decimal the model holds. Python prints
  the shortest digits that round to the same binary64 value, so a `ccm` or an
  `id` of 1998.00000000000001 gives "1998.0" in Python and the full literal in
  the model. Whole floats above 2^53 are rounded the same way: a `ccm` of
  9007199254740993.0 is read by Python as 9007199254740992.0, so `cylindree`
  is 90071992547409920 there and 90071992547409930 in the model. The two
  agree on every float whose decimal is its own shortest binary64 spelling,
  whole floats of magnitude up to 2^53 (9007199254740992) included.
- VehicleProxy.IsDriver: compares the exact decimal of a float `type` with 5.
  Python compares the binary64 value, so a `type` of 5.00000000000000001
  makes a driver in Python and not in the model.
- PyConvert.ToInt: reads ASCII digits only. It leaves out underscores,
  non-ASCII decimal digits and the 4300-digit limit.
- PyText.KeepDigits: keeps ASCII digits only. Python's `str.isdigit` also
  accepts other characters. Some, such as "³", are no decimal digits: they
  make the following `int()` fail, and `cylindree` is then null. The decimal
  digits of other scripts (Unicode category Nd) pass both `isdigit` and
  `int()`, so Python keeps them where the model drops them: a `ccm` of
  "١٩٩٨ cm3" gives 19983 in Python and 3 in the model.
- PyValue.QuoteRepr: chooses the quote character but does not escape
  backslashes or control characters. Error texts that quote a string
  (`float()`/`int()` refusals) are therefore exact only for plain strings.
- PyValue.Message: reproduces the texts of the exceptions the core raises
  itself. Upstream exceptions keep the message they came with.
- Python dicts cannot hold a key twice, and the model's member lists can.
  Lookups take the first member, which agrees with Python on every dict it
  can produce.
