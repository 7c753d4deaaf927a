/**
 * The typed operations of takeawayapi.go: the positional parameters each
 * one signs and posts, and the timestamps it parses after a successful
 * call. The response records keep only the fields the operations touch
 * plus a few plain ones; how a record is decoded from JSON is the
 * `decode` parameter.
 */
module Operations {
  import opened Results
  import opened Json
  import opened Signing
  import opened TakeAwayTime
  import Decimal
  import Countries
  import Products
  import TakeAwayClient
  import Transport

  datatype CurrentTimeResponse = CurrentTimeResponse(currentTimeStr: string, currentTime: DateTime, rs: int, wd: string)

  datatype RestaurantsResponse = RestaurantsResponse(
    cityName: string, postCode: string, restaurantIds: seq<string>,
    currentTimeStr: string, currentTime: DateTime, unx: int, wd: string)

  /** One opening window (the element type of Times.Times). */
  datatype TimeSlot = TimeSlot(startStr: string, start: DateTime, endStr: string, end: DateTime)

  /** ServiceTimes: `td` and `tm` stand for Td.Times and Tm.Times. */
  datatype ServiceTimes = ServiceTimes(currentTimeStr: string, currentTime: DateTime, td: seq<TimeSlot>, tm: seq<TimeSlot>)

  /** RestaurantData; `menu` holds the products of each menu category. */
  datatype RestaurantData = RestaurantData(
    name: string, restaurantId: string, deliveryTimes: ServiceTimes, pickupTimes: ServiceTimes,
    menu: seq<seq<Products.Product>>, currentTimeStr: string, currentTime: DateTime, wd: string)

  datatype OpError =
    /** "error sending <function> request: ..." */
    | SendFailed(name: string, callError: Transport.CallError)
    /** "error parsing <what> time: ..." */
    | TimeParseFailed(what: string, timeError: TimeError)

  // ---- positional parameters ----

  function CurrentTimeParams(cc: Countries.CountryCode, restaurantId: string, orderingMode: int): seq<Param> {
    [Number(cc), Text(restaurantId), Number(orderingMode)]
  }

  function RestaurantsParams(postalCode: string, cc: Countries.CountryCode, latitude: string, longitude: string, language: string): seq<Param> {
    [Text(postalCode), Number(cc), Text(latitude), Text(longitude), Text(language)]
  }

  /** The country code goes second, although the Go signatures take the postcode first. */
  function RestaurantDataParams(restaurantId: string, postcode: string, cc: Countries.CountryCode,
                                latitude: string, longitude: string, clientId: string): seq<Param> {
    [Text(restaurantId), Number(cc), Text(postcode), Text(latitude), Text(longitude), Text(clientId)]
  }

  function ReviewsParams(restaurantId: string, page: int): seq<Param> {
    [Text(restaurantId), Number(page)]
  }

  // ---- time post-processing ----

  /** The slots carry the parse of their own strings and are otherwise the slots they came from. */
  predicate ParsedFrom(raw: seq<TimeSlot>, parsed: seq<TimeSlot>) {
    |parsed| == |raw|
    && forall i :: 0 <= i < |raw| ==>
         parsed[i].startStr == raw[i].startStr && parsed[i].endStr == raw[i].endStr
         && ParseTime(raw[i].startStr) == Ok(parsed[i].start)
         && ParseTime(raw[i].endStr) == Ok(parsed[i].end)
  }

  predicate SlotParses(s: TimeSlot) {
    ParseTime(s.startStr).Ok? && ParseTime(s.endStr).Ok?
  }

  /** The error a slot that does not parse produces: its start is tried before its end. */
  function SlotError(s: TimeSlot): OpError {
    match ParseTime(s.startStr)
    case Err(e) => TimeParseFailed("delivery StartTimeStr", e)
    case Ok(_) =>
      match ParseTime(s.endStr)
      case Err(e) => TimeParseFailed("delivery EndTime", e)
      case Ok(_) => TimeParseFailed("delivery EndTime", BadSyntax)
  }

  /** The loop over Times in getRestaurantData: parse each slot's start and end, stop at the first failure. */
  function ParseSlots(slots: seq<TimeSlot>): (r: Result<seq<TimeSlot>, OpError>)
    ensures r.Ok? <==> forall i :: 0 <= i < |slots| ==> SlotParses(slots[i])
    ensures r.Ok? ==> ParsedFrom(slots, r.value)
    ensures r.Err? ==> exists i :: 0 <= i < |slots| && !SlotParses(slots[i])
                        && (forall j :: 0 <= j < i ==> SlotParses(slots[j]))
                        && r.error == SlotError(slots[i])
  {
    if |slots| == 0 then Ok([])
    else
      var s := slots[0];
      match ParseTime(s.startStr)
      case Err(e) => Err(TimeParseFailed("delivery StartTimeStr", e))
      case Ok(start) =>
        match ParseTime(s.endStr)
        case Err(e) => Err(TimeParseFailed("delivery EndTime", e))
        case Ok(end) =>
          match ParseSlots(slots[1..])
          case Err(e) =>
            assert forall i :: 1 <= i < |slots| ==> slots[i] == slots[1..][i - 1];
            Err(e)
          case Ok(rest) =>
            assert forall i :: 1 <= i < |slots| ==> slots[i] == slots[1..][i - 1];
            Ok([s.(start := start, end := end)] + rest)
  }

  /** GetCurrentTime after the call: CurrentTime becomes the parse of CurrentTimeStr. */
  function ParseCurrentTime(resp: CurrentTimeResponse): (r: Result<CurrentTimeResponse, OpError>)
    ensures r.Ok? <==> ParseTime(resp.currentTimeStr).Ok?
    ensures r.Ok? ==> r.value.(currentTime := resp.currentTime) == resp
                      && Representable(r.value.currentTime)
                      && Format(r.value.currentTime) == resp.currentTimeStr
    ensures r.Err? ==> r.error == TimeParseFailed("current time", ParseTime(resp.currentTimeStr).error)
  {
    match ParseTime(resp.currentTimeStr)
    case Err(e) => Err(TimeParseFailed("current time", e))
    case Ok(t) =>
      ParseThenFormat(resp.currentTimeStr);
      Ok(resp.(currentTime := t))
  }

  /** GetRestaurants after the call: CurrentTime becomes the parse of CurrentTimeStr. */
  function ParseRestaurantsTime(resp: RestaurantsResponse): (r: Result<RestaurantsResponse, OpError>)
    ensures r.Ok? <==> ParseTime(resp.currentTimeStr).Ok?
    ensures r.Ok? ==> r.value.(currentTime := resp.currentTime) == resp
                      && Representable(r.value.currentTime)
                      && Format(r.value.currentTime) == resp.currentTimeStr
    ensures r.Err? ==> r.error == TimeParseFailed("current time", ParseTime(resp.currentTimeStr).error)
  {
    match ParseTime(resp.currentTimeStr)
    case Err(e) => Err(TimeParseFailed("current time", e))
    case Ok(t) =>
      ParseThenFormat(resp.currentTimeStr);
      Ok(resp.(currentTime := t))
  }

  predicate AllSlotsParse(slots: seq<TimeSlot>) {
    forall i :: 0 <= i < |slots| ==> SlotParses(slots[i])
  }

  /**
   * getRestaurantData after the call: the restaurant's CurrentTime, then
   * every delivery Td slot, then every delivery Tm slot. The pickup times
   * and the delivery times' own CurrentTime stay unparsed.
   */
  function ParseRestaurantTimes(d: RestaurantData): (r: Result<RestaurantData, OpError>)
    ensures r.Ok? <==> ParseTime(d.currentTimeStr).Ok? && AllSlotsParse(d.deliveryTimes.td) && AllSlotsParse(d.deliveryTimes.tm)
    ensures r.Ok? ==> ParseTime(d.currentTimeStr) == Ok(r.value.currentTime)
                      && ParsedFrom(d.deliveryTimes.td, r.value.deliveryTimes.td)
                      && ParsedFrom(d.deliveryTimes.tm, r.value.deliveryTimes.tm)
                      && r.value.pickupTimes == d.pickupTimes
                      && r.value.deliveryTimes.(td := d.deliveryTimes.td, tm := d.deliveryTimes.tm) == d.deliveryTimes
                      && r.value.(currentTime := d.currentTime, deliveryTimes := d.deliveryTimes) == d
    ensures ParseTime(d.currentTimeStr).Err? ==> r == Err(TimeParseFailed("current time", ParseTime(d.currentTimeStr).error))
    ensures ParseTime(d.currentTimeStr).Ok? && !AllSlotsParse(d.deliveryTimes.td) ==>
              r == Err(ParseSlots(d.deliveryTimes.td).error)
    ensures ParseTime(d.currentTimeStr).Ok? && AllSlotsParse(d.deliveryTimes.td) && !AllSlotsParse(d.deliveryTimes.tm) ==>
              r == Err(ParseSlots(d.deliveryTimes.tm).error)
  {
    match ParseTime(d.currentTimeStr)
    case Err(e) => Err(TimeParseFailed("current time", e))
    case Ok(t) =>
      match ParseSlots(d.deliveryTimes.td)
      case Err(e) => Err(e)
      case Ok(td) =>
        match ParseSlots(d.deliveryTimes.tm)
        case Err(e) => Err(e)
        case Ok(tm) => Ok(d.(currentTime := t, deliveryTimes := d.deliveryTimes.(td := td, tm := tm)))
  }

  // ---- the operations ----

  function Sent<T>(name: string, r: Result<T, Transport.CallError>): (o: Result<T, OpError>)
    ensures r.Ok? ==> o == Ok(r.value)
    ensures r.Err? ==> o == Err(SendFailed(name, r.error))
  {
    match r
    case Ok(v) => Ok(v)
    case Err(e) => Err(SendFailed(name, e))
  }

  function GetCurrentTime(c: TakeAwayClient.Client, env: Transport.Env,
                          decode: Json -> Result<CurrentTimeResponse, DecodeError>,
                          cc: Countries.CountryCode, restaurantId: string, orderingMode: int): (r: Result<CurrentTimeResponse, OpError>)
    ensures var sent := Transport.SendRequest(c, "getcurrenttime", CurrentTimeParams(cc, restaurantId, orderingMode), env, decode);
            && (sent.Err? ==> r == Err(SendFailed("getcurrenttime", sent.error)))
            && (sent.Ok? ==> r == ParseCurrentTime(sent.value))
    ensures r.Ok? ==> Representable(r.value.currentTime) && Format(r.value.currentTime) == r.value.currentTimeStr
  {
    match Transport.SendRequest(c, "getcurrenttime", CurrentTimeParams(cc, restaurantId, orderingMode), env, decode)
    case Err(e) => Err(SendFailed("getcurrenttime", e))
    case Ok(resp) => ParseCurrentTime(resp)
  }

  /** GetRestaurants sends the client's own language as the fifth parameter. */
  function GetRestaurants(c: TakeAwayClient.Client, env: Transport.Env,
                          decode: Json -> Result<RestaurantsResponse, DecodeError>,
                          postalCode: string, cc: Countries.CountryCode, latitude: string, longitude: string): (r: Result<RestaurantsResponse, OpError>)
    ensures var sent := Transport.SendRequest(c, "getrestaurants", RestaurantsParams(postalCode, cc, latitude, longitude, c.language), env, decode);
            && (sent.Err? ==> r == Err(SendFailed("getrestaurants", sent.error)))
            && (sent.Ok? ==> r == ParseRestaurantsTime(sent.value))
    ensures r.Ok? ==> Representable(r.value.currentTime) && Format(r.value.currentTime) == r.value.currentTimeStr
  {
    match Transport.SendRequest(c, "getrestaurants", RestaurantsParams(postalCode, cc, latitude, longitude, c.language), env, decode)
    case Err(e) => Err(SendFailed("getrestaurants", e))
    case Ok(resp) => ParseRestaurantsTime(resp)
  }

  /**
   * A transport failure or a vendor refusal of the call's response comes
   * back labelled with the function name, whatever the decoder.
   */
  predicate FailuresLabelled<T>(r: Result<T, OpError>, name: string, resp: Transport.Response) {
    && (resp.TransportFailed? ==> r == Err(SendFailed(name, Transport.Transport(resp.reason))))
    && (Transport.Refused(resp) ==> r == Err(SendFailed(name, Transport.Api(Transport.Refusal(resp)))))
  }

  /**
   * GetCountriesData: no parameters and no post-processing. The result is
   * the decoded body exactly when the call delivered.
   */
  function GetCountriesData<T>(c: TakeAwayClient.Client, env: Transport.Env, decode: Json -> Result<T, DecodeError>): (r: Result<T, OpError>)
    ensures var resp := env.exchange(Transport.BuildRequest(c, "getcountriesdata", [], env));
            && FailuresLabelled(r, "getcountriesdata", resp)
            && (r.Ok? <==> Transport.Delivers(resp, decode))
            && (r.Ok? ==> decode(resp.body.json) == Ok(r.value))
            && (r.Err? ==> r.error.SendFailed? && r.error.name == "getcountriesdata")
  {
    Sent("getcountriesdata", Transport.SendRequest(c, "getcountriesdata", [], env, decode))
  }

  /** getRestaurantData, shared by the two public restaurant operations. */
  function GetRestaurantDataFor(c: TakeAwayClient.Client, env: Transport.Env,
                                decode: Json -> Result<RestaurantData, DecodeError>, name: string,
                                restaurantId: string, postcode: string, cc: Countries.CountryCode,
                                latitude: string, longitude: string, clientId: string): (r: Result<RestaurantData, OpError>)
    ensures var sent := Transport.SendRequest(c, name, RestaurantDataParams(restaurantId, postcode, cc, latitude, longitude, clientId), env, decode);
            && (sent.Err? ==> r == Err(SendFailed(name, sent.error)))
            && (sent.Ok? ==> r == ParseRestaurantTimes(sent.value))
    ensures var resp := env.exchange(Transport.BuildRequest(c, name, RestaurantDataParams(restaurantId, postcode, cc, latitude, longitude, clientId), env));
            && FailuresLabelled(r, name, resp)
            && (r.Ok? ==> Transport.Delivers(resp, decode))
            && (Transport.Delivers(resp, decode) ==> r == ParseRestaurantTimes(decode(resp.body.json).value))
    ensures r.Ok? ==> Representable(r.value.currentTime) && Format(r.value.currentTime) == r.value.currentTimeStr
  {
    match Transport.SendRequest(c, name, RestaurantDataParams(restaurantId, postcode, cc, latitude, longitude, clientId), env, decode)
    case Err(e) => Err(SendFailed(name, e))
    case Ok(d) =>
      var r := ParseRestaurantTimes(d);
      if r.Ok? then ParseThenFormat(d.currentTimeStr); r else r
  }

  /**
   * GetRestaurantData: a delivered record with its times parsed, or the
   * failure labelled "getrestaurantdata"; a successful result's current time
   * formats back to the string the vendor sent.
   */
  function GetRestaurantData(c: TakeAwayClient.Client, env: Transport.Env,
                             decode: Json -> Result<RestaurantData, DecodeError>,
                             restaurantId: string, postcode: string, cc: Countries.CountryCode,
                             latitude: string, longitude: string, clientId: string): (r: Result<RestaurantData, OpError>)
    ensures var resp := env.exchange(Transport.BuildRequest(c, "getrestaurantdata", RestaurantDataParams(restaurantId, postcode, cc, latitude, longitude, clientId), env));
            && FailuresLabelled(r, "getrestaurantdata", resp)
            && (r.Ok? ==> Transport.Delivers(resp, decode))
            && (Transport.Delivers(resp, decode) ==> r == ParseRestaurantTimes(decode(resp.body.json).value))
    ensures r.Ok? ==> Representable(r.value.currentTime) && Format(r.value.currentTime) == r.value.currentTimeStr
  {
    GetRestaurantDataFor(c, env, decode, "getrestaurantdata", restaurantId, postcode, cc, latitude, longitude, clientId)
  }

  /** GetRestaurantCheckoutData: the same call under the name "getrestaurantcheckoutdata". */
  function GetRestaurantCheckoutData(c: TakeAwayClient.Client, env: Transport.Env,
                                     decode: Json -> Result<RestaurantData, DecodeError>,
                                     restaurantId: string, postcode: string, cc: Countries.CountryCode,
                                     latitude: string, longitude: string, clientId: string): (r: Result<RestaurantData, OpError>)
    ensures var resp := env.exchange(Transport.BuildRequest(c, "getrestaurantcheckoutdata", RestaurantDataParams(restaurantId, postcode, cc, latitude, longitude, clientId), env));
            && FailuresLabelled(r, "getrestaurantcheckoutdata", resp)
            && (r.Ok? ==> Transport.Delivers(resp, decode))
            && (Transport.Delivers(resp, decode) ==> r == ParseRestaurantTimes(decode(resp.body.json).value))
    ensures r.Ok? ==> Representable(r.value.currentTime) && Format(r.value.currentTime) == r.value.currentTimeStr
  {
    GetRestaurantDataFor(c, env, decode, "getrestaurantcheckoutdata", restaurantId, postcode, cc, latitude, longitude, clientId)
  }

  /**
   * GetRestaurantReviews: `decode` yields the review list, and review times
   * are not parsed. The result is the decoded body exactly when the call
   * delivered.
   */
  function GetRestaurantReviews<R>(c: TakeAwayClient.Client, env: Transport.Env, decode: Json -> Result<R, DecodeError>,
                                   restaurantId: string, page: int): (r: Result<R, OpError>)
    ensures var resp := env.exchange(Transport.BuildRequest(c, "restaurantreviews", ReviewsParams(restaurantId, page), env));
            && FailuresLabelled(r, "restaurantreviews", resp)
            && (r.Ok? <==> Transport.Delivers(resp, decode))
            && (r.Ok? ==> decode(resp.body.json) == Ok(r.value))
            && (r.Err? ==> r.error.SendFailed? && r.error.name == "restaurantreviews")
  {
    Sent("restaurantreviews", Transport.SendRequest(c, "restaurantreviews", ReviewsParams(restaurantId, page), env, decode))
  }

  // ---- where each parameter lands on the form ----

  lemma FieldNamesSpelled()
    ensures FieldName(0) == "var2" && FieldName(1) == "var3" && FieldName(2) == "var4"
    ensures FieldName(3) == "var5" && FieldName(4) == "var6" && FieldName(5) == "var7"
  {
  }
  /** getcurrenttime posts var2 = country code, var3 = restaurant, var4 = ordering mode. */
  lemma CurrentTimeForm(c: TakeAwayClient.Client, env: Transport.Env, cc: Countries.CountryCode, restaurantId: string, orderingMode: int)
    ensures var f := Transport.BuildRequest(c, "getcurrenttime", CurrentTimeParams(cc, restaurantId, orderingMode), env).form;
            && "var1" in f && f["var1"] == "getcurrenttime"
            && "var2" in f && f["var2"] == Decimal.IntToString(cc)
            && "var3" in f && f["var3"] == restaurantId
            && "var4" in f && f["var4"] == Decimal.IntToString(orderingMode)
            && |f| == 9
  {
    FieldNamesSpelled();
  }

  /** getrestaurants posts the postal code, country code, latitude, longitude and the client's language. */
  lemma RestaurantsForm(c: TakeAwayClient.Client, env: Transport.Env, postalCode: string, cc: Countries.CountryCode, latitude: string, longitude: string)
    ensures var f := Transport.BuildRequest(c, "getrestaurants", RestaurantsParams(postalCode, cc, latitude, longitude, c.language), env).form;
            && "var2" in f && f["var2"] == postalCode
            && "var3" in f && f["var3"] == Decimal.IntToString(cc)
            && "var4" in f && f["var4"] == latitude
            && "var5" in f && f["var5"] == longitude
            && "var6" in f && f["var6"] == c.language
            && |f| == 11
  {
    FieldNamesSpelled();
  }

  /** The restaurant operations post the country code as var3 and the postcode as var4. */
  lemma RestaurantDataForm(c: TakeAwayClient.Client, env: Transport.Env, name: string, restaurantId: string, postcode: string,
                           cc: Countries.CountryCode, latitude: string, longitude: string, clientId: string)
    ensures var f := Transport.BuildRequest(c, name, RestaurantDataParams(restaurantId, postcode, cc, latitude, longitude, clientId), env).form;
            && "var2" in f && f["var2"] == restaurantId
            && "var3" in f && f["var3"] == Decimal.IntToString(cc)
            && "var4" in f && f["var4"] == postcode
            && "var5" in f && f["var5"] == latitude
            && "var6" in f && f["var6"] == longitude
            && "var7" in f && f["var7"] == clientId
            && |f| == 12
  {
    FieldNamesSpelled();
  }

  lemma ReviewsForm(c: TakeAwayClient.Client, env: Transport.Env, restaurantId: string, page: int)
    ensures var f := Transport.BuildRequest(c, "restaurantreviews", ReviewsParams(restaurantId, page), env).form;
            && "var2" in f && f["var2"] == restaurantId
            && "var3" in f && f["var3"] == Decimal.IntToString(page)
            && |f| == 8
  {
    FieldNamesSpelled();
  }

  lemma NoFieldTwo(name: string, checksum: string)
    ensures "var2" !in FormFields(name, [], checksum)
  {
    FormFieldsKeys(name, [], checksum);
    assert FieldNames(0) == {};
    DefaultKeysCount();
  }

  /** A call without parameters (getcountriesdata) posts only var0, var1 and the four defaults. */
  lemma NoParamsForm(c: TakeAwayClient.Client, env: Transport.Env, name: string)
    ensures var f := Transport.BuildRequest(c, name, [], env).form;
            "var1" in f && f["var1"] == name && "var2" !in f && |f| == 6
  {
    NoFieldTwo(name, Checksum(name, [], env.md5));
  }

  /** A named country goes on the form as its decimal code, e.g. Germany as "2". */
  lemma CountryOnForm()
    ensures ParamString(Number(Countries.Code(Countries.DE))) == "2"
    ensures ParamString(Number(Countries.Code(Countries.VN))) == "239"
  {
  }

  /**
   * The time fields that come back from a successful restaurant call are
   * exactly the ones written on the wire: formatting each parsed value
   * gives back its string.
   */
  lemma RestaurantTimesRoundTrip(d: RestaurantData)
    requires ParseRestaurantTimes(d).Ok?
    ensures var p := ParseRestaurantTimes(d).value;
            && Format(p.currentTime) == p.currentTimeStr
            && (forall i :: 0 <= i < |p.deliveryTimes.td| ==>
                  Format(p.deliveryTimes.td[i].start) == p.deliveryTimes.td[i].startStr
                  && Format(p.deliveryTimes.td[i].end) == p.deliveryTimes.td[i].endStr)
            && (forall i :: 0 <= i < |p.deliveryTimes.tm| ==>
                  Format(p.deliveryTimes.tm[i].start) == p.deliveryTimes.tm[i].startStr
                  && Format(p.deliveryTimes.tm[i].end) == p.deliveryTimes.tm[i].endStr)
  {
    var p := ParseRestaurantTimes(d).value;
    ParseThenFormat(d.currentTimeStr);
    forall i | 0 <= i < |p.deliveryTimes.td|
      ensures Format(p.deliveryTimes.td[i].start) == p.deliveryTimes.td[i].startStr
      ensures Format(p.deliveryTimes.td[i].end) == p.deliveryTimes.td[i].endStr
    {
      ParseThenFormat(d.deliveryTimes.td[i].startStr);
      ParseThenFormat(d.deliveryTimes.td[i].endStr);
    }
    forall i | 0 <= i < |p.deliveryTimes.tm|
      ensures Format(p.deliveryTimes.tm[i].start) == p.deliveryTimes.tm[i].startStr
      ensures Format(p.deliveryTimes.tm[i].end) == p.deliveryTimes.tm[i].endStr
    {
      ParseThenFormat(d.deliveryTimes.tm[i].startStr);
      ParseThenFormat(d.deliveryTimes.tm[i].endStr);
    }
  }
}
