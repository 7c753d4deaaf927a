/**
 * The error envelope every response body is first decoded against
 * (structs.go: apiError, the struct `{"nok": {"error": {"errorid": int,
 * "errortext": string}}}`). Its two nested wrappers have one field each, so
 * the decoded envelope is just the code and the text.
 */
module Envelope {
  import opened Results
  import opened Json
  import Decimal

  datatype ApiErrorInfo = ApiErrorInfo(errorId: int, errorText: string)

  const NoError := ApiErrorInfo(0, "")

  function ApplyErrorMember(e: ApiErrorInfo, m: Member): Result<ApiErrorInfo, DecodeError> {
    if KeyMatches(m.key, "errorid") then
      (match DecodeIntInto(e.errorId, m.value) case Ok(n) => Ok(e.(errorId := n)) case Err(x) => Err(x))
    else if KeyMatches(m.key, "errortext") then
      (match DecodeStringInto(e.errorText, m.value) case Ok(s) => Ok(e.(errorText := s)) case Err(x) => Err(x))
    else Ok(e)
  }

  function ApplyNokMember(e: ApiErrorInfo, m: Member): Result<ApiErrorInfo, DecodeError> {
    if KeyMatches(m.key, "error") then DecodeStructInto(e, m.value, "error", ApplyErrorMember) else Ok(e)
  }

  function ApplyEnvelopeMember(e: ApiErrorInfo, m: Member): Result<ApiErrorInfo, DecodeError> {
    if KeyMatches(m.key, "nok") then DecodeStructInto(e, m.value, "nok", ApplyNokMember) else Ok(e)
  }

  /** json.Unmarshal of a response body into a fresh apiError. */
  function DecodeEnvelope(v: Json): (r: Result<ApiErrorInfo, DecodeError>)
    ensures v.JNull? ==> r == Ok(NoError)
    ensures v.JArray? || IsScalar(v) ==> r.Err?
  {
    DecodeStructInto(NoError, v, "apiError", ApplyEnvelopeMember)
  }

  /** The body decodes as the envelope and carries a non-zero error code. */
  predicate IsApiFailure(v: Json) {
    var e := DecodeEnvelope(v);
    e.Ok? && e.value.errorId != 0
  }

  /** The wire form of an error envelope. */
  function EnvelopeJson(e: ApiErrorInfo): Json {
    JObject([Member("nok", JObject([Member("error", JObject([
      Member("errorid", JNumber(Decimal.IntToString(e.errorId))),
      Member("errortext", JString(e.errorText))]))]))])
  }

  function ErrorMembers(e: ApiErrorInfo): seq<Member> {
    [Member("errorid", JNumber(Decimal.IntToString(e.errorId))), Member("errortext", JString(e.errorText))]
  }

  lemma ErrorObjectRoundTrip(e: ApiErrorInfo)
    requires Decimal.InInt64(e.errorId)
    ensures FoldMembers(NoError, ErrorMembers(e), ApplyErrorMember) == Ok(e)
  {
    var ms := ErrorMembers(e);
    Decimal.IntToStringRoundTrip(e.errorId);
    KeyMatchesItself("errorid");
    KeyMatchesItself("errortext");
    assert ms[..1][..0] == [] && ms[..2][..1] == ms[..1];
    assert DecodeIntInto(NoError.errorId, ms[0].value) == Ok(e.errorId);
    assert FoldMembers(NoError, ms[..1], ApplyErrorMember) == Ok(NoError.(errorId := e.errorId));
    assert ms[..2] == ms;
  }

  /** Decoding the wire form of an envelope gives back its code and text. */
  lemma EnvelopeRoundTrip(e: ApiErrorInfo)
    requires Decimal.InInt64(e.errorId)
    ensures DecodeEnvelope(EnvelopeJson(e)) == Ok(e)
  {
    ErrorObjectRoundTrip(e);
    var mid := [Member("error", JObject(ErrorMembers(e)))];
    KeyMatchesItself("error");
    assert mid[..0] == [];
    assert FoldMembers(NoError, mid, ApplyNokMember) == Ok(e);
    var outer := [Member("nok", JObject(mid))];
    KeyMatchesItself("nok");
    assert outer[..0] == [];
    assert ApplyEnvelopeMember(NoError, outer[0]) == Ok(e);
    assert FoldMembers(NoError, outer, ApplyEnvelopeMember) == Ok(e);
    assert EnvelopeJson(e) == JObject(outer);
  }

  /** Only an object can carry a vendor error; any other body goes on to the success schema. */
  lemma OnlyObjectsCarryErrors(v: Json)
    requires IsApiFailure(v)
    ensures v.JObject?
  {
  }
}
