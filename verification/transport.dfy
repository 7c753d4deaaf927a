/**
 * sendRequest (takeawayapi.go:40-106): the request it builds and the way
 * it sorts the response body into a vendor error, a decoding failure or a
 * decoded result. MD5, the HTTP exchange and the iteration order of the
 * client's header map are parameters; the success schema is a decoder
 * passed in by the typed operation.
 */
module Transport {
  import opened Results
  import opened Json
  import opened Signing
  import Hex
  import Decimal
  import Headers
  import Envelope
  import TakeAwayClient

  /** The POST sendRequest hands to the HTTP client. */
  datatype Request = Request(verb: string, url: string, form: map<string, string>, headers: map<string, string>)

  /** A response body: parsed JSON, or bytes that are not JSON at all. */
  datatype Body = Parsed(json: Json) | Malformed

  /** What the exchange yields: a body, or a failure to build, send or read the request. */
  datatype Response = Received(body: Body) | TransportFailed(reason: string)

  /** Everything sendRequest depends on that is outside this model. */
  datatype Env = Env(
    md5: string -> Digest,
    exchange: Request -> Response,
    headerOrder: map<string, string> -> seq<string>)

  datatype CallError =
    /** http.NewRequest, client.Do or io.ReadAll failed. */
    | Transport(reason: string)
    /** "API error: ...": the envelope carried a non-zero error code. */
    | Api(info: Envelope.ApiErrorInfo)
    /** "failed to unmarshal JSON: ...": the success schema rejected the body. */
    | Unmarshal(cause: DecodeError)

  /**
   * The request a call must send: a POST to the client's endpoint whose
   * form names the function, files each parameter under its positional name,
   * carries the four defaults and is signed with the digest of this call's
   * own preimage, and nothing more.
   */
  predicate SignedFor(req: Request, c: TakeAwayClient.Client, name: string, params: seq<Param>, md5: string -> Digest) {
    && req.verb == "POST" && req.url == c.baseURL
    && "var1" in req.form && req.form["var1"] == name
    && "var0" in req.form && Hex.HexDecode(req.form["var0"]) == Some(md5(Preimage(name, params)))
    && (forall i :: 0 <= i < |params| ==> FieldName(i) in req.form && req.form[FieldName(i)] == ParamString(params[i]))
    && (forall k :: k in DefaultParams ==> k in req.form && req.form[k] == DefaultParams[k])
    && |req.form| == |params| + 6
  }

  /** The request sendRequest builds: signed for the call, and always carrying Content-Type and Accept. */
  function BuildRequest(c: TakeAwayClient.Client, name: string, params: seq<Param>, env: Env): (r: Request)
    ensures SignedFor(r, c, name, params, env.md5)
    ensures "Content-Type" in r.headers && "Accept" in r.headers
  {
    var checksum := Checksum(name, params, env.md5);
    FormFieldsContents(name, params, checksum);
    FormFieldsKeys(name, params, checksum);
    Headers.ApplyCustomKeepsKeys(Headers.FixedHeaders, c.headers, env.headerOrder(c.headers));
    Request("POST", c.baseURL, FormFields(name, params, checksum), Headers.RequestHeaders(c.headers, env.headerOrder(c.headers)))
  }

  /** The vendor refused the call: the body decodes as the envelope with a non-zero code. */
  predicate Refused(resp: Response) {
    resp.Received? && resp.body.Parsed? && Envelope.IsApiFailure(resp.body.json)
  }

  /** The vendor's error of a refused call. */
  function Refusal(resp: Response): (e: Envelope.ApiErrorInfo)
    requires Refused(resp)
    ensures e.errorId != 0
  {
    Envelope.DecodeEnvelope(resp.body.json).value
  }

  /** The call delivered: a JSON body that is no vendor error and that the success schema accepts. */
  predicate Delivers<T>(resp: Response, decode: Json -> Result<T, DecodeError>) {
    resp.Received? && resp.body.Parsed? && !Envelope.IsApiFailure(resp.body.json) && decode(resp.body.json).Ok?
  }

  /**
   * The envelope is tried first; only a body that decodes as the envelope
   * with a non-zero code is a vendor error. Every other body, including one
   * the envelope cannot decode, goes to the success decoder.
   */
  function Triage<T>(body: Body, decode: Json -> Result<T, DecodeError>): (r: Result<T, CallError>)
    ensures body.Malformed? ==> r == Err(Unmarshal(InvalidJson))
    ensures body.Parsed? && Envelope.IsApiFailure(body.json) ==>
              r == Err(Api(Envelope.DecodeEnvelope(body.json).value))
    ensures body.Parsed? && !Envelope.IsApiFailure(body.json) ==>
              (r.Ok? <==> decode(body.json).Ok?)
              && (r.Ok? ==> r.value == decode(body.json).value)
              && (r.Err? ==> r.error == Unmarshal(decode(body.json).error))
  {
    match body
    case Malformed => Err(Unmarshal(InvalidJson))
    case Parsed(v) =>
      var envelope := Envelope.DecodeEnvelope(v);
      if envelope.Ok? && envelope.value.errorId != 0 then Err(Api(envelope.value))
      else
        match decode(v)
        case Ok(t) => Ok(t)
        case Err(e) => Err(Unmarshal(e))
  }

  /**
   * sendRequest: the result is the decoded body exactly when the call
   * delivered; otherwise it is the transport failure, the vendor's refusal
   * (whatever the success decoder would have said), or an unmarshal error
   * for any other body.
   */
  function SendRequest<T>(c: TakeAwayClient.Client, name: string, params: seq<Param>, env: Env,
                          decode: Json -> Result<T, DecodeError>): (r: Result<T, CallError>)
    ensures var resp := env.exchange(BuildRequest(c, name, params, env));
            && (r.Ok? <==> Delivers(resp, decode))
            && (r.Ok? ==> decode(resp.body.json) == Ok(r.value))
            && (resp.TransportFailed? ==> r == Err(Transport(resp.reason)))
            && (Refused(resp) ==> r == Err(Api(Refusal(resp))))
            && (r.Err? && r.error.Unmarshal? <==> resp.Received? && !Refused(resp) && !Delivers(resp, decode))
  {
    match env.exchange(BuildRequest(c, name, params, env))
    case TransportFailed(reason) => Err(Transport(reason))
    case Received(body) => Triage(body, decode)
  }

  /** A vendor error wins over every success schema: the success decoder is never consulted. */
  lemma ApiErrorShortCircuits<T>(e: Envelope.ApiErrorInfo, decode: Json -> Result<T, DecodeError>)
    requires e.errorId != 0 && Decimal.InInt64(e.errorId)
    ensures Triage(Parsed(Envelope.EnvelopeJson(e)), decode) == Err(Api(e))
  {
    Envelope.EnvelopeRoundTrip(e);
  }

  /** An envelope whose code is zero is no error: the body is decoded as the success schema. */
  lemma ZeroCodeFallsThrough<T>(text: string, decode: Json -> Result<T, DecodeError>)
    ensures var v := Envelope.EnvelopeJson(Envelope.ApiErrorInfo(0, text));
            Triage(Parsed(v), decode) == (match decode(v) case Ok(t) => Ok(t) case Err(x) => Err(Unmarshal(x)))
  {
    Envelope.EnvelopeRoundTrip(Envelope.ApiErrorInfo(0, text));
  }

  /** A body that is not a JSON object never yields a vendor error. */
  lemma NonObjectsReachDecoder<T>(v: Json, decode: Json -> Result<T, DecodeError>)
    requires !v.JObject?
    ensures Triage(Parsed(v), decode).Ok? <==> decode(v).Ok?
    ensures Triage(Parsed(v), decode).Err? ==> Triage(Parsed(v), decode).error.Unmarshal?
  {
    if Envelope.IsApiFailure(v) {
      Envelope.OnlyObjectsCarryErrors(v);
    }
  }

  /**
   * Every custom header of the client reaches the request under its
   * canonical key, overriding Content-Type or Accept when it names them.
   */
  lemma ClientHeadersOnRequest(c: TakeAwayClient.Client, name: string, params: seq<Param>, env: Env)
    requires Headers.VisitsAll(env.headerOrder(c.headers), c.headers) && Headers.CanonicallyDistinct(c.headers)
    ensures var h := BuildRequest(c, name, params, env).headers;
            forall k :: k in c.headers ==> Headers.CanonicalKey(k) in h && h[Headers.CanonicalKey(k)] == c.headers[k]
  {
    Headers.CustomHeadersWin(c.headers, env.headerOrder(c.headers));
  }
}
