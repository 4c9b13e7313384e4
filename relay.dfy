/** What the two Go stdin-to-HTTP proxies (proxy.go, proxy1.go) share: decoding a line
    into a `map[string]interface{}`, the JSON-RPC 2.0 error response, and forwarding a
    request over HTTP. JSON syntax, JSON encoding and the HTTP exchange are oracles
    (`Transport`). */
module Relay {
  import opened Wrappers
  import opened Json

  /** JSON-RPC 2.0 error codes (section 5.1 of the JSON-RPC 2.0 Specification). */
  const ParseErrorCode := -32700
  const InternalErrorCode := -32603

  /** The outcome of decoding JSON text: a syntax error, found before anything is stored,
      or the decoded value together with the error the decoder reports after storing it
      (a number outside the range of float64, whose member is stored as nil). */
  datatype Decoded = Malformed(err: string) | Decoded(value: Json, late: Option<string>)

  /** What `json.Unmarshal(data, &m)` leaves behind for `m` of type
      `map[string]interface{}`: the map (`Null` for the nil map) and the returned error. */
  datatype Unmarshalled = Unmarshalled(request: Json, err: Option<string>)

  /** The outcomes for which `json.Unmarshal` into a map returns no error. */
  predicate Unmarshals(decoded: Decoded)
  {
    decoded.Decoded? && decoded.late.None? && (decoded.value.Object? || decoded.value.Null?)
  }

  /** `json.Unmarshal` into a `map[string]interface{}`. A syntax error leaves the nil map;
      an object fills the map, even when the decoder then reports an error; `null` gives
      the nil map without error; any other value is a type error and leaves the nil map. */
  function UnmarshalMap(decoded: Decoded): (u: Unmarshalled)
    ensures u.request.Object? || u.request.Null?
    ensures u.err.None? <==> Unmarshals(decoded)
    ensures u.request.Object? <==> decoded.Decoded? && decoded.value.Object?
    ensures u.request.Object? ==> u.request == decoded.value
    ensures decoded.Malformed? ==> u == Unmarshalled(Null, Some(decoded.err))
  {
    match decoded
    case Malformed(err) => Unmarshalled(Null, Some(err))
    case Decoded(v, late) =>
      if v.Object? || v.Null? then Unmarshalled(v, late)
      else Unmarshalled(Null, Some("json: cannot unmarshal " + KindName(v) + " into Go value of type map[string]interface {}"))
  }

  /** The request's `id`, when its map has that key (whatever the value, null included). */
  function IdOf(request: Json): Option<Json>
  {
    if request.Object? && "id" in request.fields then Some(request.fields["id"]) else None
  }

  function ErrorObject(code: int, message: string): Json
  {
    Object(map["code" := Number(code), "message" := Str(message)])
  }

  /** The error response both proxies write: `jsonrpc` "2.0", the error object, and the
      request's `id` exactly when the request had one. */
  function ErrorResponse(request: Json, code: int, message: string): (r: Json)
    ensures r.Object?
    ensures r.fields.Keys == {"jsonrpc", "error"} + (if IdOf(request).Some? then {"id"} else {})
    ensures r.fields["jsonrpc"] == Str("2.0")
    ensures r.fields["error"] == ErrorObject(code, message)
    ensures IdOf(request).Some? ==> r.fields["id"] == IdOf(request).value
  {
    var base := map["jsonrpc" := Str("2.0"), "error" := ErrorObject(code, message)];
    match IdOf(request)
    case Some(id) => Object(base["id" := id])
    case None => Object(base)
  }

  /** `r` is a JSON-RPC error response with error code `code` and message `message`. */
  predicate IsErrorWith(r: Json, code: int, message: string)
  {
    && r.Object?
    && "error" in r.fields
    && r.fields["error"] == ErrorObject(code, message)
  }

  /** `r` is an object that carries an `id`. */
  predicate HasId(r: Json)
  {
    r.Object? && "id" in r.fields
  }

  /** The outcome of POSTing a request body: `client.Do` fails, reading the body fails, or
      the body. The HTTP status is not inspected by either proxy. */
  datatype PostOutcome = SendFailed(err: string) | ReadFailed(err: string) | Body(body: string)

  datatype Transport = Transport(
    decode: string -> Decoded,                // JSON text to a value, or the syntax error
    encode: Json -> Result<string, string>,   // json.Marshal
    newRequest: Result<(), string>,           // building the POST request for the target URL
    post: string -> PostOutcome)

  /** The text each proxy puts before a forwarding failure, stage by stage. */
  datatype Wording = Wording(marshal: string, create: string, send: string, read: string, parse: string)

  /** Forwards `request` and decodes the reply into a map; the first failing stage gives
      its prefix, ": " and the underlying error. */
  function Forward(request: Json, t: Transport, w: Wording): (r: Result<Json, string>)
    ensures r.Success? <==>
      && t.encode(request).Success?
      && t.newRequest.Success?
      && t.post(t.encode(request).value).Body?
      && UnmarshalMap(t.decode(t.post(t.encode(request).value).body)).err.None?
    ensures r.Success? ==> r.value.Object? || r.value.Null?
    ensures t.encode(request).Failure? ==> r == Failure(w.marshal + ": " + t.encode(request).error)
    ensures t.encode(request).Success? && t.newRequest.Failure? ==>
      r == Failure(w.create + ": " + t.newRequest.error)
    ensures t.encode(request).Success? && t.newRequest.Success? ==>
      var outcome := t.post(t.encode(request).value);
      && (outcome.SendFailed? ==> r == Failure(w.send + ": " + outcome.err))
      && (outcome.ReadFailed? ==> r == Failure(w.read + ": " + outcome.err))
      && (outcome.Body? && UnmarshalMap(t.decode(outcome.body)).err.Some? ==>
            r == Failure(w.parse + ": " + UnmarshalMap(t.decode(outcome.body)).err.value))
      && (outcome.Body? && UnmarshalMap(t.decode(outcome.body)).err.None? ==>
            r == Success(UnmarshalMap(t.decode(outcome.body)).request))
  {
    match t.encode(request)
    case Failure(err) => Failure(w.marshal + ": " + err)
    case Success(body) =>
      if t.newRequest.Failure? then Failure(w.create + ": " + t.newRequest.error)
      else
        match t.post(body)
        case SendFailed(err) => Failure(w.send + ": " + err)
        case ReadFailed(err) => Failure(w.read + ": " + err)
        case Body(reply) =>
          var parsed := UnmarshalMap(t.decode(reply));
          match parsed.err
          case Some(err) => Failure(w.parse + ": " + err)
          case None => Success(parsed.request)
  }
}
