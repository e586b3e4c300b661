/** The `SecureAPI` client of gl-keyvault: it signs a request for a key
    alias, sends it to the keyvault proxy and turns the proxy's JSON reply
    into a result or a `KeyVaultError`.

    Everything the client reads from outside (the clock, `os.urandom`, the
    GenVM capability probe, the network, `json.loads` and the two hash
    functions) arrives through an `Environment` value. */
module KeyVault {
  import opened Text
  import opened JsonValue
  import opened Digest

  datatype Option<T> = None | Some(value: T)

  datatype Result<T, E> = Ok(value: T) | Err(error: E)

  // ---------------------------------------------------------------------
  // Errors

  /** The status a `KeyVaultError` carries when none is given; the decoder
      uses the same value when the proxy's reply has no `status`. */
  const DefaultStatus: int := 500

  /** `KeyVaultError("Proxy error: " + str(detail), status=status)`. The
      message is kept as the `error` value it is made from; `Message` renders
      it where this model knows Python's `str()`. */
  datatype KeyVaultError = KeyVaultError(detail: Json, status: Json) {
    function Message(): (m: Option<string>)
      ensures m.Some? <==> IsScalar(detail)
      ensures IsScalar(detail) ==> m == Some("Proxy error: " + ScalarText(detail))
    {
      if IsScalar(detail) then Some("Proxy error: " + ScalarText(detail)) else None
    }
  }

  /** How a call can fail: the proxy reported an error (`KeyVaultError`),
      `json.loads` rejected the reply text, or the transport failed
      (`urlopen` or `gl.get_webpage` raised). */
  datatype RequestError =
    | ProxyError(err: KeyVaultError)
    | MalformedReply
    | TransportFailure

  // ---------------------------------------------------------------------
  // What comes from outside

  /** Sixteen bytes of `os.urandom(16)`. */
  type Entropy = s: seq<byte> | |s| == 16 witness seq(16, _ => 0)

  /** What the transport delivered: the reply text, or a raised exception. */
  datatype Reply = Delivered(text: string) | Unreachable

  datatype Environment = Environment(
    clockMillis: nat,                  // int(time.time() * 1000)
    clockText: string,                 // f"{time.time()}" as the nonce generator reads it
    entropy: Entropy,                  // os.urandom(16)
    hostFetch: bool,                   // gl is importable and has get_webpage
    reply: Reply,                      // what the chosen transport returned
    sha256: Sha256,
    hmacSha256: HmacSha256,
    parseJson: string -> Option<Json>  // json.loads; None where it raises
  )

  // ---------------------------------------------------------------------
  // Nonce

  /** `_generate_nonce`: the first 32 characters of the SHA-256 hex digest
      of the clock text followed by the hex of sixteen random bytes. */
  function GenerateNonce(sha256: Sha256, clockText: string, entropy: Entropy): (nonce: string)
    ensures |nonce| == 32 && IsLowerHex(nonce) && ':' !in nonce
    ensures nonce <= sha256(clockText + HexOfBytes(entropy))
  {
    var digest := sha256(clockText + HexOfBytes(entropy));
    HexHasNoColon(digest[..32]);
    digest[..32]
  }

  function NonceOf(env: Environment): (nonce: string)
    ensures |nonce| == 32 && ':' !in nonce
  {
    GenerateNonce(env.sha256, env.clockText, env.entropy)
  }

  // ---------------------------------------------------------------------
  // Signed string

  /** The canonical signing string, field by field. */
  function CanonicalString(alias: string, verb: string, path: string, timestamp: int, nonce: string): string {
    alias + ":" + verb + ":" + path + ":" + IntText(timestamp) + ":" + nonce
  }

  /** The timestamp of the worked example below, rendered by `str()`. */
  lemma ExampleTimestampText()
    ensures IntText(1700000000000) == "1700000000000"
  {
    assert Decimal(1) == "1";
    assert Decimal(17) == "17";
    assert Decimal(170) == "170";
    assert Decimal(1700) == "1700";
    assert Decimal(17000) == "17000";
    assert Decimal(170000) == "170000";
    assert Decimal(1700000) == "1700000";
    assert Decimal(17000000) == "17000000";
    assert Decimal(170000000) == "170000000";
    assert Decimal(1700000000) == "1700000000";
    assert Decimal(17000000000) == "17000000000";
    assert Decimal(170000000000) == "170000000000";
  }

  /** A worked example: alias openweather, method GET, path
      /data/2.5/weather?q=Tokyo, timestamp 1700000000000, nonce abc123.
      The values arrive through `requires` rather than as literal arguments,
      so that the solver does not unfold `Decimal` on a 13-digit literal. */
  lemma CanonicalStringExample(alias: string, verb: string, path: string, timestamp: nat, nonce: string)
    requires alias == "openweather" && verb == "GET" && path == "/data/2.5/weather?q=Tokyo"
    requires timestamp == 1700000000000 && nonce == "abc123"
    ensures CanonicalString(alias, verb, path, timestamp, nonce)
         == "openweather:GET:/data/2.5/weather?q=Tokyo:1700000000000:abc123"
  {
    ExampleTimestampText();
    ExampleConcatenation(IntText(timestamp));
  }

  /** The string step of `CanonicalStringExample`, kept apart from the
      numeral so that each proof stays small. */
  lemma ExampleConcatenation(t: string)
    requires t == "1700000000000"
    ensures "openweather" + ":" + "GET" + ":" + "/data/2.5/weather?q=Tokyo" + ":" + t + ":" + "abc123"
         == "openweather:GET:/data/2.5/weather?q=Tokyo:1700000000000:abc123"
  {
    assert "openweather" + ":" + "GET" + ":" + "/data/2.5/weather?q=Tokyo" + ":" == "openweather:GET:/data/2.5/weather?q=Tokyo:";
    assert "openweather:GET:/data/2.5/weather?q=Tokyo:" + t == "openweather:GET:/data/2.5/weather?q=Tokyo:1700000000000";
    assert "openweather:GET:/data/2.5/weather?q=Tokyo:1700000000000" + ":" + "abc123"
        == "openweather:GET:/data/2.5/weather?q=Tokyo:1700000000000:abc123";
  }

  /** The last two fields never contain `:`, so the signed string determines
      the timestamp, the nonce and the text before them. */
  lemma {:induction false} CanonicalStringDeterminesTimestampAndNonce(
    alias: string, verb: string, path: string, timestamp: int, nonce: string,
    alias': string, verb': string, path': string, timestamp': int, nonce': string)
    requires ':' !in nonce && ':' !in nonce'
    requires CanonicalString(alias, verb, path, timestamp, nonce) == CanonicalString(alias', verb', path', timestamp', nonce')
    ensures timestamp == timestamp' && nonce == nonce'
    ensures alias + ":" + verb + ":" + path == alias' + ":" + verb' + ":" + path'
  {
    var head, head' := alias + ":" + verb + ":" + path, alias' + ":" + verb' + ":" + path';
    assert CanonicalString(alias, verb, path, timestamp, nonce) == (head + ":" + IntText(timestamp)) + ":" + nonce;
    assert CanonicalString(alias', verb', path', timestamp', nonce') == (head' + ":" + IntText(timestamp')) + ":" + nonce';
    SplitAtLastColon(head + ":" + IntText(timestamp), nonce, head' + ":" + IntText(timestamp'), nonce');
    SplitAtLastColon(head, IntText(timestamp), head', IntText(timestamp'));
    ParseIntOfIntText(timestamp);
    ParseIntOfIntText(timestamp');
  }

  /** Alias, method and path are joined without escaping, so a `:` inside
      one of them can move a field boundary without changing the string. */
  lemma CanonicalStringAmbiguousInAlias(nonce: string)
    ensures CanonicalString("news:api", "GET", "/v2", 1, nonce) == CanonicalString("news", "api:GET", "/v2", 1, nonce)
  {
  }

  // ---------------------------------------------------------------------
  // Payload

  /** The keys a payload may hold. */
  const PayloadKeys: set<string> := {"alias", "path", "method", "timestamp", "nonce", "body", "headers"}

  /** `p` is the payload that `_request` builds for these arguments: the five
      fixed keys with the given values, `body` exactly when the body is
      truthy and the method is not `GET`, `headers` exactly when the headers
      are non-empty, and nothing else. */
  predicate IsPayloadFor(p: map<string, Json>, alias: string, verb: string, path: string,
                         body: Json, headers: map<string, string>, timestamp: nat, nonce: string)
  {
    && "alias" in p && p["alias"] == JStr(alias)
    && "path" in p && p["path"] == JStr(path)
    && "method" in p && p["method"] == JStr(verb)
    && "timestamp" in p && p["timestamp"] == JInt(timestamp)
    && "nonce" in p && p["nonce"] == JStr(nonce)
    && ("body" in p <==> Truthy(body) && verb != "GET")
    && ("body" in p ==> p["body"] == body)
    && ("headers" in p <==> headers != map[])
    && ("headers" in p ==> p["headers"] == StringMap(headers))
    && p.Keys <= PayloadKeys
  }

  /** The payload rules leave no freedom: one payload per argument list. */
  lemma PayloadIsUnique(p: map<string, Json>, q: map<string, Json>, alias: string, verb: string, path: string,
                        body: Json, headers: map<string, string>, timestamp: nat, nonce: string)
    requires IsPayloadFor(p, alias, verb, path, body, headers, timestamp, nonce)
    requires IsPayloadFor(q, alias, verb, path, body, headers, timestamp, nonce)
    ensures p == q
  {
  }

  /** The payload holds the five signed fields with the types `_sign` reads. */
  predicate HasSignedFields(p: map<string, Json>) {
    && "alias" in p && p["alias"].JStr?
    && "method" in p && p["method"].JStr?
    && "path" in p && p["path"].JStr?
    && "timestamp" in p && p["timestamp"].JInt?
    && "nonce" in p && p["nonce"].JStr?
  }

  /** The list `_sign` joins with `:`. */
  function SignedFields(p: map<string, Json>): seq<string>
    requires HasSignedFields(p)
  {
    [p["alias"].s, p["method"].s, p["path"].s, IntText(p["timestamp"].i), p["nonce"].s]
  }

  // ---------------------------------------------------------------------
  // Outbound request

  /** The one request that leaves the client. Inside GenVM it is a text
      fetch of the endpoint; outside it is an HTTP request with a JSON body
      (the value `json.dumps` serialises), headers and a timeout. */
  datatype Outbound =
    | HostFetch(url: string, mode: string)
    | DirectHttp(url: string, httpMethod: string, headers: map<string, string>, body: Json, timeoutSeconds: nat)

  const TimeoutSeconds: nat := 10

  /** Everything one call produces: the payload, its signature, the request
      sent and the outcome. */
  datatype Exchange = Exchange(payload: map<string, Json>, signature: HexDigest, sent: Outbound,
                               result: Result<Json, RequestError>)

  // ---------------------------------------------------------------------
  // Response decoding

  /** The branch at the end of `_request`: an object with `error` raises,
      an object with `data` is unwrapped, anything else is returned. */
  function DecodeResponse(response: Json): Result<Json, KeyVaultError> {
    match response
    case JObject(fields) =>
      if "error" in fields then
        Err(KeyVaultError(fields["error"], if "status" in fields then fields["status"] else JInt(DefaultStatus)))
      else if "data" in fields then
        Ok(fields["data"])
      else
        Ok(response)
    case _ => Ok(response)
  }

  /** The proxy's two reply envelopes, `{"data": ...}` and
      `{"error": ..., "status": ...}`. */
  function Envelope(reply: Result<Json, KeyVaultError>): (response: Json)
    ensures response.JObject?
  {
    match reply
    case Ok(data) => JObject(map["data" := data])
    case Err(e) => JObject(map["error" := e.detail, "status" := e.status])
  }

  /** Decoding opens both envelopes. */
  lemma DecodeResponseOpensEnvelope(reply: Result<Json, KeyVaultError>)
    ensures DecodeResponse(Envelope(reply)) == reply
  {
  }

  /** `DecodeResponse` case by case: it fails exactly on an object with an
      `error` key, whatever else the object holds, with the proxy's status or
      500; otherwise it returns the `data` member or the value unchanged. */
  lemma DecodeResponseCases(response: Json)
    ensures DecodeResponse(response).Err? <==> response.JObject? && "error" in response.fields
    ensures DecodeResponse(response).Err? ==>
      DecodeResponse(response).error.detail == response.fields["error"] &&
      DecodeResponse(response).error.status ==
        (if "status" in response.fields then response.fields["status"] else JInt(DefaultStatus))
    ensures response.JObject? && "error" !in response.fields && "data" in response.fields ==>
      DecodeResponse(response) == Ok(response.fields["data"])
    ensures (!response.JObject? || ("error" !in response.fields && "data" !in response.fields)) ==>
      DecodeResponse(response) == Ok(response)
  {
  }

  /** Three worked replies: an enveloped `{"temp": 20}`, the same object
      without envelope, and `{"error": "bad alias", "status": 404}`. As in
      `CanonicalStringExample`, the values arrive through `requires`. */
  lemma DecodeResponseExamples(temp: Json, failed: Json)
    requires temp == JObject(map["temp" := JInt(20)])
    requires failed == JObject(map["error" := JStr("bad alias"), "status" := JInt(404)])
    ensures DecodeResponse(JObject(map["data" := temp])) == Ok(temp)
    ensures DecodeResponse(temp) == Ok(temp)
    ensures DecodeResponse(failed).Err? && DecodeResponse(failed).error.status == JInt(404)
    ensures DecodeResponse(failed).error.Message() == Some("Proxy error: bad alias")
  {
    assert "error" !in temp.fields && "data" !in temp.fields;
    assert "error" in failed.fields && failed.fields["error"] == JStr("bad alias");
    assert "status" in failed.fields && failed.fields["status"] == JInt(404);
    assert DecodeResponse(failed) == Err(KeyVaultError(JStr("bad alias"), JInt(404)));
    assert KeyVaultError(JStr("bad alias"), JInt(404)).Message() == Some("Proxy error: " + "bad alias");
    assert "Proxy error: " + "bad alias" == "Proxy error: bad alias";
  }

  /** The reply text as `_request` handles it: a transport failure or a
      `json.loads` failure propagates, otherwise the parsed value is decoded. */
  function ReadReply(parseJson: string -> Option<Json>, reply: Reply): (r: Result<Json, RequestError>)
    ensures r.Ok? <==> reply.Delivered? && parseJson(reply.text).Some? && DecodeResponse(parseJson(reply.text).value).Ok?
    ensures r.Ok? ==> r.value == DecodeResponse(parseJson(reply.text).value).value
    ensures r == Err(TransportFailure) <==> reply.Unreachable?
    ensures r == Err(MalformedReply) <==> reply.Delivered? && parseJson(reply.text).None?
    ensures r.Err? && r.error.ProxyError? ==> DecodeResponse(parseJson(reply.text).value) == Err(r.error.err)
  {
    match reply
    case Unreachable => Err(TransportFailure)
    case Delivered(text) =>
      match parseJson(text)
      case None => Err(MalformedReply)
      case Some(response) =>
        match DecodeResponse(response)
        case Ok(data) => Ok(data)
        case Err(e) => Err(ProxyError(e))
  }

  // ---------------------------------------------------------------------
  // The client

  class SecureAPI {
    const alias: string
    const proxyUrl: string
    const hmacSecret: string

    /** The stored proxy URL has no trailing `/`. */
    predicate Valid() {
      proxyUrl == [] || proxyUrl[|proxyUrl| - 1] != '/'
    }

    constructor (alias: string, proxyUrl: string, hmacSecret: string)
      ensures this.alias == alias && this.hmacSecret == hmacSecret
      ensures this.proxyUrl == StripTrailingSlashes(proxyUrl)
      ensures this.proxyUrl <= proxyUrl
      ensures Valid()
    {
      this.alias := alias;
      this.proxyUrl := StripTrailingSlashes(proxyUrl);
      this.hmacSecret := hmacSecret;
    }

    /** `f"{self.proxy_url}/api/proxy"`. */
    function ProxyEndpoint(): (url: string)
      requires Valid()
      ensures |url| == |proxyUrl| + 10
      ensures url[..|proxyUrl|] == proxyUrl && url[|proxyUrl|..] == "/api/proxy"
      ensures proxyUrl != [] ==> url[|proxyUrl| - 1] != '/'
    {
      proxyUrl + "/api/proxy"
    }

    /** `_sign`: HMAC-SHA256, keyed with the secret, of the five signed fields
        joined with `:`. */
    function Sign(hmacSha256: HmacSha256, payload: map<string, Json>): (signature: HexDigest)
      requires HasSignedFields(payload)
      ensures signature == hmacSha256(hmacSecret, CanonicalString(payload["alias"].s, payload["method"].s,
                                                               payload["path"].s, payload["timestamp"].i,
                                                               payload["nonce"].s))
    {
      var f := SignedFields(payload);
      JoinFive(f[0], f[1], f[2], f[3], f[4]);
      hmacSha256(hmacSecret, Join(":", f))
    }

    /** The payload-building part of `_request`. */
    method BuildPayload(verb: string, path: string, body: Json, headers: map<string, string>,
                        timestamp: nat, nonce: string) returns (payload: map<string, Json>)
      ensures IsPayloadFor(payload, alias, verb, path, body, headers, timestamp, nonce)
    {
      payload := map[
        "alias" := JStr(alias),
        "path" := JStr(path),
        "method" := JStr(verb),
        "timestamp" := JInt(timestamp),
        "nonce" := JStr(nonce)
      ];
      if Truthy(body) && verb != "GET" {
        payload := payload["body" := body];
      }
      if headers != map[] {
        payload := payload["headers" := StringMap(headers)];
      }
    }

    /** `_request`: build and sign the payload, send it over the transport
        the environment offers, decode the reply. */
    method Request(verb: string, path: string, body: Json, headers: map<string, string>, env: Environment)
      returns (x: Exchange)
      requires Valid()
      ensures IsPayloadFor(x.payload, alias, verb, path, body, headers, env.clockMillis, NonceOf(env))
      ensures x.signature == env.hmacSha256(hmacSecret, CanonicalString(alias, verb, path, env.clockMillis, NonceOf(env)))
      ensures env.hostFetch ==> x.sent == HostFetch(proxyUrl + "/api/proxy", "text")
      ensures !env.hostFetch ==> x.sent == DirectHttp(
                proxyUrl + "/api/proxy", "POST",
                map["Content-Type" := "application/json", "Authorization" := "Signature " + x.signature],
                JObject(x.payload), TimeoutSeconds)
      ensures x.result == ReadReply(env.parseJson, env.reply)
    {
      var timestamp := env.clockMillis;
      var nonce := GenerateNonce(env.sha256, env.clockText, env.entropy);
      var payload := BuildPayload(verb, path, body, headers, timestamp, nonce);
      var signature := Sign(env.hmacSha256, payload);
      var endpoint := ProxyEndpoint();
      var sent;
      if env.hostFetch {
        sent := HostFetch(endpoint, "text");
      } else {
        sent := DirectHttp(endpoint, "POST",
                           map["Content-Type" := "application/json", "Authorization" := "Signature " + signature],
                           JObject(payload), TimeoutSeconds);
      }
      var result := ReadReply(env.parseJson, env.reply);
      x := Exchange(payload, signature, sent, result);
    }

    /** `get`: a `GET` request, never with a body. */
    method Get(path: string, headers: map<string, string>, env: Environment) returns (x: Exchange)
      requires Valid()
      ensures IsPayloadFor(x.payload, alias, "GET", path, JNull, headers, env.clockMillis, NonceOf(env))
      ensures x.payload["method"] == JStr("GET") && "body" !in x.payload
      ensures x.signature == env.hmacSha256(hmacSecret, CanonicalString(alias, "GET", path, env.clockMillis, NonceOf(env)))
      ensures env.hostFetch ==> x.sent == HostFetch(proxyUrl + "/api/proxy", "text")
      ensures !env.hostFetch ==> x.sent == DirectHttp(
                proxyUrl + "/api/proxy", "POST",
                map["Content-Type" := "application/json", "Authorization" := "Signature " + x.signature],
                JObject(x.payload), TimeoutSeconds)
      ensures x.result == ReadReply(env.parseJson, env.reply)
    {
      x := Request("GET", path, JNull, headers, env);
    }

    /** `post`: a `POST` request, with the body when it is truthy. */
    method Post(path: string, body: Json, headers: map<string, string>, env: Environment) returns (x: Exchange)
      requires Valid()
      ensures IsPayloadFor(x.payload, alias, "POST", path, body, headers, env.clockMillis, NonceOf(env))
      ensures x.payload["method"] == JStr("POST")
      ensures "body" in x.payload <==> Truthy(body)
      ensures x.signature == env.hmacSha256(hmacSecret, CanonicalString(alias, "POST", path, env.clockMillis, NonceOf(env)))
      ensures env.hostFetch ==> x.sent == HostFetch(proxyUrl + "/api/proxy", "text")
      ensures !env.hostFetch ==> x.sent == DirectHttp(
                proxyUrl + "/api/proxy", "POST",
                map["Content-Type" := "application/json", "Authorization" := "Signature " + x.signature],
                JObject(x.payload), TimeoutSeconds)
      ensures x.result == ReadReply(env.parseJson, env.reply)
    {
      x := Request("POST", path, body, headers, env);
    }
  }

  // ---------------------------------------------------------------------
  // Properties of the signature

  /** The signature depends on the secret and the five signed fields only:
      payloads that agree on those fields get the same signature, whatever
      their `body` and `headers`. */
  lemma SignatureIgnoresBodyAndHeaders(api: SecureAPI, hmacSha256: HmacSha256,
                                       p: map<string, Json>, q: map<string, Json>)
    requires HasSignedFields(p) && HasSignedFields(q)
    requires forall k :: k in PayloadKeys - {"body", "headers"} ==> k in p && k in q && p[k] == q[k]
    ensures api.Sign(hmacSha256, p) == api.Sign(hmacSha256, q)
  {
  }

  /** Two requests with the same signed fields but different bodies or
      headers carry the same signature. */
  lemma SameSignatureForAnyBodyAndHeaders(api: SecureAPI, hmacSha256: HmacSha256,
                                          p: map<string, Json>, q: map<string, Json>,
                                          verb: string, path: string, timestamp: nat, nonce: string,
                                          body: Json, headers: map<string, string>,
                                          body': Json, headers': map<string, string>)
    requires IsPayloadFor(p, api.alias, verb, path, body, headers, timestamp, nonce)
    requires IsPayloadFor(q, api.alias, verb, path, body', headers', timestamp, nonce)
    ensures HasSignedFields(p) && HasSignedFields(q)
    ensures api.Sign(hmacSha256, p) == api.Sign(hmacSha256, q)
  {
  }

  /** Two clients holding the same secret sign every payload alike, whatever
      their aliases: the alias reaches the signature only through the payload. */
  lemma SigningHasNoHiddenState(a: SecureAPI, b: SecureAPI, hmacSha256: HmacSha256, p: map<string, Json>)
    requires a.hmacSecret == b.hmacSecret
    requires HasSignedFields(p)
    ensures a.Sign(hmacSha256, p) == b.Sign(hmacSha256, p)
  {
  }

  /** Payloads with equal signed strings agree on timestamp and nonce: the
      nonce comes from a hex digest and holds no `:`. */
  lemma {:induction false} EqualSignedStringsShareTimestampAndNonce(
    p: map<string, Json>, q: map<string, Json>,
    alias: string, verb: string, path: string, body: Json, headers: map<string, string>, env: Environment,
    alias': string, verb': string, path': string, body': Json, headers': map<string, string>, env': Environment)
    requires IsPayloadFor(p, alias, verb, path, body, headers, env.clockMillis, NonceOf(env))
    requires IsPayloadFor(q, alias', verb', path', body', headers', env'.clockMillis, NonceOf(env'))
    requires CanonicalString(alias, verb, path, env.clockMillis, NonceOf(env))
          == CanonicalString(alias', verb', path', env'.clockMillis, NonceOf(env'))
    ensures p["timestamp"] == q["timestamp"] && p["nonce"] == q["nonce"]
  {
    CanonicalStringDeterminesTimestampAndNonce(alias, verb, path, env.clockMillis, NonceOf(env),
                                               alias', verb', path', env'.clockMillis, NonceOf(env'));
  }
}
