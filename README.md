# gl-keyvault `SecureAPI` in Dafny

gl-keyvault lets sandboxed GenLayer contracts call third-party HTTP APIs
without holding the real API keys. The contract knows only a key *alias*. The
`SecureAPI` client signs each request with a shared HMAC secret and sends it
to the keyvault proxy. The proxy swaps the alias for the real key. The client
then turns the proxy's JSON reply into a result or a `KeyVaultError`.

This project models that client, `sdk/gl_keyvault/secure_api.py`:

- `text.dfy` (module `Text`): the Python built-ins the client relies on.
  These are `str(int)`, `bytes.hex()`, `str.rstrip("/")` and `":".join`. Each
  comes with a reference inverse or a characterisation.
- `json.dfy` (module `JsonValue`): JSON values, Python truthiness, and `str()`
  of a scalar.
- `digest.dfy` (module `Digest`): SHA-256 and HMAC-SHA256 as function types.
  Each returns a `HexDigest`, a string of 64 lowercase hex characters.
- `secure_api.dfy` (module `KeyVault`): the `SecureAPI` class, the payload
  rules, the signed string, the nonce, the outbound request, response
  decoding, and the errors.

Everything the client takes from outside arrives in one `Environment` value:

- the millisecond clock and the clock text that the nonce hashes;
- the 16 bytes of `os.urandom(16)`;
- whether `gl.get_webpage` exists;
- the reply the transport delivered;
- `json.loads`, as a partial function from text to `Option<Json>`;
- the two hash functions.

`Request`, `Get` and `Post` are methods. They return the payload, the
signature, the request that was sent and the outcome. Each result is tied to
the specification functions and predicates that the lemmas talk about.

Where the code and its comments disagree, the model follows the code:

- Inside GenVM, the code fetches only the bare `proxy_url + "/api/proxy"` in
  text mode (secure_api.py:130-133). It does not encode the payload or the
  signature into that URL, although the comment at secure_api.py:134-136 says
  the request is encoded so the proxy can parse it from a GET. The model sends
  `HostFetch(endpoint, "text")` and nothing else.
- The constructor does not validate anything. An empty alias or a malformed
  URL is accepted, and there is no configuration error.
- A malformed reply or a transport failure is not a typed error in the code.
  It is whatever exception `json.loads`, `urlopen` or `gl.get_webpage`
  raises. The model names these `MalformedReply` and `TransportFailure`.
- The error `status` is copied from the reply as it is, so it can be any JSON
  value and not only an integer.

## Model

| member | source | states |
|---|---|---|
| KeyVault.SecureAPI.constructor | sdk/gl_keyvault/secure_api.py:56-64 | alias and secret are stored unchanged; the stored URL is the input with every trailing `/` removed, a prefix of it, not ending in `/` |
| Text.StripTrailingSlashes | sdk/gl_keyvault/secure_api.py:63 | `rstrip("/")`: the result is a prefix of the input, does not end in `/`, and only `/` characters were removed |
| Text.StripTrailingSlashesIdempotent | sdk/gl_keyvault/secure_api.py:63 | stripping a stripped URL changes nothing |
| Text.StripTrailingSlashesUnique | sdk/gl_keyvault/secure_api.py:63 | those three properties determine the stripped URL uniquely |
| KeyVault.SecureAPI.ProxyEndpoint | sdk/gl_keyvault/secure_api.py:125 | the endpoint is the stored URL followed by `/api/proxy`, with no doubled `/` at the join |
| KeyVault.SecureAPI.BuildPayload | sdk/gl_keyvault/secure_api.py:107-119 | the payload holds alias, path, method, timestamp and nonce with the given values; `body` is present iff the body is truthy and the method is not GET; `headers` is present iff the headers are non-empty; no other key appears |
| KeyVault.PayloadIsUnique | sdk/gl_keyvault/secure_api.py:107-119 | the payload rules admit exactly one payload per argument list |
| KeyVault.SecureAPI.Sign | sdk/gl_keyvault/secure_api.py:166-184 | the signature is HMAC-SHA256 keyed with the secret over `alias:method:path:str(timestamp):nonce`, in that field order |
| Text.Join | sdk/gl_keyvault/secure_api.py:172 | Python `sep.join(parts)`; its behaviour on the signed fields is stated by `JoinFive` |
| Text.JoinFive | sdk/gl_keyvault/secure_api.py:172-178 | joining the five fields with `:` writes them out in list order with `:` between them |
| KeyVault.CanonicalStringExample | sdk/gl_keyvault/secure_api.py:170-178 | worked example: openweather, GET, `/data/2.5/weather?q=Tokyo`, 1700000000000, abc123 sign as `openweather:GET:/data/2.5/weather?q=Tokyo:1700000000000:abc123` |
| KeyVault.CanonicalStringDeterminesTimestampAndNonce | sdk/gl_keyvault/secure_api.py:172-178 | when the nonces hold no `:`, equal signed strings have equal timestamps, equal nonces and equal `alias:method:path` prefixes |
| KeyVault.EqualSignedStringsShareTimestampAndNonce | sdk/gl_keyvault/secure_api.py:103-122 | two payloads built by `_request` whose signed strings are equal share their timestamp and nonce |
| KeyVault.CanonicalStringAmbiguousInAlias | sdk/gl_keyvault/secure_api.py:172-178 | fields are joined without escaping, so a `:` in the alias can shift a field boundary and leave the signed string unchanged |
| KeyVault.SignatureIgnoresBodyAndHeaders | sdk/gl_keyvault/secure_api.py:166-184 | payloads that agree on the five signed fields get the same signature, whatever their `body` and `headers` |
| KeyVault.SameSignatureForAnyBodyAndHeaders | sdk/gl_keyvault/secure_api.py:107-122 | two payloads built for the same alias, method, path, timestamp and nonce get the same signature, whatever their bodies and headers |
| KeyVault.SigningHasNoHiddenState | sdk/gl_keyvault/secure_api.py:180-184 | two clients with the same secret sign every payload alike |
| Text.Decimal | sdk/gl_keyvault/secure_api.py:176 | `str(n)` is a non-empty digit string with no leading zero |
| Text.ParseDecimalOfDecimal | sdk/gl_keyvault/secure_api.py:176 | reading `str(n)` back gives `n` |
| Text.DecimalInjective | sdk/gl_keyvault/secure_api.py:176 | distinct timestamps give distinct numerals |
| Text.IntText | sdk/gl_keyvault/secure_api.py:176 | `str(i)` for any integer is a sign followed by `Decimal`, and holds no `:` |
| Text.ParseIntOfIntText | sdk/gl_keyvault/secure_api.py:176 | reading `str(i)` back gives `i`, negatives included |
| KeyVault.GenerateNonce | sdk/gl_keyvault/secure_api.py:186-191 | the nonce is a prefix of the SHA-256 digest of clock text plus random hex; it is exactly 32 characters, all in `[0-9a-f]`, so never contains `:` |
| Text.HexOfBytes | sdk/gl_keyvault/secure_api.py:190 | `bytes.hex()` gives two lowercase hex digits per byte, high nibble first |
| Digest.HexHasNoColon | sdk/gl_keyvault/secure_api.py:189-191 | a lowercase hex string holds no `:` |
| KeyVault.SecureAPI.Request | sdk/gl_keyvault/secure_api.py:93-164 | the payload follows the payload rules for the client's alias, the clock and the generated nonce; the signature is HMAC over their canonical string; in GenVM the bare endpoint is fetched as text; otherwise a POST to the endpoint is sent, whatever the logical method, with `Authorization: Signature <hex>`, the JSON content type, the payload as body and a 10-second timeout; the outcome is the decoded reply |
| KeyVault.SecureAPI.Get | sdk/gl_keyvault/secure_api.py:66-77 | the payload follows the payload rules for method GET, so it never has `body`; the signature is HMAC over its canonical string; in GenVM the bare endpoint is fetched as text; otherwise a POST to the endpoint is sent with `Authorization: Signature <hex>`, the JSON content type, the payload as body and a 10-second timeout; the outcome is the decoded reply |
| KeyVault.SecureAPI.Post | sdk/gl_keyvault/secure_api.py:79-91 | the payload follows the payload rules for method POST, so `body` is present iff the body is truthy; the signature, the request sent in and outside GenVM, and the outcome are as for `Get` |
| KeyVault.ReadReply | sdk/gl_keyvault/secure_api.py:127-164 | success iff the reply arrived, parsed, and decoded without `error`; a transport failure, an unparsable reply, and a proxy error each surface as their own error |
| KeyVault.DecodeResponse | sdk/gl_keyvault/secure_api.py:155-164 | the `isinstance(response, dict)` test and the `error`/`data` lookups; its behaviour is stated by `DecodeResponseCases` and `DecodeResponseOpensEnvelope` |
| KeyVault.DecodeResponseCases | sdk/gl_keyvault/secure_api.py:155-164 | an object with `error` fails, whatever else it holds, with the reply's `status` or 500; any other object yields its `data` if present, else itself; a non-object is returned unchanged |
| KeyVault.DecodeResponseOpensEnvelope | sdk/gl_keyvault/secure_api.py:155-164 | decoding inverts the proxy's `{"data": ...}` and `{"error": ..., "status": ...}` envelopes |
| KeyVault.DecodeResponseExamples | sdk/gl_keyvault/secure_api.py:155-164 | worked examples: enveloped and bare `{"temp": 20}` both yield `{"temp": 20}`; `{"error": "bad alias", "status": 404}` fails with status 404 and message `Proxy error: bad alias` |
| KeyVault.KeyVaultError.Message | sdk/gl_keyvault/secure_api.py:158-161 | for a scalar `error` value the message is `Proxy error: ` followed by its Python `str()` |
| JsonValue.Truthy | sdk/gl_keyvault/secure_api.py:115-118 | Python truthiness of `body` and `headers`: `None`, `False`, `0`, `""`, `[]` and `{}` are false; used by the payload rules that `BuildPayload` ensures |
| JsonValue.ScalarText | sdk/gl_keyvault/secure_api.py:159 | Python `str()` of a scalar: `None`, `True` or `False`, the integer's `str(int)` (readable back), the string itself |

## Left out

- HMAC-SHA256 and SHA-256 internals are library calls. They are function-typed parameters whose only known property is the 64-character lowercase hex result. The UTF-8 encoding of key and message before hashing is folded into these functions.
- Whether distinct signed strings give distinct signatures is not modelled, because it is a cryptographic property of HMAC.
- The clock (`time.time()`) and `os.urandom(16)` are parameters: a `nat` millisecond timestamp, the float's text, and 16 bytes. Float rounding in `int(time.time() * 1000)` is not modelled.
- Nonce uniqueness across many calls is not modelled. It is probabilistic and depends on the randomness source.
- `json.loads` is a partial function parameter. `json.dumps` is not modelled: the outbound body is the payload as a JSON value, not its text. Dictionary key order on the wire is therefore not modelled.
- JSON floating-point numbers are not modelled.
- Network I/O is left out: both `gl.get_webpage` and `urllib.request.urlopen`. The model records the request that would be sent, including the 10-second timeout, and takes the reply as an input.
- Failure to decode the reply bytes as UTF-8 is not modelled; the reply is taken as text.
- HTTP status codes are not modelled. Outside GenVM, `urlopen` raises `HTTPError` on a 4xx or 5xx reply before `json.loads` runs (secure_api.py:152-153). So `Delivered` stands for a 2xx reply, and an error envelope sent with a non-2xx status is a `TransportFailure`, not a `KeyVaultError`.
- Environment defaults for the proxy URL and the HMAC secret (`os.environ`) are not modelled. The constructor takes both as arguments.
- A call to `get` or `post` with `headers=None` is modelled as an empty header map, and a missing body as `JNull`. Both are falsy, so the payload is the same.
- KeyVault.KeyVaultError.Message: renders the message only when the `error` value is a scalar. Python's `str()` of a list or dict depends on key order and quoting, which a JSON value here does not keep. The error still carries the `error` value itself.
- The `KeyVaultError` class default of 500 for `status` is never exercised in the source, because its only raise site always passes a status. The model keeps the 500 default that the raise site applies.
- The example contracts under contracts/examples/ are not part of this model. They consist of GenVM runtime calls and LLM prompts.
- Packaging (sdk/setup.py) and the package re-export (sdk/gl_keyvault/__init__.py) have no behaviour and are not modelled.
