# Gloss networking bridge for Alamofire, modelled in Dafny

Gloss turns JSON into typed Swift values. Its Alamofire networking layer connects that decoding
to Alamofire's HTTP requests. The layer has four parts:

- **Response serializers** (`DecodableJSONResponseSerializer`, for one object and for an array).
  Each takes the outcome of Alamofire's JSON parse. A parse failure is passed through unchanged.
  Otherwise the parsed value is cast to a JSON object, or to an array of JSON objects, and
  decoded. A value of the wrong shape, or an object that `T(json:)` rejects, becomes an
  `NSError`. That error has domain `com.harlankellaway.Gloss`, code 1, and a description starting
  with `JSON could not be serialized into response object: `. The serializers exist twice, in
  Alamofire+Gloss.swift and in ExtensionRequest.swift.
- **`AlamofireNetworkRequestManager`**. It maps the Gloss method to Alamofire's method and issues
  `Alamofire.request` with URL encoding. Its closures convert the serializer's `Result` into a
  `(value, error)` pair and back.
- **The free `request` functions** of Alamofire+Gloss.swift. They forward to a global manager.
- **`BasicAlamofireAdapter`**. It maps methods and converts an Alamofire response into a Gloss
  `Result`.

All of this code is pure, so the model uses only datatypes, functions and lemmas:

- An Alamofire request is recorded as a `RequestSpec` value: method, URL string, parameters,
  encoding and headers.
- The response arrives as an input: the `Result<JSON, NSError>` produced by Alamofire's JSON
  response serializer.
- `T(json:)`, `[T].fromJSONArray` and the rendering of `\(value)` are function parameters.
- A `Call` value pairs the issued request with the value the completion closure is called with.

Modules: `Wrappers` (Option, Result), `Json` (the JSON tree and the `as?` casts), `GlossErrors`
(`NSError` and the serialization error), `Methods` (the two method enums), `Requests` (request,
response and completion values), `AlamofireGlossRequest` and `ExtensionRequest` (the two
serializer copies), `AlamofireNetworkRequestManager`, `AlamofireGloss` (the free functions) and
`BasicAlamofireAdapter`.

The source declares `responseDecodable` and both serializers in two files. Compiled into one
target, these would be duplicate declarations. The manager's path is modelled with the
Alamofire+Gloss.swift copy. `ExtensionRequest.ObjectSerializersAgree` and
`ExtensionRequest.ArraySerializersAgree` prove the two copies equal, so the choice changes nothing.

The manager uses `Gloss.Method` and the adapter uses `HTTPMethod`. Neither declaration is part of
this model. Both are modelled as one nine-case enum, `Methods.HTTPMethod`.

## Model

| member | source | states |
|---|---|---|
| Json.AsObject | Sources/Networking/Alamofire/Alamofire+Gloss.swift:175 | `value as? JSON` succeeds exactly on a JSON object and yields its fields |
| Json.CastObjects | Sources/Networking/Alamofire/Alamofire+Gloss.swift:207 | bridging to `[JSON]` succeeds exactly when every element is an object; the result has the same length, and element i is the fields of element i |
| Json.AsObjectArray | Sources/Networking/Alamofire/Alamofire+Gloss.swift:207 | `value as? [JSON]` succeeds exactly on an array of objects, the empty array included, and keeps order and length |
| Json.CastObjectsOfObjects | Sources/Networking/Alamofire/Alamofire+Gloss.swift:207 | an array built from objects casts back to exactly those objects |
| GlossErrors.SerializationError | Sources/Networking/Alamofire/Alamofire+Gloss.swift:179-180 | the error has domain "com.harlankellaway.Gloss" and code 1; its description is the fixed prefix followed by the rendering of the value |
| AlamofireGlossRequest.DecodableJSONResponseSerializer | Sources/Networking/Alamofire/Alamofire+Gloss.swift:165-190 | a parse failure is returned unchanged; success iff the value is an object that decode accepts, and then exactly the decoded value; every other case is the serialization error for that value |
| AlamofireGlossRequest.DecodableJSONArrayResponseSerializer | Sources/Networking/Alamofire/Alamofire+Gloss.swift:197-223 | a parse failure is returned unchanged; success iff the value is an array whose elements are all objects, and then `fromJSONArray` of those objects; otherwise the serialization error |
| AlamofireGlossRequest.ParseFailureIgnoresDecode | Sources/Networking/Alamofire/Alamofire+Gloss.swift:184-185 | on a parse failure the result does not depend on decode or on the description function: neither is used |
| AlamofireGlossRequest.ObjectFailureIsSerializationError | Sources/Networking/Alamofire/Alamofire+Gloss.swift:178-182 | a non-object value or a rejected object fails with domain "com.harlankellaway.Gloss", code 1 and the fixed description prefix |
| AlamofireGlossRequest.ArrayOfObjectsSucceeds | Sources/Networking/Alamofire/Alamofire+Gloss.swift:206-210 | any array of objects, the empty one included, succeeds with `fromJSONArray` of exactly those objects |
| AlamofireGlossRequest.ArrayWithNonObjectFails | Sources/Networking/Alamofire/Alamofire+Gloss.swift:211-215 | an array with a non-object element fails with the serialization error of the whole array |
| ExtensionRequest.DecodableJSONResponseSerializer | Sources/Networking/Alamofire/ExtensionRequest.swift:54-79 | the same contract as the Alamofire+Gloss.swift copy: passthrough, success iff object and decode succeeds, else the code-1 Gloss error |
| ExtensionRequest.DecodableJSONArrayResponseSerializer | Sources/Networking/Alamofire/ExtensionRequest.swift:86-112 | the same contract as the Alamofire+Gloss.swift array copy |
| ExtensionRequest.ObjectSerializersAgree | Sources/Networking/Alamofire/ExtensionRequest.swift:54-79 | the two single-object serializers give the same result on every input |
| ExtensionRequest.ArraySerializersAgree | Sources/Networking/Alamofire/ExtensionRequest.swift:86-112 | the two array serializers give the same result on every input |
| AlamofireNetworkRequestManager.AlamofireMethodForMethod | Sources/Networking/Alamofire/AlamofireNetworkRequestManager.swift:112-133 | total; each Gloss method maps to the Alamofire method of the same name |
| AlamofireNetworkRequestManager.AlamofireMethodForMethodInjective | Sources/Networking/Alamofire/AlamofireNetworkRequestManager.swift:112-133 | distinct Gloss methods map to distinct Alamofire methods |
| AlamofireNetworkRequestManager.ResultForPair | Sources/Networking/Alamofire/AlamofireNetworkRequestManager.swift:43-52 | a present error gives `Failure(error)` whatever the value; otherwise `Success` of the value, which the force-unwrap requires to be present |
| AlamofireNetworkRequestManager.ResponseCompletion | Sources/Networking/Alamofire/AlamofireNetworkRequestManager.swift:79-88 | `Success(v)` gives `(v, nil)` and `Failure(e)` gives `(nil, e)`: exactly one component is present |
| AlamofireNetworkRequestManager.ResultRoundTrip | Sources/Networking/Alamofire/AlamofireNetworkRequestManager.swift:43-54 | a result sent through `responseCompletion` and then through the pair adapter comes back unchanged |
| AlamofireNetworkRequestManager.PairRoundTrip | Sources/Networking/Alamofire/AlamofireNetworkRequestManager.swift:79-88 | a pair with exactly one component present comes back unchanged from the opposite round trip |
| AlamofireNetworkRequestManager.IssuedRequest | Sources/Networking/Alamofire/AlamofireNetworkRequestManager.swift:90 | the issued request has the same-named method, the same URL string, parameters and headers unchanged, and `.URL` encoding |
| AlamofireNetworkRequestManager.NetworkRequest | Sources/Networking/Alamofire/AlamofireNetworkRequestManager.swift:76-91 | issues that request; the completion gets exactly one component: `(nil, e)` for a parse failure `e`, `(v, nil)` for an object decoded to `v`, otherwise `(nil, serialization error)` |
| AlamofireNetworkRequestManager.NetworkRequestArray | Sources/Networking/Alamofire/AlamofireNetworkRequestManager.swift:93-108 | as above for arrays: `(fromJSONArray(objects), nil)` for an array of objects, the parse error or the serialization error otherwise |
| AlamofireNetworkRequestManager.NetworkRequestResult | Sources/Networking/Alamofire/AlamofireNetworkRequestManager.swift:42-55 | forwards `URLString.URLString`, parameters and headers unchanged, and the caller receives exactly the single-object serializer's result |
| AlamofireNetworkRequestManager.NetworkRequestArrayResult | Sources/Networking/Alamofire/AlamofireNetworkRequestManager.swift:57-70 | the same forwarding, and the caller receives exactly the array serializer's result |
| AlamofireGloss.Request | Sources/Networking/Alamofire/Alamofire+Gloss.swift:109-118 | the manager always gets nil parameters and headers and issues `.URL` encoding, whatever the caller passed; exactly one pair component is present, and converting the pair back gives the serializer's result |
| AlamofireGloss.RequestArray | Sources/Networking/Alamofire/Alamofire+Gloss.swift:129-138 | the same for arrays |
| AlamofireGloss.RequestResult | Sources/Networking/Alamofire/Alamofire+Gloss.swift:47-67 | forwards only the method and `URLString.URLString`; the caller receives exactly the single-object serializer's result |
| AlamofireGloss.RequestArrayResult | Sources/Networking/Alamofire/Alamofire+Gloss.swift:78-98 | the same for arrays |
| AlamofireGloss.RequestIgnoresCallerArguments | Sources/Networking/Alamofire/Alamofire+Gloss.swift:66 | two calls that differ only in parameters, encoding and headers issue the same request and deliver the same result |
| AlamofireGloss.DroppedArgumentsExample | Sources/Networking/Alamofire/Alamofire+Gloss.swift:117 | concrete parameters and headers given to the `String` overloads do not appear in the issued request |
| AlamofireGloss.DroppedArgumentsResultExample | Sources/Networking/Alamofire/Alamofire+Gloss.swift:66 | concrete parameters and headers given to the `URLStringConvertible` overloads do not appear in the issued request |
| AlamofireGloss.ForwardingRequest | Sources/Networking/Alamofire/Alamofire+Gloss.swift:109-118 | corrected: the issued request carries the caller's parameters and headers; the delivered pair converts back to the serializer's result |
| AlamofireGloss.ForwardingRequestArray | Sources/Networking/Alamofire/Alamofire+Gloss.swift:129-138 | corrected array counterpart of the above |
| AlamofireGloss.ForwardingRequestResult | Sources/Networking/Alamofire/Alamofire+Gloss.swift:47-67 | corrected: forwards parameters and headers; the caller receives exactly the serializer's result |
| AlamofireGloss.ForwardingRequestArrayResult | Sources/Networking/Alamofire/Alamofire+Gloss.swift:78-98 | corrected array counterpart of the above |
| BasicAlamofireAdapter.AlamofireMethodForGlossMethod | Sources/Networking/Alamofire/BasicAlamofireAdapter.swift:44-65 | total over the nine methods; each maps to the Alamofire method of the same name |
| BasicAlamofireAdapter.AlamofireMethodForGlossMethodInjective | Sources/Networking/Alamofire/BasicAlamofireAdapter.swift:44-65 | distinct methods map to distinct Alamofire methods |
| BasicAlamofireAdapter.MethodMappingsAgree | Sources/Networking/Alamofire/BasicAlamofireAdapter.swift:44-65 | the adapter's mapping and the manager's `alamofireMethodForMethod` agree on every method |
| BasicAlamofireAdapter.GlossResultForAlamofireResponse | Sources/Networking/Alamofire/BasicAlamofireAdapter.swift:67-74 | success stays success with the same value (`Result(value:)`), and failure stays failure with the same error (`Result(error:)`) |
| BasicAlamofireAdapter.GlossResultForAlamofireResponseInjective | Sources/Networking/Alamofire/BasicAlamofireAdapter.swift:67-74 | distinct responses give distinct Gloss results |
| Methods.RawValueInjective | Sources/Networking/Alamofire/AlamofireNetworkRequestManager.swift:112-133 | distinct Alamofire methods have distinct raw values, so name preservation determines the mapped case |

## Left out

- Alamofire itself is not part of this model: `Alamofire.request`, `Request.response`, the network
  call and `JSONResponseSerializer`. Its outcome is an input `Result<JSON, NSError>`, and the
  request is a recorded `RequestSpec`.
- `T(json:)`, `[T].fromJSONArray` and the `JSON` type alias are not part of this model. They are
  function parameters, and no tolerant-array or key-path behaviour is assumed of them.
- The rendering of `\(value)` in failure reasons is a parameter. Only the fixed prefix is pinned down.
- JSON numbers are integers. Floating-point values do not affect any branch of the bridge.
- Parameter values (`AnyObject`) are modelled as JSON values. The payloads of the `.PropertyList`
  and `.Custom` encodings are not modelled.
- Of Alamofire's `Response`, only `result` is modelled. Its request, HTTP response, data and
  timeline are not read by the bridge.
- Completion closures are modelled as the value they are called with. When they run, and on
  which thread, is not modelled.
- The struct initialisers `init()` of `AlamofireNetworkRequestManager` and
  `BasicAlamofireAdapter` are empty. The global `alamofireNetworkRequestManager` is built once and
  never changed, so it is not modelled as state.
- `responseDecodable` (Alamofire+Gloss.swift:147-158, ExtensionRequest.swift:36-47) only pairs a
  serializer with a completion. It is folded into `NetworkRequest` and `NetworkRequestArray`.
- Gloss+Networking.swift only forwards to a global manager. It builds that manager with an
  `init(adapter:)` that the modelled `AlamofireNetworkRequestManager` does not have.
- NetworkRequestManager.swift and DecodableResponseSerializer.swift declare protocols without
  bodies.
- The example app (view controller and reachability probe) is UI and network I/O.

## Findings

| source | as written | input that shows it | evidently intended | confidence | as-written member | corrected member |
|---|---|---|---|---|---|---|
| Sources/Networking/Alamofire/Alamofire+Gloss.swift:117, 137 | the `String` overloads accept `parameters`, `encoding` and `headers` but pass `parameters: nil, headers: nil` to the manager | `GET` of `https://api.github.com/repos` with parameters `["page": 2]` and header `Accept: application/json`: the issued request has neither | the caller's parameters and headers reach the request; encoding cannot, because the manager always sends `.URL` | medium, not executed | AlamofireGloss.DroppedArgumentsExample | AlamofireGloss.ForwardingRequest, AlamofireGloss.ForwardingRequestArray |
| Sources/Networking/Alamofire/Alamofire+Gloss.swift:66, 97 | the `URLStringConvertible` overloads call the `String` overload with only the method, the URL and the completion, so their `parameters`, `encoding` and `headers` are dropped | the same request through these overloads | parameters and headers are forwarded | medium, not executed | AlamofireGloss.DroppedArgumentsResultExample | AlamofireGloss.ForwardingRequestResult, AlamofireGloss.ForwardingRequestArrayResult |
