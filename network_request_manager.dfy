/** `AlamofireNetworkRequestManager`: a stateless struct that maps the Gloss method to Alamofire's,
    issues the request and converts between results and `(value, error)` pairs. */
module AlamofireNetworkRequestManager {
  import opened Wrappers
  import opened Json
  import opened GlossErrors
  import opened Methods
  import opened Requests
  import AlamofireGlossRequest

  /** `alamofireMethodForMethod`: every Gloss method goes to the Alamofire method of the same name. */
  function AlamofireMethodForMethod(glossMethod: HTTPMethod): (r: AlamofireMethod)
    ensures r.RawValue() == glossMethod.Name()
  {
    match glossMethod
    case CONNECT => AlamofireMethod.CONNECT
    case DELETE => AlamofireMethod.DELETE
    case GET => AlamofireMethod.GET
    case HEAD => AlamofireMethod.HEAD
    case OPTIONS => AlamofireMethod.OPTIONS
    case PATCH => AlamofireMethod.PATCH
    case POST => AlamofireMethod.POST
    case PUT => AlamofireMethod.PUT
    case TRACE => AlamofireMethod.TRACE
  }

  /** Distinct Gloss methods are sent as distinct Alamofire methods. */
  lemma AlamofireMethodForMethodInjective(a: HTTPMethod, b: HTTPMethod)
    ensures AlamofireMethodForMethod(a) == AlamofireMethodForMethod(b) ==> a == b
  {
  }

  /** The `completion` closures that turn a pair into a `Result`: a present error always wins,
      whatever the value; otherwise the value is force-unwrapped, so it must be present. */
  function ResultForPair<T>(pair: Pair<T>): (r: Result<T, NSError>)
    requires pair.error.Some? || pair.value.Some?
    ensures r.Failure? <==> pair.error.Some?
    ensures r.Failure? ==> Some(r.error) == pair.error
    ensures r.Success? ==> Some(r.value) == pair.value
  {
    match pair.error
    case Some(error) => Failure(error)
    case None => Success(pair.value.value)
  }

  /** The `responseCompletion` closures: exactly one component of the pair is present, the
      success value or the failure's error. */
  function ResponseCompletion<T>(response: Response<T>): (p: Pair<T>)
    ensures p.value.Some? != p.error.Some?
    ensures response.result.Success? ==> p.value == Some(response.result.value)
    ensures response.result.Failure? ==> p.error == Some(response.result.error)
  {
    match response.result
    case Success(value) => Pair(Some(value), None)
    case Failure(error) => Pair(None, Some(error))
  }

  /** A result sent through `responseCompletion` and back through the pair adapter is unchanged. */
  lemma ResultRoundTrip<T>(response: Response<T>)
    ensures ResultForPair(ResponseCompletion(response)) == response.result
  {
  }

  /** A pair with exactly one component present survives the opposite round trip. */
  lemma PairRoundTrip<T>(pair: Pair<T>)
    requires pair.value.Some? != pair.error.Some?
    ensures ResponseCompletion(Response(ResultForPair(pair))) == pair
  {
  }

  /** The call `Alamofire.request(requestMethod, URLString, parameters:, encoding: .URL, headers:)`:
      the mapped glossMethod, the URL string, parameters and headers as given, and URL encoding. */
  function IssuedRequest(
    glossMethod: HTTPMethod, urlString: string,
    parameters: Option<map<string, JSON>>, headers: Option<map<string, string>>): (spec: RequestSpec)
    ensures spec.requestMethod.RawValue() == glossMethod.Name()
    ensures spec.urlString == urlString
    ensures spec.parameters == parameters && spec.headers == headers
    ensures spec.encoding == URL
  {
    RequestSpec(AlamofireMethodForMethod(glossMethod), urlString, parameters, URL, headers)
  }

  /** `networkRequest` with `String` URL and a `(T?, NSError?)` completion. `parsed` is the outcome
      of Alamofire's JSON parse of the response to the issued request. */
  function NetworkRequest<T>(
    glossMethod: HTTPMethod, urlString: string,
    parameters: Option<map<string, JSON>>, headers: Option<map<string, string>>,
    decode: map<string, JSON> -> Option<T>, describe: JSON -> string,
    parsed: Result<JSON, NSError>): (c: Call<Pair<T>>)
    ensures c.spec == IssuedRequest(glossMethod, urlString, parameters, headers)
    ensures c.delivered.value.Some? != c.delivered.error.Some?
    ensures parsed.Failure? ==> c.delivered == Pair(None, Some(parsed.error))
    ensures parsed.Success? && parsed.value.Obj? && decode(parsed.value.fields).Some?
         ==> c.delivered == Pair(decode(parsed.value.fields), None)
    ensures parsed.Success? && !(parsed.value.Obj? && decode(parsed.value.fields).Some?)
         ==> c.delivered == Pair(None, Some(SerializationError(parsed.value, describe)))
  {
    var serialized := AlamofireGlossRequest.DecodableJSONResponseSerializer(decode, describe, parsed);
    Call(IssuedRequest(glossMethod, urlString, parameters, headers), ResponseCompletion(Response(serialized)))
  }

  /** `networkRequest` with `String` URL and a `([T]?, NSError?)` completion. */
  function NetworkRequestArray<T>(
    glossMethod: HTTPMethod, urlString: string,
    parameters: Option<map<string, JSON>>, headers: Option<map<string, string>>,
    fromJSONArray: seq<map<string, JSON>> -> seq<T>, describe: JSON -> string,
    parsed: Result<JSON, NSError>): (c: Call<Pair<seq<T>>>)
    ensures c.spec == IssuedRequest(glossMethod, urlString, parameters, headers)
    ensures c.delivered.value.Some? != c.delivered.error.Some?
    ensures parsed.Failure? ==> c.delivered == Pair(None, Some(parsed.error))
    ensures parsed.Success? && parsed.value.Arr? && AllObjects(parsed.value.elements)
         ==> c.delivered == Pair(Some(fromJSONArray(AsObjectArray(parsed.value).value)), None)
    ensures parsed.Success? && !(parsed.value.Arr? && AllObjects(parsed.value.elements))
         ==> c.delivered == Pair(None, Some(SerializationError(parsed.value, describe)))
  {
    var serialized := AlamofireGlossRequest.DecodableJSONArrayResponseSerializer(fromJSONArray, describe, parsed);
    Call(IssuedRequest(glossMethod, urlString, parameters, headers), ResponseCompletion(Response(serialized)))
  }

  /** `networkRequest` with a `URLStringConvertible` URL and a `Result<T, NSError>` completion.
      `urlStringOf` stands for the `URLString` property. The request is forwarded unchanged, and
      the caller receives exactly the serializer's result. */
  function NetworkRequestResult<U, T>(
    glossMethod: HTTPMethod, url: U, urlStringOf: U -> string,
    parameters: Option<map<string, JSON>>, headers: Option<map<string, string>>,
    decode: map<string, JSON> -> Option<T>, describe: JSON -> string,
    parsed: Result<JSON, NSError>): (c: Call<Result<T, NSError>>)
    ensures c.spec == IssuedRequest(glossMethod, urlStringOf(url), parameters, headers)
    ensures c.delivered == AlamofireGlossRequest.DecodableJSONResponseSerializer(decode, describe, parsed)
  {
    var inner := NetworkRequest(glossMethod, urlStringOf(url), parameters, headers, decode, describe, parsed);
    Call(inner.spec, ResultForPair(inner.delivered))
  }

  /** `networkRequest` with a `URLStringConvertible` URL and a `Result<[T], NSError>` completion. */
  function NetworkRequestArrayResult<U, T>(
    glossMethod: HTTPMethod, url: U, urlStringOf: U -> string,
    parameters: Option<map<string, JSON>>, headers: Option<map<string, string>>,
    fromJSONArray: seq<map<string, JSON>> -> seq<T>, describe: JSON -> string,
    parsed: Result<JSON, NSError>): (c: Call<Result<seq<T>, NSError>>)
    ensures c.spec == IssuedRequest(glossMethod, urlStringOf(url), parameters, headers)
    ensures c.delivered == AlamofireGlossRequest.DecodableJSONArrayResponseSerializer(fromJSONArray, describe, parsed)
  {
    var inner := NetworkRequestArray(glossMethod, urlStringOf(url), parameters, headers, fromJSONArray, describe, parsed);
    Call(inner.spec, ResultForPair(inner.delivered))
  }
}
