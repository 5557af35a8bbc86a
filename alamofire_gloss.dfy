/** The free `request` functions of Alamofire+Gloss.swift. They call the global
    `alamofireNetworkRequestManager`, which is an `AlamofireNetworkRequestManager` built once. */
module AlamofireGloss {
  import opened Wrappers
  import opened Json
  import opened GlossErrors
  import opened Methods
  import opened Requests
  import opened AlamofireNetworkRequestManager
  import AlamofireGlossRequest

  /** `request` with `String` URL and a `(T?, NSError?)` completion. The caller's parameters,
      encoding and headers are dropped: the manager is always given nil for both maps. */
  function Request<T>(
    glossMethod: HTTPMethod, urlString: string,
    parameters: Option<map<string, JSON>>, encoding: ParameterEncoding, headers: Option<map<string, string>>,
    decode: map<string, JSON> -> Option<T>, describe: JSON -> string,
    parsed: Result<JSON, NSError>): (c: Call<Pair<T>>)
    ensures c.spec == IssuedRequest(glossMethod, urlString, None, None)
    ensures c.spec.parameters.None? && c.spec.headers.None? && c.spec.encoding == URL
    ensures c.delivered.value.Some? != c.delivered.error.Some?
    ensures ResultForPair(c.delivered) == AlamofireGlossRequest.DecodableJSONResponseSerializer(decode, describe, parsed)
  {
    NetworkRequest(glossMethod, urlString, None, None, decode, describe, parsed)
  }

  /** `request` with `String` URL and a `([T]?, NSError?)` completion; drops the same arguments. */
  function RequestArray<T>(
    glossMethod: HTTPMethod, urlString: string,
    parameters: Option<map<string, JSON>>, encoding: ParameterEncoding, headers: Option<map<string, string>>,
    fromJSONArray: seq<map<string, JSON>> -> seq<T>, describe: JSON -> string,
    parsed: Result<JSON, NSError>): (c: Call<Pair<seq<T>>>)
    ensures c.spec == IssuedRequest(glossMethod, urlString, None, None)
    ensures c.spec.parameters.None? && c.spec.headers.None? && c.spec.encoding == URL
    ensures c.delivered.value.Some? != c.delivered.error.Some?
    ensures ResultForPair(c.delivered)
         == AlamofireGlossRequest.DecodableJSONArrayResponseSerializer(fromJSONArray, describe, parsed)
  {
    NetworkRequestArray(glossMethod, urlString, None, None, fromJSONArray, describe, parsed)
  }

  /** `request` with a `URLStringConvertible` URL and a `Result<T, NSError>` completion. It forwards
      only the method and `URLString.URLString` (parameters, encoding and headers take their
      defaults), and the caller receives exactly the serializer's result. */
  function RequestResult<U, T>(
    glossMethod: HTTPMethod, url: U, urlStringOf: U -> string,
    parameters: Option<map<string, JSON>>, encoding: ParameterEncoding, headers: Option<map<string, string>>,
    decode: map<string, JSON> -> Option<T>, describe: JSON -> string,
    parsed: Result<JSON, NSError>): (c: Call<Result<T, NSError>>)
    ensures c.spec == IssuedRequest(glossMethod, urlStringOf(url), None, None)
    ensures c.delivered == AlamofireGlossRequest.DecodableJSONResponseSerializer(decode, describe, parsed)
  {
    var inner := Request(glossMethod, urlStringOf(url), None, URL, None, decode, describe, parsed);
    Call(inner.spec, ResultForPair(inner.delivered))
  }

  /** `request` with a `URLStringConvertible` URL and a `Result<[T], NSError>` completion. */
  function RequestArrayResult<U, T>(
    glossMethod: HTTPMethod, url: U, urlStringOf: U -> string,
    parameters: Option<map<string, JSON>>, encoding: ParameterEncoding, headers: Option<map<string, string>>,
    fromJSONArray: seq<map<string, JSON>> -> seq<T>, describe: JSON -> string,
    parsed: Result<JSON, NSError>): (c: Call<Result<seq<T>, NSError>>)
    ensures c.spec == IssuedRequest(glossMethod, urlStringOf(url), None, None)
    ensures c.delivered
         == AlamofireGlossRequest.DecodableJSONArrayResponseSerializer(fromJSONArray, describe, parsed)
  {
    var inner := RequestArray(glossMethod, urlStringOf(url), None, URL, None, fromJSONArray, describe, parsed);
    Call(inner.spec, ResultForPair(inner.delivered))
  }

  /** Whatever parameters, encoding and headers the caller passes, the same request is issued and
      the same result delivered. */
  lemma RequestIgnoresCallerArguments<U, T>(
    glossMethod: HTTPMethod, url: U, urlStringOf: U -> string,
    parameters1: Option<map<string, JSON>>, encoding1: ParameterEncoding, headers1: Option<map<string, string>>,
    parameters2: Option<map<string, JSON>>, encoding2: ParameterEncoding, headers2: Option<map<string, string>>,
    decode: map<string, JSON> -> Option<T>, describe: JSON -> string, parsed: Result<JSON, NSError>)
    ensures RequestResult(glossMethod, url, urlStringOf, parameters1, encoding1, headers1, decode, describe, parsed)
         == RequestResult(glossMethod, url, urlStringOf, parameters2, encoding2, headers2, decode, describe, parsed)
  {
  }

  /** The caller's parameters and headers never reach Alamofire, through either kind of overload. */
  lemma DroppedArgumentsExample<T>(
    decode: map<string, JSON> -> Option<T>, fromJSONArray: seq<map<string, JSON>> -> seq<T>,
    describe: JSON -> string, parsed: Result<JSON, NSError>)
    ensures var parameters, headers := Some(map["page" := Num(2)]), Some(map["Accept" := "application/json"]);
      && Request(HTTPMethod.GET, "https://api.github.com/repos", parameters, URL, headers, decode, describe, parsed).spec.parameters != parameters
      && Request(HTTPMethod.GET, "https://api.github.com/repos", parameters, URL, headers, decode, describe, parsed).spec.headers != headers
      && RequestArray(HTTPMethod.GET, "https://api.github.com/repos", parameters, URL, headers, fromJSONArray, describe, parsed).spec.parameters != parameters
      && RequestArray(HTTPMethod.GET, "https://api.github.com/repos", parameters, URL, headers, fromJSONArray, describe, parsed).spec.headers != headers
  {
  }

  /** The caller's parameters and headers are lost by the `URLStringConvertible` overloads too. */
  lemma DroppedArgumentsResultExample<T>(
    decode: map<string, JSON> -> Option<T>, fromJSONArray: seq<map<string, JSON>> -> seq<T>,
    describe: JSON -> string, parsed: Result<JSON, NSError>)
    ensures var parameters, headers := Some(map["page" := Num(2)]), Some(map["Accept" := "application/json"]);
      var asString := (s: string) => s;
      && RequestResult(HTTPMethod.GET, "https://api.github.com/repos", asString, parameters, URL, headers, decode, describe, parsed).spec.parameters != parameters
      && RequestResult(HTTPMethod.GET, "https://api.github.com/repos", asString, parameters, URL, headers, decode, describe, parsed).spec.headers != headers
      && RequestArrayResult(HTTPMethod.GET, "https://api.github.com/repos", asString, parameters, URL, headers, fromJSONArray, describe, parsed).spec.parameters != parameters
      && RequestArrayResult(HTTPMethod.GET, "https://api.github.com/repos", asString, parameters, URL, headers, fromJSONArray, describe, parsed).spec.headers != headers
  {
  }

  // Corrected overloads: they pass the caller's parameters and headers on to the manager. The
  // encoding still cannot be forwarded, because the manager always asks Alamofire for `.URL`.

  /** `request` with `String` URL and a `(T?, NSError?)` completion, forwarding its arguments. */
  function ForwardingRequest<T>(
    glossMethod: HTTPMethod, urlString: string,
    parameters: Option<map<string, JSON>>, encoding: ParameterEncoding, headers: Option<map<string, string>>,
    decode: map<string, JSON> -> Option<T>, describe: JSON -> string,
    parsed: Result<JSON, NSError>): (c: Call<Pair<T>>)
    ensures c.spec == IssuedRequest(glossMethod, urlString, parameters, headers)
    ensures c.spec.parameters == parameters && c.spec.headers == headers
    ensures c.delivered.value.Some? != c.delivered.error.Some?
    ensures ResultForPair(c.delivered) == AlamofireGlossRequest.DecodableJSONResponseSerializer(decode, describe, parsed)
  {
    NetworkRequest(glossMethod, urlString, parameters, headers, decode, describe, parsed)
  }

  /** `request` with `String` URL and a `([T]?, NSError?)` completion, forwarding its arguments. */
  function ForwardingRequestArray<T>(
    glossMethod: HTTPMethod, urlString: string,
    parameters: Option<map<string, JSON>>, encoding: ParameterEncoding, headers: Option<map<string, string>>,
    fromJSONArray: seq<map<string, JSON>> -> seq<T>, describe: JSON -> string,
    parsed: Result<JSON, NSError>): (c: Call<Pair<seq<T>>>)
    ensures c.spec == IssuedRequest(glossMethod, urlString, parameters, headers)
    ensures c.spec.parameters == parameters && c.spec.headers == headers
    ensures c.delivered.value.Some? != c.delivered.error.Some?
    ensures ResultForPair(c.delivered)
         == AlamofireGlossRequest.DecodableJSONArrayResponseSerializer(fromJSONArray, describe, parsed)
  {
    NetworkRequestArray(glossMethod, urlString, parameters, headers, fromJSONArray, describe, parsed)
  }

  /** `request` with a `URLStringConvertible` URL and a `Result<T, NSError>` completion, forwarding
      its arguments. */
  function ForwardingRequestResult<U, T>(
    glossMethod: HTTPMethod, url: U, urlStringOf: U -> string,
    parameters: Option<map<string, JSON>>, encoding: ParameterEncoding, headers: Option<map<string, string>>,
    decode: map<string, JSON> -> Option<T>, describe: JSON -> string,
    parsed: Result<JSON, NSError>): (c: Call<Result<T, NSError>>)
    ensures c.spec == IssuedRequest(glossMethod, urlStringOf(url), parameters, headers)
    ensures c.delivered == AlamofireGlossRequest.DecodableJSONResponseSerializer(decode, describe, parsed)
  {
    var inner := ForwardingRequest(glossMethod, urlStringOf(url), parameters, encoding, headers, decode, describe, parsed);
    Call(inner.spec, ResultForPair(inner.delivered))
  }

  /** `request` with a `URLStringConvertible` URL and a `Result<[T], NSError>` completion,
      forwarding its arguments. */
  function ForwardingRequestArrayResult<U, T>(
    glossMethod: HTTPMethod, url: U, urlStringOf: U -> string,
    parameters: Option<map<string, JSON>>, encoding: ParameterEncoding, headers: Option<map<string, string>>,
    fromJSONArray: seq<map<string, JSON>> -> seq<T>, describe: JSON -> string,
    parsed: Result<JSON, NSError>): (c: Call<Result<seq<T>, NSError>>)
    ensures c.spec == IssuedRequest(glossMethod, urlStringOf(url), parameters, headers)
    ensures c.delivered
         == AlamofireGlossRequest.DecodableJSONArrayResponseSerializer(fromJSONArray, describe, parsed)
  {
    var inner := ForwardingRequestArray(glossMethod, urlStringOf(url), parameters, encoding, headers, fromJSONArray, describe, parsed);
    Call(inner.spec, ResultForPair(inner.delivered))
  }
}
