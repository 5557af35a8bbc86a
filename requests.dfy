/** What the bridge hands to Alamofire and what it gets back. */
module Requests {
  import opened Wrappers
  import opened Json
  import opened GlossErrors
  import opened Methods

  /** Alamofire's `ParameterEncoding`; the payloads of `.PropertyList` and `.Custom` are not modelled. */
  datatype ParameterEncoding = URL | URLEncodedInURL | JSONEncoding | PropertyList | Custom

  /** The arguments of one `Alamofire.request(method, URLString, parameters:, encoding:, headers:)`
      call. A parameter value (`AnyObject`) is modelled as a JSON value. */
  datatype RequestSpec = RequestSpec(
    requestMethod: AlamofireMethod,
    urlString: string,
    parameters: Option<map<string, JSON>>,
    encoding: ParameterEncoding,
    headers: Option<map<string, string>>)

  /** Alamofire's `Response<Value, NSError>`; only its `result` is read by the bridge. */
  datatype Response<+T> = Response(result: Result<T, NSError>)

  /** Gloss's own `Result<T>`, built by `Result(value:)` or `Result(error:)`. */
  datatype GlossResult<+T> = WithValue(value: T) | WithError(error: NSError)

  /** The `(value: T?, error: NSError?)` pair a completion closure receives. */
  datatype Pair<+T> = Pair(value: Option<T>, error: Option<NSError>)

  /** One request: the call issued to Alamofire and the value its completion is invoked with. */
  datatype Call<+R> = Call(spec: RequestSpec, delivered: R)
}
