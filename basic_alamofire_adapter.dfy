/** `BasicAlamofireAdapter`: a stateless struct mapping Gloss methods and Alamofire responses
    into each other's terms. */
module BasicAlamofireAdapter {
  import opened Wrappers
  import opened GlossErrors
  import opened Methods
  import opened Requests
  import AlamofireNetworkRequestManager

  /** `alamofireMethodForGlossMethod`: each of the nine methods goes to the Alamofire method of the
      same name. */
  function AlamofireMethodForGlossMethod(glossMethod: HTTPMethod): (r: AlamofireMethod)
    ensures r.RawValue() == glossMethod.Name()
  {
    match glossMethod
    case CONNECT => AlamofireMethod.CONNECT
    case DELETE => AlamofireMethod.DELETE
    case GET => AlamofireMethod.GET
    case HEAD => AlamofireMethod.HEAD
    case OPTIONS => AlamofireMethod.OPTIONS
    case PATCH => AlamofireMethod.PATCH
    case POST => AlamofireMethod.POST
    case PUT => AlamofireMethod.PUT
    case TRACE => AlamofireMethod.TRACE
  }

  /** Distinct Gloss methods map to distinct Alamofire methods. */
  lemma AlamofireMethodForGlossMethodInjective(a: HTTPMethod, b: HTTPMethod)
    ensures AlamofireMethodForGlossMethod(a) == AlamofireMethodForGlossMethod(b) ==> a == b
  {
  }

  /** The adapter and the request manager map every method the same way. */
  lemma MethodMappingsAgree(glossMethod: HTTPMethod)
    ensures AlamofireMethodForGlossMethod(glossMethod)
         == AlamofireNetworkRequestManager.AlamofireMethodForMethod(glossMethod)
  {
  }

  /** `glossResultForAlamofireResponse`: a success becomes `Result(value:)` and a failure
      `Result(error:)`, each with the same payload. */
  function GlossResultForAlamofireResponse<T>(response: Response<T>): (r: GlossResult<T>)
    ensures r.WithValue? <==> response.result.Success?
    ensures r.WithValue? ==> r.value == response.result.value
    ensures r.WithError? ==> r.error == response.result.error
  {
    match response.result
    case Success(value) => WithValue(value)
    case Failure(error) => WithError(error)
  }

  /** Distinct Alamofire responses give distinct Gloss results. */
  lemma GlossResultForAlamofireResponseInjective<T>(a: Response<T>, b: Response<T>)
    ensures GlossResultForAlamofireResponse(a) == GlossResultForAlamofireResponse(b) ==> a == b
  {
  }
}
