/** The request methods of Gloss and of Alamofire: the methods of section 4.3 of RFC 7231 and
    PATCH from RFC 5789. */
module Methods {

  /** Gloss's request method (`Gloss.Method`, also named `HTTPMethod`). */
  datatype HTTPMethod = CONNECT | DELETE | GET | HEAD | OPTIONS | PATCH | POST | PUT | TRACE
  {
    /** The case name, which is also the method token on the wire. */
    function Name(): string
    {
      match this
      case CONNECT => "CONNECT"
      case DELETE => "DELETE"
      case GET => "GET"
      case HEAD => "HEAD"
      case OPTIONS => "OPTIONS"
      case PATCH => "PATCH"
      case POST => "POST"
      case PUT => "PUT"
      case TRACE => "TRACE"
    }
  }

  /** Alamofire's `Method`, a `String`-backed enum. */
  datatype AlamofireMethod = OPTIONS | GET | HEAD | POST | PUT | PATCH | DELETE | TRACE | CONNECT
  {
    /** The enum's `rawValue`. */
    function RawValue(): string
    {
      match this
      case OPTIONS => "OPTIONS"
      case GET => "GET"
      case HEAD => "HEAD"
      case POST => "POST"
      case PUT => "PUT"
      case PATCH => "PATCH"
      case DELETE => "DELETE"
      case TRACE => "TRACE"
      case CONNECT => "CONNECT"
    }
  }

  /** Distinct Alamofire methods have distinct raw values. */
  lemma RawValueInjective(a: AlamofireMethod, b: AlamofireMethod)
    ensures a.RawValue() == b.RawValue() ==> a == b
  {
  }
}
