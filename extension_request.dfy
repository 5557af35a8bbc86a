/** The second copy of the `Request` extension, in ExtensionRequest.swift. Its serializers are
    written out again here as the file has them, and proved equal to those of Alamofire+Gloss.swift. */
module ExtensionRequest {
  import opened Wrappers
  import opened Json
  import opened GlossErrors
  import AlamofireGlossRequest

  /** `DecodableJSONResponseSerializer()` for a single `Decodable` object. */
  function DecodableJSONResponseSerializer<T>(
    decode: map<string, JSON> -> Option<T>,
    describe: JSON -> string,
    parsed: Result<JSON, NSError>): (r: Result<T, NSError>)
    ensures parsed.Failure? ==> r == Failure(parsed.error)
    ensures r.Success? <==> parsed.Success? && parsed.value.Obj? && decode(parsed.value.fields).Some?
    ensures r.Success? ==> Some(r.value) == decode(parsed.value.fields)
    ensures parsed.Success? && r.Failure? ==> r.error == SerializationError(parsed.value, describe)
  {
    match parsed
    case Success(value) =>
      (match AsObject(value)
       case Some(json) =>
         (match decode(json)
          case Some(responseObject) => Success(responseObject)
          case None => Failure(SerializationError(value, describe)))
       case None => Failure(SerializationError(value, describe)))
    case Failure(error) => Failure(error)
  }

  /** `DecodableJSONResponseSerializer()` for an array of `Decodable` objects. */
  function DecodableJSONArrayResponseSerializer<T>(
    fromJSONArray: seq<map<string, JSON>> -> seq<T>,
    describe: JSON -> string,
    parsed: Result<JSON, NSError>): (r: Result<seq<T>, NSError>)
    ensures parsed.Failure? ==> r == Failure(parsed.error)
    ensures r.Success? <==> parsed.Success? && parsed.value.Arr? && AllObjects(parsed.value.elements)
    ensures r.Success? ==> r.value == fromJSONArray(AsObjectArray(parsed.value).value)
    ensures parsed.Success? && r.Failure? ==> r.error == SerializationError(parsed.value, describe)
  {
    match parsed
    case Success(value) =>
      (match AsObjectArray(value)
       case Some(jsonArray) => Success(fromJSONArray(jsonArray))
       case None => Failure(SerializationError(value, describe)))
    case Failure(error) => Failure(error)
  }

  /** The two copies of the single-object serializer agree on every input. */
  lemma ObjectSerializersAgree<T>(
    decode: map<string, JSON> -> Option<T>, describe: JSON -> string, parsed: Result<JSON, NSError>)
    ensures DecodableJSONResponseSerializer(decode, describe, parsed)
         == AlamofireGlossRequest.DecodableJSONResponseSerializer(decode, describe, parsed)
  {
  }

  /** The two copies of the array serializer agree on every input. */
  lemma ArraySerializersAgree<T>(
    fromJSONArray: seq<map<string, JSON>> -> seq<T>, describe: JSON -> string,
    parsed: Result<JSON, NSError>)
    ensures DecodableJSONArrayResponseSerializer(fromJSONArray, describe, parsed)
         == AlamofireGlossRequest.DecodableJSONArrayResponseSerializer(fromJSONArray, describe, parsed)
  {
  }
}
