/** The response serializers of the `Request` extension in Alamofire+Gloss.swift.
    Each takes the outcome of Alamofire's JSON response serializer (`parsed`) and either passes
    its failure through or casts and decodes the parsed value. */
module AlamofireGlossRequest {
  import opened Wrappers
  import opened Json
  import opened GlossErrors

  /** `DecodableJSONResponseSerializer()` for a single `Decodable` object. `decode` stands for
      `T(json:)` and `describe` for the interpolation `\(value)` in the failure reason. */
  function DecodableJSONResponseSerializer<T>(
    decode: map<string, JSON> -> Option<T>,
    describe: JSON -> string,
    parsed: Result<JSON, NSError>): (r: Result<T, NSError>)
    ensures parsed.Failure? ==> r == Failure(parsed.error)
    ensures r.Success? <==> parsed.Success? && parsed.value.Obj? && decode(parsed.value.fields).Some?
    ensures r.Success? ==> Some(r.value) == decode(parsed.value.fields)
    ensures parsed.Success? && r.Failure? ==> r.error == SerializationError(parsed.value, describe)
  {
    match parsed
    case Success(value) =>
      (match AsObject(value)
       case Some(json) =>
         (match decode(json)
          case Some(responseObject) => Success(responseObject)
          case None => Failure(SerializationError(value, describe)))
       case None => Failure(SerializationError(value, describe)))
    case Failure(error) => Failure(error)
  }

  /** `DecodableJSONResponseSerializer()` for an array of `Decodable` objects. `fromJSONArray`
      stands for `[T].fromJSONArray`. */
  function DecodableJSONArrayResponseSerializer<T>(
    fromJSONArray: seq<map<string, JSON>> -> seq<T>,
    describe: JSON -> string,
    parsed: Result<JSON, NSError>): (r: Result<seq<T>, NSError>)
    ensures parsed.Failure? ==> r == Failure(parsed.error)
    ensures r.Success? <==> parsed.Success? && parsed.value.Arr? && AllObjects(parsed.value.elements)
    ensures r.Success? ==> r.value == fromJSONArray(AsObjectArray(parsed.value).value)
    ensures parsed.Success? && r.Failure? ==> r.error == SerializationError(parsed.value, describe)
  {
    match parsed
    case Success(value) =>
      (match AsObjectArray(value)
       case Some(jsonArray) => Success(fromJSONArray(jsonArray))
       case None => Failure(SerializationError(value, describe)))
    case Failure(error) => Failure(error)
  }

  /** A parse failure comes out unchanged whatever `decode` and `describe` are: neither is consulted. */
  lemma ParseFailureIgnoresDecode<T>(
    decode1: map<string, JSON> -> Option<T>, decode2: map<string, JSON> -> Option<T>,
    describe1: JSON -> string, describe2: JSON -> string, error: NSError)
    ensures DecodableJSONResponseSerializer(decode1, describe1, Failure(error)) == Failure(error)
    ensures DecodableJSONResponseSerializer(decode1, describe1, Failure(error))
         == DecodableJSONResponseSerializer(decode2, describe2, Failure(error))
  {
  }

  /** Every failure the single-object serializer makes itself is a Gloss serialization error. */
  lemma ObjectFailureIsSerializationError<T>(
    decode: map<string, JSON> -> Option<T>, describe: JSON -> string, value: JSON)
    requires !value.Obj? || decode(value.fields).None?
    ensures DecodableJSONResponseSerializer(decode, describe, Success(value)).Failure?
    ensures IsSerializationError(DecodableJSONResponseSerializer(decode, describe, Success(value)).error)
  {
  }

  /** An array of JSON objects, empty or not, always succeeds with `fromJSONArray` of exactly
      those objects. */
  lemma ArrayOfObjectsSucceeds<T>(
    fromJSONArray: seq<map<string, JSON>> -> seq<T>, describe: JSON -> string,
    objects: seq<map<string, JSON>>)
    ensures DecodableJSONArrayResponseSerializer(fromJSONArray, describe,
              Success(Arr(seq(|objects|, i requires 0 <= i < |objects| => Obj(objects[i])))))
         == Success(fromJSONArray(objects))
  {
    CastObjectsOfObjects(objects);
  }

  /** An array with one element that is not a JSON object fails with a Gloss serialization error. */
  lemma ArrayWithNonObjectFails<T>(
    fromJSONArray: seq<map<string, JSON>> -> seq<T>, describe: JSON -> string,
    elements: seq<JSON>, k: nat)
    requires k < |elements| && !elements[k].Obj?
    ensures DecodableJSONArrayResponseSerializer(fromJSONArray, describe, Success(Arr(elements)))
         == Failure(SerializationError(Arr(elements), describe))
  {
  }
}
