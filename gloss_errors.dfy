/** The `NSError` values the bridge produces or passes along. */
module GlossErrors {
  import opened Json

  /** Foundation's `NSError`; `description` is the `NSLocalizedDescriptionKey` entry of `userInfo`. */
  datatype NSError = NSError(domain: string, code: int, description: string)

  const GlossDomain: string := "com.harlankellaway.Gloss"
  const SerializationErrorCode: int := 1
  const FailureReasonPrefix: string := "JSON could not be serialized into response object: "

  /** True of an error of the Gloss domain with code 1 whose description starts with the fixed
      failure reason. */
  predicate IsSerializationError(e: NSError)
  {
    e.domain == GlossDomain && e.code == SerializationErrorCode && FailureReasonPrefix <= e.description
  }

  /** The error built when a parsed value does not fit the requested type. `describe` stands for
      Swift's string interpolation `\(value)`. */
  function SerializationError(value: JSON, describe: JSON -> string): (e: NSError)
    ensures IsSerializationError(e)
    ensures e.description[|FailureReasonPrefix|..] == describe(value)
  {
    NSError(GlossDomain, SerializationErrorCode, FailureReasonPrefix + describe(value))
  }
}
