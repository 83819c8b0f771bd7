/** Shared vocabulary: optional values, the errors the library throws, and JavaScript truthiness. */
module Base {

  /** A JavaScript value that may be `null` or `undefined` (None). */
  datatype Option<+T> = None | Some(value: T)

  /** The exceptions the request library throws; each names the source's message. */
  datatype Error =
    | UnknownArgument             // 'unknown argument': annotation values neither a string nor an array
    | PushOntoNonList             // a TypeError: `push` on an argument slot that holds a string
    | UnknownTypeOperation        // 'unknown type operation'
    | UnknownAnnotationOperation  // 'unknown annotation operation'
    | UnknownAnnotationTarget     // 'unknown annotation target'
    | ImproperFact                // 'triple did not look like a proper fact'
    | NoEvidenceTarget            // 'no target identified for evidence add'

  /** A call that returns a value or throws. */
  datatype Result<+T> = Ok(value: T) | Err(error: Error)

  /** A call that returns nothing of interest (the request set itself) or throws. */
  datatype Outcome = Done | Failed(error: Error)

  /** JavaScript truthiness of an optional string: null, undefined and "" are falsy. */
  predicate Truthy(s: Option<string>) {
    s.Some? && s.value != ""
  }
}
