/** The local validation errors a message export can produce
    (lib/MessageSink/errors.js). */
module MessageSinkErrors {

  /** `RequiredKeysNotSet` carries the list of the keys that
      the failed export requires. */
  datatype SinkError =
    | NotHandledValidationError
    | FeedbackValidationError
    | RequiredKeysNotSet(requiredKeys: seq<string>)
}
