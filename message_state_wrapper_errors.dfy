/** The errors of the single-message create and update flows
    (lib/MessageStateWrapper/errors.js). */
module MessageStateWrapperErrors {
  import opened Wrappers
  import opened Json

  /** The two bad-status errors carry the offending `status` property
      (`None` when it was undefined); `FieldsFailedToUpdate` carries the
      service's error array, `GenericUpdateError` its error string. */
  datatype WrapperError =
    | EmptyCreateResponse
    | BadMessageIdCreateResponse
    | BadStatusCreateResponse(status: Option<Json>)
    | MessageHasAlreadyBeenUpdated
    | MessageHasAlreadyBeenSent
    | MessageCannotBeUpdated
    | EmptyUpdateResponse
    | BadStatusUpdateResponse(status: Option<Json>)
    | FieldsFailedToUpdate(fields: seq<Json>)
    | GenericUpdateError(serviceError: string)
    | UpdateResponseDidNotHaveUpdatedList
    | MessageMustBeSentBeforeBeingUpdated
}
