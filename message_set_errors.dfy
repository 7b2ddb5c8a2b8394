/** The errors of the grouped create flow (lib/MessageSet/errors.js). */
module MessageSetErrors {
  import opened Wrappers
  import opened Json

  /** The per-message responses of a group create, split by their status. */
  datatype Partition = Partition(succeeded: seq<Json>, failed: seq<Json>)

  /** `PartialPayloadFailure` keeps the partition as its `response`. */
  datatype SetError =
    | MessageSetHasAlreadyBeenSent
    | EmptyCreateResponse
    | BadStatusCreateResponse(status: Option<Json>)
    | PartialPayloadFailure(response: Partition)
}
