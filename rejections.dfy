/** Everything a create or update promise can be rejected with, and the
    record the lifecycle keeps of a failed attempt. */
module Rejections {
  import opened Wrappers
  import opened Transport
  import opened MessageSinkErrors
  import opened MessageStateWrapperErrors
  import opened MessageSetErrors

  datatype Error =
    | SinkFailure(sink: SinkError)
    | WrapperFailure(wrapper: WrapperError)
    | SetFailure(group: SetError)
    | TransportFailure(transport: TransportError)

  /** The object handed to `_handleCreateError`/`_handleUpdateError`:
      `{response, error}` when a response failed validation, `{error}` when
      the transport itself rejected. */
  datatype ErrorRecord =
    | WithResponse(response: Option<Response>, error: Error)
    | WithoutResponse(error: Error)
}
