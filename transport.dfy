/** The boundary to the HTTP transport. The transport itself is not modelled:
    an operation that would call it returns the request it would send and
    takes as input the outcome the transport delivers. */
module Transport {
  import opened Wrappers
  import opened Json
  import opened MessageSink

  /** A resolved transport response; only its `body` is inspected. */
  datatype Response = Response(body: Json)

  /** Whatever value the transport promise was rejected with. */
  datatype TransportError = TransportError(description: string)

  /** What the transport call delivers: a resolved (possibly missing)
      response, or a rejection. */
  datatype TransportOutcome =
    | Resolved(response: Option<Response>)
    | Rejected(error: TransportError)

  /** The arguments of `Transport.sendMessage(payload, timeout)`. */
  datatype CreateRequest = CreateRequest(payload: Payload, timeout: int)

  /** The arguments of `Transport.sendUpdate(query, body, timeout)`. */
  datatype UpdateRequest = UpdateRequest(query: Payload, body: Payload, timeout: int)

  /** The arguments of `Transport.sendMessageSet({messages: payloads}, timeout)`. */
  datatype SetRequest = SetRequest(messages: seq<Payload>, timeout: int)
}
