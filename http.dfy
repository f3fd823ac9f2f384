/**
 * What a handler has in hand after an HTTP request, and what it writes back.
 * The transport, the body and the JSON decoding are not modelled; only their
 * outcomes are.
 */
module Http {
  import opened Wrappers

  /**
   * The outcome of one GET followed by a JSON decode: the request failed at the
   * transport, or a body arrived and did (`Some`) or did not (`None`) decode.
   */
  datatype Fetch<T> = TransportError | Received(decoded: Option<T>)

  /**
   * What a handler answers: nothing written (net/http then sends an empty
   * 200 response), a success envelope around `data`, or a failure envelope
   * carrying an error message.
   */
  datatype Reply<T> = NoReply | Success(data: T) | Failure(error: string)
}
