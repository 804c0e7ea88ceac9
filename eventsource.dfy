/** The items an SSE event source yields to a provider's `parse_stream_sse`:
    an event, or the source's error. */
module EventSource {
  import opened Common

  /** `reqwest_eventsource::Event`: the connection opened, or one message
      whose data lines are already joined. */
  datatype SseEvent = Open | Message(data: string)

  /** `reqwest_eventsource::Error`, with its `to_string()` rendering. Only
      the invalid-status case carries an HTTP status. */
  datatype SseError =
    | InvalidStatusCode(status: int, display: string)
    | OtherSseError(display: string)

  /** `Result<Event, reqwest_eventsource::Error>`. */
  datatype SseItem = Event(event: SseEvent) | Failure(error: SseError)
}
