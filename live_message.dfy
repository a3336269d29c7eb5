/** What a live-session callback receives and the device handles a session holds. */
module LiveMessage {
  import opened Wrappers
  import opened Playback

  /**
   * One `LiveServerMessage`, reduced to the fields the screens read. `audio` is
   * `modelTurn.parts[0].inlineData.data` ("" when absent) and `audioDuration` the
   * duration of the buffer it decodes to, which the browser computes.
   */
  datatype ServerMessage = ServerMessage(
    inputTranscription: Option<string>,
    outputTranscription: Option<string>,
    turnComplete: bool,
    audio: string,
    audioDuration: Seconds,
    interrupted: bool)

  /** The text a transcription fragment contributes to a pending buffer. */
  function Fragment(t: Option<string>): string {
    match t
    case Some(text) => text
    case None => ""
  }

  /** An `AudioContext` ref: null, or a context whose state is running or 'closed'. */
  datatype ContextRef = NoContext | Running | Closed

  /** `if (ref && ref.state !== 'closed') ref.close()`. */
  function Close(c: ContextRef): (r: ContextRef)
    ensures r != Running
    ensures c == NoContext <==> r == NoContext
  {
    if c == Running then Closed else c
  }
}
