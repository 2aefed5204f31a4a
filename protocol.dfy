/**
 * The messages exchanged between the browser client and the session
 * server over the socket, and the opaque audio chunks they carry.
 */
module Protocol {
  import opened Wrappers

  newtype Byte = b: int | 0 <= b < 256

  /** An audio blob as produced by the media recorder; its size is its length. */
  type Chunk = seq<Byte>

  /** Client-to-server events (`socket.emit` on the client). */
  datatype ClientMessage =
    | StartSession(sessionId: string, isResume: bool)
    | AudioChunk(chunk: Chunk)
    | PauseMarker(timestamp: int, markerSession: Option<string>)
    | ResumeMarker(timestamp: int, markerSession: Option<string>)
    | StopSession

  /** Server-to-client events (`socket.emit` on the server). */
  datatype ServerMessage =
    | ProcessingStart
    | ProcessingComplete(summary: string, sessionId: string)
    | ServerError(message: string)
}
