/** Types shared by the send and receive sides of the WebSocket client model. */
module Common {

  /** One octet of a payload. */
  newtype byte = x: int | 0 <= x < 256

  /** A value that may be absent (a nullable in the source). */
  datatype Option<T> = None | Some(value: T)

  /** The transport's message kinds (WebSocketMessageType). */
  datatype MessageType = Text | Binary | Close
}
