/** Websocket messages as the `websockets` library delivers them: a binary
    message arrives as bytes, a text message as str. */
module Ws {
  import opened Wrappers

  datatype Message = Binary(bytes: seq<byte>) | Text(text: string)

  /** What `async for msg in ws` sees of one connection: the messages in arrival
      order, then either a normal close (the loop ends) or an abnormal one (the
      loop raises ConnectionClosedError). */
  datatype Feed<M> = Feed(msgs: seq<M>, abnormal: bool)
}
