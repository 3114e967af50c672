/** What the websocket consumers send: frames to the browser client, and
    frames to the upstream speech service. */
module ClientMessages {
  import opened Wrappers
  import opened PyJson

  /** A frame to the client. The JSON notifications are named by their "type";
      `Failure` is an error whose detail reads "<context>: <exception>". */
  datatype Out =
    | Ready                                 // {"type": "ready"}
    | InitOk                                // {"type": "init_ok"}
    | AsrRaw(data: Json)                    // {"type": "asr_raw", "data": data}
    | AsrPartial(partial: Json)              // {"type": "asr_partial", "text": text}
    | AsrFinal(text: string)                // {"type": "asr_final", "text": text}
    | BotStart                              // {"type": "bot_start"}
    | BotDelta(delta: string)               // {"type": "bot_delta", "delta": delta}
    | BotDone                               // {"type": "bot_done"}
    | Error(detail: Detail)                 // {"type": "error", "detail": DetailText(detail)}
    | Failure(context: Context, exc: Exc)   // {"type": "error", "detail": f"{ContextText(context)}: {e}"}
    | TencentConnected(sessionId: Json)     // {"type": "tencent_connected", "session_id": ...}
    | Relayed(data: Json)                   // json.dumps(data) of an upstream event
    | TextFrame(text: string)               // a text frame passed on verbatim
    | BinaryFrame(bytes: seq<byte>)         // a binary frame passed on verbatim
    | Close(code: int)                      // the consumer closes the client socket

  /** The fixed details of the error notices. */
  datatype Detail = EmptyFinalText | MissingIds | TencentClosed | TextEmpty

  function DetailText(d: Detail): string {
    match d
    case EmptyFinalText => "empty final_text"
    case MissingIds => "missing session_id / visitor_biz_id, please send init first"
    case TencentClosed => "tencent ws closed"
    case TextEmpty => "text is empty"
  }

  /** The contexts an exception is reported in. */
  datatype Context = InReceive | InAsrRecv | InAdp | InTencentWs

  function ContextText(c: Context): string {
    match c
    case InReceive => "receive_failed"
    case InAsrRecv => "asr_recv_failed"
    case InAdp => "adp_failed"
    case InTencentWs => "tencent ws error"
  }

  /** A frame to the upstream service. */
  datatype Up = EndMessage | AudioFrame(bytes: seq<byte>)

  /** Python truthiness of an optional websocket payload (`if text_data:`). */
  predicate Present<T>(o: Option<seq<T>>) {
    o.Some? && o.value != []
  }
}
