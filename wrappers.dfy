/** Small value types shared by every module of the model. */
module Wrappers {

  /** Python's `None` or a present value. */
  datatype Option<+T> = None | Some(value: T)

  /** One octet, as Python's `bytes` holds them. */
  type byte = x: int | 0 <= x < 256

  /** The exceptions the modelled code raises or catches, by class. */
  datatype Exc =
    | JsonDecodeError      // json.loads on text that is not JSON
    | AttributeError       // `.get` / `.strip` on a value that lacks it
    | IndexError           // `[0]` on an empty list or string
    | KeyError             // `[k]` on a dict without k
    | TypeError            // indexing or comparing values of the wrong type
    | ValueError           // int("x"), unpacking a sequence of the wrong length
    | UnboundLocalError    // reading a local that no branch assigned
    | HttpStatusError(status: int)  // httpx raise_for_status
    | RuntimeError(message: string) // raised explicitly with a message
    | TransportError       // the HTTP connection failed or broke mid-body
    | ConnectionClosed     // the websocket peer closed abnormally
    | ValidationError      // a request body its serializer rejects

  /** A value or the exception that replaced it. */
  datatype Result<+T> = Ok(value: T) | Err(exc: Exc)
}
