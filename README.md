# soutui voice-agent back end, modelled in Dafny

soutui is a Django/Channels back end for a hotel-booking voice agent. Its
sequential core is modelled here:

- **Websocket consumers** (`api/consumers.py`):
  - `New_TencentPCMAsrConsumer` takes `init`, `end` and audio frames from the client, relays Tencent speech-recognition events as `asr_raw`, `asr_partial` and `asr_final`, checks the final transcript and the session ids, then streams the ADP agent's reply as `bot_start`, `bot_delta`* and `bot_done` or `error`.
  - `TencentTTSConsumer` checks its text and relays Tencent synthesis frames until a final or error frame.
  - The older `TencentPCMAsrConsumer` relays recognition events verbatim.
  - `EchoConsumer` echoes frames.
- **Stream parsers and relays**:
  - the ADP reply-delta extractor (`api/utils/adp_stream.py`);
  - the TTS message classifier (`api/utils/tts_stream.py`);
  - the SSE line relay, frame builder and hotel-search shaping of `api/views.py`;
  - the MCP tool server's SSE reader and reply joiner (`mcp_server.py`).
- **Signed-URL builders** for Tencent ASR and TTS (`api/utils/tencent_asr.py`, `api/utils/tencent_tts.py`): exact string layouts, key-ordered query strings, Base64 and percent-encoding.
- **Small helpers**: the throttle cache key (`api/throttles.py`) and the usage recorder (`api/usage.py`).
- **Client scripts**:
  - the start/audio/end framer of `b64msg.py`;
  - the `tts_start`/binary/`tts_done` demultiplexer and chunked sender of `unlimited_test.py`;
  - the synthesis collector of `test_ws_tts.py`.

How the model is built:

- **Consumer classes** are Dafny classes. Their fields are the Python instance fields, and an `outbox` sequence holds the frames sent to the client. Each handler is a method whose `ensures` ties the new state and the appended frames to a specification function on values (`OnFrame`, `Relay`, `RecvFromTencent`, `OnText`, `RelayOut`). Lemmas prove what the source promises about those functions.
- **Loops** over upstream lines or messages are `while` loops. Each is proved equal to a recursive specification function over the input sequence.
- **Pure code** (URL builders, key rules, shaping) is functions and lemmas.
- **External inputs are parameters:**
  - `json.loads` is a `Loads` function from text to `Decoded` (`NotJson` or a `Json` value);
  - `json.dumps` is a `Dumps` function;
  - HMAC-SHA1 is an `Hmac` function;
  - the clock and uuids are numbers in an `Env`;
  - environment variables are values in `AppKeys`/`Config`;
  - network peers are input sequences, with `Feed.abnormal` marking a connection that raised `ConnectionClosed`.
- **Concrete encodings:** Base64 (RFC 4648 section 4), UTF-8 encoding and `quote(s, safe="")` percent-encoding (RFC 3986 section 2.1) are concrete, so the round trips can be proved.
- **Python semantics are written out:**
  - truthiness;
  - `dict.get` on a non-dict raising `AttributeError`;
  - `== 1` accepting `True` and `1.0`;
  - `not in (0, None)` treating `False` and `0.0` as `0`;
  - `[0]` on an empty list raising `IndexError`;
  - `str.strip`, `s[:n]`, `str(int)`, and `int(str)` with its underscore grouping.
- **Error details** in client frames are the `ClientMessages.Detail`/`Context` values, whose texts `DetailText`/`ContextText` give.

The repository routes `ws/asr/pcm` to `Agent_interaction` and also imports `Final_TencentPCMAsrConsumer` (`api/routing.py:2`, `:8`), but `api/consumers.py` defines neither. `full_test.py:121-155` exercises a barge-in that no class in the repository implements. The model follows the consumers that exist. Its client protocol is the one `New_TencentPCMAsrConsumer` implements: `init`, `end` and binary audio frames.

## Model

| member | source | states |
|---|---|---|
| AsrConsumer.Consumer.constructor | api/consumers.py:209-237 | a fresh session has no session or visitor id, agent "d", throttle 10, `ending` false and last text ""; the upstream is open and exactly "ready" has been sent |
| AsrConsumer.Consumer.Receive | api/consumers.py:239-269 | the session fields, the frames sent to the client and the frames sent upstream change exactly as the frame-handling function `OnFrame` says |
| AsrConsumer.InitFrame | api/consumers.py:245-253 | an init frame sets the four config fields from the frame (absent `app` becomes "d", absent throttle 10), keeps `ending`, the last text and the connection, sends nothing upstream and replies exactly one `init_ok` |
| AsrConsumer.EndFrame | api/consumers.py:255-266 | an end frame sets `ending` and sends `{"type":"end"}` upstream; if the upstream is closed, the client socket is closed with 1011 instead |
| AsrConsumer.AudioForwarded | api/consumers.py:262-263 | a binary frame goes upstream unchanged; no field changes and nothing goes to the client |
| AsrConsumer.BadFrame | api/consumers.py:242-269 | text that is not JSON, or JSON that is not an object, sends `receive_failed` and then a 1011 close; no field changes |
| AsrConsumer.Consumer.RecvFromTencentTask | api/consumers.py:271-326 | the session and the frames sent are those of `RecvFromTencent`: the event loop, the abnormal-close notice and the `finally` close |
| AsrConsumer.Consumer.RelayEvents | api/consumers.py:273-304 | the loop over upstream events leaves the session, the frames sent and the stop flag exactly as the run `Relay` of the events does |
| AsrConsumer.Consumer.HandleEvent | api/consumers.py:274-304 | one loop iteration updates state and outbox as the run of that single event does |
| AsrConsumer.Consumer.HandleData | api/consumers.py:277-304 | the body after decoding updates state and outbox as `OnData` does |
| AsrConsumer.Consumer.NotePartial | api/consumers.py:283-285 | a non-empty recognized text becomes `last_asr_text` and is announced as `asr_partial` |
| AsrConsumer.Consumer.HandleFinal | api/consumers.py:288-304 | the `final == 1` branch sends `asr_final`, then the checks and the agent turn, as `OnFinal` says |
| AsrConsumer.Consumer.RunChecks | api/consumers.py:293-304 | after the final text, the frames sent are those of `FinalChecks`: an error or the agent turn; no field changes |
| AsrConsumer.Consumer.RunAdp | api/consumers.py:328-343 | `_run_adp` appends the turn's frames (`bot_start`, one `bot_delta` per delta, then `bot_done` or an `adp_failed` error) and changes no field |
| AsrConsumer.RawRelayedFirst | api/consumers.py:274-277 | every decoded event is first relayed as `asr_raw` carrying the decoded data |
| AsrConsumer.PartialRecorded | api/consumers.py:280-285 | a non-empty `result.voice_text_str` becomes the last text, and an `asr_partial` with it is the second frame |
| AsrConsumer.FinalFallsBack | api/consumers.py:281-290 | a final event (`final` equal to 1, 1.0 or true) whose recognized text is falsy (no or a falsy `result`, or no or an empty `voice_text_str`) announces `asr_final` with the stripped last text, right after `asr_raw` and before any check; the loop goes on and no field changes |
| AsrConsumer.EmptyFinalSkipsAgent | api/consumers.py:293-295 | an empty (after stripping) final text gives exactly the "empty final_text" error and no agent call |
| AsrConsumer.MissingIdsSkipAgent | api/consumers.py:296-301 | a missing or falsy session or visitor id gives exactly the missing-id error, with no `bot_start` |
| AsrConsumer.AgentTurnShape | api/consumers.py:328-343 | with text and both ids: `bot_start`, each delta `adp_stream_reply` yields in order, then `bot_done` exactly when the stream did not raise, otherwise `adp_failed` carrying the exception; no `bot_delta` carries empty text |
| AsrConsumer.AgentPayload | api/consumers.py:331-337 | the reply stream is the agent platform's answer to the body `adp_stream_reply` posts, and that body carries the final text as content, the session's ids and throttle, and the key `pick_bot_app_key` gives for the session's app |
| AsrConsumer.StaleTextReused | api/consumers.py:284-290 | `last_asr_text` is never cleared: a partial event followed by a textless final event announces the old text again |
| AsrConsumer.RelayStopCloses | api/consumers.py:310-321 | the event loop stops early only on an error, and then the last frame sent is a 1011 close |
| AsrConsumer.TaskClosesUpstream | api/consumers.py:322-326 | after the task the upstream connection is closed on every path; a stopped task's last frame is a 1011 close |
| LegacyConsumers.AsrConsumer.constructor | api/consumers.py:22-32 | once connected, the upstream is open and only "ready" has been sent |
| LegacyConsumers.AsrConsumer.RecvFromTencent | api/consumers.py:52-78 | the exception that escapes and the frames sent are those of the task function `Task`; the upstream is closed afterwards |
| LegacyConsumers.RelayedInOrder | api/consumers.py:54-63 | events before the loop ends are relayed as decoded, one frame each, in arrival order |
| LegacyConsumers.FinalEndsLoop | api/consumers.py:61-63 | a final event is relayed, then a 1000 close is sent, and no later event is read |
| LegacyConsumers.BadEventEscapes | api/consumers.py:55-61 | an undecodable or non-object event ends the task with an exception; at most that event is relayed, and no closing notice is sent |
| LegacyConsumers.AbnormalCloseNotice | api/consumers.py:65-71 | the 1011 close is sent exactly when the connection dropped before any final event and no event raised, and it is then the last frame |
| LegacyConsumers.EchoConsumer.constructor | api/consumers.py:98-100 | on connect exactly "echo-ready" has been sent |
| LegacyConsumers.EchoConsumer.Receive | api/consumers.py:102-106 | the frame's replies (`Echo`) are sent after everything sent before |
| LegacyConsumers.EchoContents | api/consumers.py:102-106 | one reply per present part, bytes first: "got N bytes", where N reads back as the frame's length, then "echo: " followed by the text unchanged |
| TtsConsumer.Consumer.constructor | api/consumers.py:110-115 | a new consumer has no connection, no task and `ending` false, and has sent only "ready" |
| TtsConsumer.Consumer.Disconnect | api/consumers.py:117-125 | `disconnect` sets `ending`, cancels the task and closes the connection if there is one; `tc_ws` itself is not reset |
| TtsConsumer.Consumer.Receive | api/consumers.py:127-171 | the new state, the frames sent, the connections closed and the escaping exception are those of `OnText`, with the builder returning the URL and the session id |
| TtsConsumer.NoTextIgnored | api/consumers.py:131-132 | a frame without text changes nothing and sends nothing |
| TtsConsumer.BlankTextRejected | api/consumers.py:134-138 | a missing text, a falsy one or one of only whitespace gives exactly "text is empty"; no URL is built and no connection is touched |
| TtsConsumer.TextConnects | api/consumers.py:140-171 | non-blank text opens the signed URL for that text with codec pcm, closes the previous connection first and announces the session id signed in the URL |
| TtsConsumer.Unpack2 | api/consumers.py:140 | unpacking a string into two names succeeds exactly when it has two characters |
| TtsConsumer.AsWrittenNeverConnects | api/consumers.py:140 | as written, any non-blank text ends in ValueError at the unpacking, with nothing sent and no connection opened |
| TtsConsumer.AsWrittenKeepsSession | api/consumers.py:140 | as written, no input changes the fields, closes a connection or announces a session |
| TtsConsumer.Consumer.RecvFromTencent | api/consumers.py:173-200 | the frames sent are those of `RelayOut`; the old connection is closed in `finally` and `tc_ws` becomes None |
| TtsConsumer.RunFirstStop | api/consumers.py:175-191 | the loop forwards a prefix of the messages; it breaks exactly when some message stops it, at the first such message |
| TtsConsumer.FramesVerbatim | api/consumers.py:177-181 | each forwarded frame is the message itself: binary as binary, text as the same text |
| TtsConsumer.NonStopping | api/consumers.py:184-191 | binary frames, non-JSON text and non-dict JSON never stop the loop |
| TtsConsumer.StopFrames | api/consumers.py:184-189 | a dict stops the loop exactly when its `final` equals 1 (including `1.0` and `true`) or its code is present and not 0, 0.0, False or None; `{"code": 0}` does not |
| TtsConsumer.ErrorOnlyOnAbnormalClose | api/consumers.py:192-194 | an error notice is appended, after exactly the forwarded frames, exactly when the upstream closed abnormally, no message stopped the loop and the client is not leaving |
| AdpStream.PickBotAppKey | api/utils/adp_stream.py:8-11 | the flag "s" selects the Soutui key; every other value, absent or not a string, selects the Disney key |
| AdpStream.AdpBodyFields | api/utils/adp_stream.py:17-30 | the request body has exactly its twelve keys, carries the given ids, content, throttle and key, and has `incremental` true and `stream` "enable" |
| AdpStream.PayloadFields | api/utils/adp_stream.py:17-30 | `adp_stream_reply`'s body carries the caller's ids, content and throttle and the key picked for its app flag |
| AdpStream.DeltaOf | api/utils/adp_stream.py:56-59 | a delta is produced exactly when the value is a non-empty string, and it is that string |
| AdpStream.AdpStreamReply | api/utils/adp_stream.py:39-64 | the deltas yielded and the way the generator ends are those of `StreamReply`: the status check, then the line loop |
| AdpStream.ScanLines | api/utils/adp_stream.py:42-64 | the loop's deltas and ending equal the line-by-line specification `Scan` |
| AdpStream.StatusChecked | api/utils/adp_stream.py:40 | a non-2xx status raises before any line is read, and no delta is produced |
| AdpStream.NonDataSkipped | api/utils/adp_stream.py:43-44 | empty lines and lines not starting with "data:" contribute nothing |
| AdpStream.DoneStops | api/utils/adp_stream.py:46-48 | data that strips to "[DONE]" stops the stream |
| AdpStream.NothingAfterStop | api/utils/adp_stream.py:46-48 | once the lines have stopped the stream (by "[DONE]" or an exception), later lines change nothing |
| AdpStream.NotJsonSkipped | api/utils/adp_stream.py:50-53 | data that is not JSON is skipped without stopping |
| AdpStream.ReplyDelta | api/utils/adp_stream.py:55-59 | a reply event yields `payload.content` exactly when it is a non-empty string, and is skipped otherwise |
| AdpStream.ThoughtDelta | api/utils/adp_stream.py:60-62 | a thought event with a non-empty `procedures` list yields `procedures[0].debugging.content` exactly when it is a non-empty string, and is skipped otherwise |
| AdpStream.ThoughtWithoutProcedures | api/utils/adp_stream.py:60-61 | a thought event with an empty or missing `procedures` raises IndexError rather than being skipped |
| AdpStream.NonObjectRaises | api/utils/adp_stream.py:55 | decoded data that is not an object raises AttributeError |
| AdpStream.OtherTypeSkipped | api/utils/adp_stream.py:55-64 | events of any other type yield nothing and do not stop |
| AdpStream.YieldNonEmpty | api/utils/adp_stream.py:57-62 | a line's delta is never empty |
| AdpStream.DeltasNonEmpty | api/utils/adp_stream.py:55-64 | every delta of any run of lines is non-empty |
| AdpStream.ReplyDeltasNonEmpty | api/utils/adp_stream.py:39-64 | no delta the whole generator yields is empty, whatever the response |
| AdpStream.ScanAppend | api/utils/adp_stream.py:42-64 | deltas keep line order: a run of lines that did not stop is followed by the deltas of the lines after it |
| TtsStream.TencentTtsStream | api/utils/tts_stream.py:24-46 | the items yielded and the way the loop ends are those of the specification `Stream` of the messages |
| TtsStream.BinaryStep | api/utils/tts_stream.py:30-33 | a non-empty binary message yields `("audio", bytes)`; an empty one is dropped |
| TtsStream.NotJsonSkipped | api/utils/tts_stream.py:35-38 | text that is not JSON is skipped without stopping |
| TtsStream.JsonTextDelivered | api/utils/tts_stream.py:40-46 | every parsed text is yielded as meta, including the one that stops; it stops exactly when it is a dict with an error code or `final == 1` |
| TtsStream.NonDictNeverStops | api/utils/tts_stream.py:43-46 | JSON that is not a dict is delivered and never stops the stream |
| TtsStream.ErrorBeforeFinal | api/utils/tts_stream.py:43-46 | an event with both an error code and `final == 1` stops as a code error |
| TtsStream.StreamEnd | api/utils/tts_stream.py:24-46 | the stream ends with the connection exactly when no message stops it; otherwise the last item is the meta of a message that stops it, and that message is a dict |
| TtsStream.AudioNonEmpty | api/utils/tts_stream.py:31-32 | no audio item is empty |
| TtsStream.NothingAfterStop | api/utils/tts_stream.py:43-46 | after a stopping message, later messages contribute nothing |
| TencentAsr.DefaultRequest | api/utils/tencent_asr.py:61-63 | the defaults are engine "16k_zh", voice format 1 and 300 seconds |
| TencentAsr.Nonce | api/utils/tencent_asr.py:67 | the nonce is below 10^10 |
| TencentAsr.NonceText | api/utils/tencent_asr.py:67 | the nonce prints as the first ten (or fewer) digits of the uuid's integer |
| TencentAsr.SignParams | api/utils/tencent_asr.py:82 | the signing query has seven parameters |
| TencentAsr.SignKeysAscending | api/utils/tencent_asr.py:82 | its keys are exactly `engine_model_type` … `voice_id`, in strictly ascending order |
| TencentAsr.ExpiredValue | api/utils/tencent_asr.py:65-66 | `expired` reads back as the timestamp plus `expired_seconds`; `timestamp` and `voice_format` read back as their numbers |
| TencentAsr.BuildUrl | api/utils/tencent_asr.py:95 | the URL starts with "wss://" |
| TencentAsr.UrlLayout | api/utils/tencent_asr.py:82-95 | the URL is "wss://asr.cloud.tencent.com/asr/v2/{appid}?" + the seven raw parameters + `signature` as the last parameter, its value the once-quoted Base64 signature |
| TencentAsr.UrlBodyIsSigningString | api/utils/tencent_asr.py:83-95 | the text after "wss://" begins with the entire signing string |
| TencentAsr.UrlQueryRecoversSignature | api/utils/tencent_asr.py:86-95 | with values free of '&', the query splits back into the seven parameters and `signature`; the value unquotes to the Base64 text, which decodes to the HMAC-SHA1 digest of the signing string under the secret key |
| TencentTts.DefaultRequest | api/utils/tencent_tts.py:15 | the default validity is 300 seconds |
| TencentTts.SessionIdIsUuid | api/utils/tencent_tts.py:19 | the 128-character cut never bites, so SessionId is the uuid's integer |
| TencentTts.KeysAscendingAlways | api/utils/tencent_tts.py:37 | the thirteen keys are `Action` … `Volume`, strictly ascending, whatever the Text value |
| TencentTts.AppIdValue | api/utils/tencent_tts.py:37 | AppId reads back as `int(appid)` |
| TencentTts.ExpiredValue | api/utils/tencent_tts.py:17-18 | Expired reads back as the timestamp plus `expired_seconds` |
| TencentTts.TimestampValue | api/utils/tencent_tts.py:17 | Timestamp reads back as the time given |
| TencentTts.BuildUrl | api/utils/tencent_tts.py:37-52 | a non-integer `appid` raises the ValueError of `int(appid)`; otherwise the result is the rendered URL |
| TencentTts.UrlParamsDifferOnlyInText | api/utils/tencent_tts.py:47-50 | the URL's parameters are the signed ones with only Text replaced by its quoted form |
| TencentTts.UrlLayout | api/utils/tencent_tts.py:46-52 | the URL is "wss://tts.cloud.tencent.com/stream_ws?" + the thirteen parameters + the capitalised `Signature`; there is no "GET" |
| TencentTts.UrlScheme | api/utils/tencent_tts.py:52 | the URL starts with "wss://", so it is longer than two characters |
| TencentTts.UrlQueryRecoversParams | api/utils/tencent_tts.py:41-52 | with codec and secret id free of '&', the query splits back into its parameters; Text unquotes to the text's UTF-8, and the signature decodes to the HMAC digest of the "GET"-prefixed signing string |
| TencentTts.BuildUrlWithSession | api/utils/tencent_tts.py:19-54 | the pair the caller expects fails exactly when `int(appid)` fails, with that exception |
| TencentTts.SessionIdSigned | api/utils/tencent_tts.py:19-50 | the pair's URL is the rendered URL, and its session id is the SessionId signed into both the signing string and the URL |
| Views.CancelKeyInjective | api/views.py:28-32 | different sessions have different flag keys |
| Views.SetThenCancelled | api/views.py:28-32 | after `set_cancel`, `is_cancel` holds for that session, and every other session's flag is unchanged |
| Views.OtherValueNotCancelled | api/views.py:31-32 | a missing value, or any value but "1", means not cancelled |
| Views.SseFraming | api/views.py:151-152 | an event is the octets of "data: ", the UTF-8 of the JSON text, then two line feeds |
| Views.ChatAppKeyAgainstPick | api/views.py:130-134 | the view picks a key exactly for 's' and 'd', agreeing with `pick_bot_app_key`; any other flag raises UnboundLocalError |
| Views.ChatBodyFields | api/views.py:136-149 | the body exists exactly when a key was picked, and carries the form's text, session id and key with throttle 10 |
| Views.ChatStreamPost | api/views.py:120-215 | an app flag that picks no key fails before streaming or committing; otherwise the chunks and the single committed "chat_stream" record are those of the stream |
| Views.EventStream | api/views.py:154-213 | the chunks are those of `ChatStream`; the tool count grows by its calls, success is cleared by a failure, and exactly one record of the final fields is committed |
| Views.HttpErrorOnly | api/views.py:169-180 | a status of 400 or more gives exactly one error event, carrying the status and the body cut to at most 800 characters, with one tool call and no failure mark |
| Views.RelayLoop | api/views.py:183-193 | the loop's chunks and cancel flag are those of `RelayLines` |
| Views.RelayOne | api/views.py:183-193 | per line: cancelled first, then empty lines skipped, then the line forwarded with "\n\n" |
| Views.CancelEndsStream | api/views.py:184-186 | once the flag is seen, one "cancelled" event is the last thing sent |
| Views.NoFlagNoCancel | api/views.py:183-193 | without a flag the loop ends only when the lines run out, with at most one chunk per line |
| Views.RelayAppend | api/views.py:183-193 | lines are relayed in order, and lines after a cancel are not reached |
| Views.LookupId | api/views.py:73 | a leading "0" is dropped, exactly one character; other ids are kept |
| Views.Shown | api/views.py:82-83 | a NULL or zero price is shown as None, any other as itself |
| Views.OffersForSpec | api/views.py:75 | the lookup keeps exactly the offers of that hotel |
| Views.MinPriceIsLeast | api/views.py:76 | the minimum is one of the offers' prices and no priced offer is cheaper; it is NULL exactly when no offer has a price |
| Views.ShowHotelShape | api/views.py:73-97 | a hotel reports its stored id and name, lists at most 50 of its offers in table order, and its minimum ranges over all of its offers |
| Views.Search | api/views.py:67-98 | the loop's result is `Found` of the names |
| Views.FoundAppend | api/views.py:67-98 | results follow the order of the names |
| Views.FoundBound | api/views.py:67-70 | unknown names are skipped, so there are never more results than names |
| Views.HotelSearchPost | api/views.py:47-105 | invalid input gives ValidationError, valid input the results; either way exactly one "hotel_search" record is committed, failed exactly when validation failed |
| Views.AdpChatBodySpec | api/views.py:250-268 | a missing "app" or "session_id" raises KeyError; another app flag then raises UnboundLocalError; with 's' or 'd', a missing "visitor_biz_id" or "content" raises KeyError, and otherwise the payload carries the session, visitor and content unchanged, the agent key the flag picks and the throttle defaulting to 10 |
| Views.AsWrittenRaisesOnFirstLine | api/views.py:284 | as written, any non-empty line raises TypeError before anything is sent |
| Views.AsWrittenSendsNothing | api/views.py:279-285 | as written, a successful response with a "data:" line sends nothing and ends in TypeError |
| Views.TextReplyLostAsWritten | api/views.py:293-297 | as written, a reply whose content is text produces no frame; the intended frame carries the text |
| Views.AsWrittenFrameYieldsNothing | api/views.py:291-299 | with line 297 as written, replies whose content is not a dict yield no delta, and nothing escapes |
| Views.AsWrittenOnlyDone | api/views.py:281-301 | with line 297 as written, such a stream sends only the closing "data: [DONE]" |
| Views.ReplyLineSent | api/views.py:293-297 | as intended, a reply event with truthy content sends one `{"delta": content}` event |
| Views.ClosedByDone | api/views.py:301 | unless an exception escapes, the stream ends with exactly one "data: [DONE]" after every delta |
| Views.ChatLines | api/views.py:281-299 | the loop's chunks and whether it stopped at "[DONE]" are those of the fold over the lines |
| Views.AdpChatEventStream | api/views.py:277-301 | the generator's chunks and escaping exception are those of `AdpChat` |
| McpServer.RequireEnv | mcp_server.py:16-18 | raises RuntimeError naming the variable exactly when the value is empty |
| McpServer.BuildHeaders | mcp_server.py:32-41 | Accept and Content-Type are always set; X-API-Key is set, to the key, exactly when the key is non-empty |
| McpServer.HotelSearch | mcp_server.py:60-65 | a status of 400 or more raises RuntimeError with the status and body; otherwise the parsed body is returned unchanged |
| McpServer.MissingKeyFailsFirst | mcp_server.py:78 | an empty bot key fails before anything is sent or read |
| McpServer.ChatPayloadFields | mcp_server.py:80-93 | the payload carries the tool's arguments and the bot key |
| McpServer.ReadSse | mcp_server.py:109-133 | the loop's chunks, events and ending are those of `ReadLines` |
| McpServer.NonDataIgnored | mcp_server.py:110-113 | empty lines and non-"data:" lines leave both lists unchanged |
| McpServer.DoneEndsRead | mcp_server.py:114-118 | "[DONE]" ends the read: nothing from later lines is recorded |
| McpServer.DataLineRecorded | mcp_server.py:121-133 | a decoded dict is appended to the events and its first non-empty text field to the chunks; undecodable data goes to the chunks raw |
| McpServer.FirstText | mcp_server.py:127-130 | the result is the first key whose value is a non-empty string; None exactly when there is none |
| McpServer.ReadAppend | mcp_server.py:109-133 | the read goes in line order and stops for good at "[DONE]" or a crash |
| McpServer.CollectReplies | mcp_server.py:136-138 | the loop's result is `ReplyContents` of the events |
| McpServer.ReplyOfCases | mcp_server.py:137-138 | an event without "type" raises KeyError, another type adds nothing, and a reply adds its `payload.content` |
| McpServer.RepliesInOrder | mcp_server.py:136-138 | reply contents come in event order, and the first raising event ends the loop with its exception |
| McpServer.JoinRepliesSnoc | mcp_server.py:139 | the result joins the contents with single spaces |
| McpServer.NonTextRepliesRaise | mcp_server.py:139 | a content that is not text makes the join raise TypeError |
| McpServer.AdpChatSseTool | mcp_server.py:68-140 | the tool's result is `AdpChatSse`: key check, status check, read, then the joined reply contents |
| Throttles.IdentCases | api/throttles.py:6-13 | an id gives "client:{id}" and takes precedence; otherwise a non-empty str gives "client:" + its first 16 characters; otherwise no key |
| Throttles.IdsKeptApart | api/throttles.py:8-9 | different ids give different keys |
| Throttles.TokenPrefixShared | api/throttles.py:10-11 | two tokens that share their first 16 characters share a key |
| Throttles.ChatDiffersOnlyInScope | api/throttles.py:15-18 | the chat keys exist for the same auths as the client keys and differ only in the scope "chat" |
| Usage.Recorder.constructor | api/usage.py:6-12 | a new recorder keeps its client, endpoint and session, with `tool_calls` 0, success true and nothing committed |
| Usage.Recorder.IncTool | api/usage.py:14-15 | `tool_calls` grows by n; nothing else changes |
| Usage.Recorder.MarkFailed | api/usage.py:17-18 | success becomes false; nothing else changes |
| Usage.MarkFailedIdempotent | api/usage.py:17-18 | marking failure twice is marking it once |
| Usage.ApplyAllCounts | api/usage.py:14-18 | after any run of uses, the counter has grown by exactly the increments, and success holds exactly when it held before and no use marked failure |
| Usage.Recorder.Commit | api/usage.py:20-29 | one record of the current client, endpoint, session, success and tool count is written, and no field changes |
| Usage.Recorder.Snapshot | api/usage.py:22-29 | the record carries the recorder's current fields |
| B64Msg.Frame | b64msg.py:6-22 | the list built is `Messages` of the file |
| B64Msg.MessagesShape | b64msg.py:7-22 | start ("pcm", 16000) first and end last, frames + 2 messages, audio numbered 1, 2, … each carrying one read of 1 to 640 bytes; decoding the audio in order gives the file back |
| B64Msg.MessagesEnds | b64msg.py:7-22 | the first, last and count of the messages, and the audio decoding to the file |
| B64Msg.MessagesFrames | b64msg.py:10-20 | audio message i has seq i and carries one read of 1 to 640 bytes |
| B64Msg.DecodeNumbered | b64msg.py:15-19 | decoding numbered messages in order gives their chunks, joined |
| FileChunks.Read | b64msg.py:12 | a read returns the next `size` bytes of the file, or all that is left; empty exactly at the end |
| FileChunks.ChunkSizes | b64msg.py:11-14 | every read before the empty one is 1 to `size` bytes, and all but the last are exactly `size` |
| FileChunks.ChunksCover | b64msg.py:11-14 | the reads, joined, are the file |
| FileChunks.ChunkCount | b64msg.py:11-14 | there is one read per `size` bytes or part of it |
| UnlimitedTest.BytesPerFrameValue | unlimited_test.py:28 | BYTES_PER_FRAME is 16000·40/1000·2·1 with exact division, i.e. 1280 |
| UnlimitedTest.InitMessage | unlimited_test.py:59-66 | the init message has type "init", the six keys and the chosen codec |
| UnlimitedTest.InitConfigures | unlimited_test.py:59-67 | the ASR consumer configures itself from it: these ids, agent "s", throttle 10 |
| UnlimitedTest.SendAudio | unlimited_test.py:159-168 | the sender's messages are `Outgoing` of the file |
| UnlimitedTest.OutgoingShape | unlimited_test.py:159-168 | one binary message per 1280-byte read, in order, joining to the file, then exactly one end message |
| UnlimitedTest.Touch | unlimited_test.py:118 | opening for append creates the file if missing and keeps its contents and every other file |
| UnlimitedTest.AppendTo | unlimited_test.py:83-84 | an append adds the bytes at the end of that file only |
| UnlimitedTest.BinaryToSegment | unlimited_test.py:76-78 | with a segment open, a binary frame is appended to it and nothing else changes |
| UnlimitedTest.BinaryToFallback | unlimited_test.py:79-85 | with none open, it is appended to "tts_fallback.bin" |
| UnlimitedTest.OtherTextIgnored | unlimited_test.py:88-154 | non-JSON text and dicts of other types change nothing |
| UnlimitedTest.NonDictEndsLoop | unlimited_test.py:94 | JSON that is not a dict ends the loop with AttributeError |
| UnlimitedTest.StartSwitches | unlimited_test.py:109-118 | `tts_start` sets the seq and opens that segment's file; earlier files keep their contents and the old handle is not closed first |
| UnlimitedTest.DoneResets | unlimited_test.py:120-145 | `tts_done` forgets the segment; a WAV of the segment's bytes is written exactly when the codec is pcm, a path is set and the seqs are equal |
| UnlimitedTest.StepKeepsInv | unlimited_test.py:74-154 | one message keeps the open handle and the path in agreement |
| UnlimitedTest.RunKeepsInv | unlimited_test.py:74-154 | any run of messages keeps that agreement |
| UnlimitedTest.RunBinaries | unlimited_test.py:74-85 | frames arriving while a segment is open are appended to it in order |
| UnlimitedTest.Segment | unlimited_test.py:109-145 | start, frames, done with the same seq and codec pcm: the segment file gains the frames in order, and the WAV holds what the segment file then holds |
| UnlimitedTest.Demux.constructor | unlimited_test.py:49-51 | all three variables start as None |
| UnlimitedTest.Demux.OnMessage | unlimited_test.py:76-154 | one pass of the loop body changes the state as `Step` does |
| UnlimitedTest.Demux.RecvLoop | unlimited_test.py:74-154 | the loop changes the state as `Run` of the messages does |
| Wav.WavLayout | unlimited_test.py:35-39 | the file is the 44-byte header then the frames unchanged, with "RIFF", "WAVE" and "data" in place and both sizes reading back (for files under 4 GiB) |
| Wav.LE32RoundTrip | unlimited_test.py:35-39 | a 32-bit little-endian size field reads back as its value |
| WsTtsClient.Receive | test_ws_tts.py:43-81 | the loop's audio, `got_final` and escaping exception are those of `Collect` |
| WsTtsClient.AudioIsBinaryFrames | test_ws_tts.py:51-52 | when nothing stops the loop, it runs to the close, and the audio is every binary frame concatenated in arrival order |
| WsTtsClient.CollectAppend | test_ws_tts.py:43-81 | messages are read in order, and nothing after a stop counts |
| WsTtsClient.NotJsonSkipped | test_ws_tts.py:60-63 | text that is not JSON is skipped without stopping |
| WsTtsClient.ErrorCodeWins | test_ws_tts.py:66-68 | a code not in (None, 0) stops the loop without the final flag, whatever `final` says |
| WsTtsClient.FinalStops | test_ws_tts.py:78-81 | `final == 1` without an error code stops the loop with the final flag |
| WsTtsClient.Outputs | test_ws_tts.py:84-111 | mp3 gives "tts_out.mp3", pcm gives "tts_out.pcm" plus a WAV of the same bytes, any other codec gives "tts_out.bin"; the first file always holds the audio |
| WsTtsClient.Synthesize | test_ws_tts.py:38-114 | a crash saves and warns nothing; otherwise the files are chosen by codec, and the warning is printed exactly when no final event came |
| WsTtsClient.WarnedUnlessFinal | test_ws_tts.py:113-114 | the warning is printed exactly when the loop ended by a close or an error code |
| Base64.Encode | api/utils/tencent_asr.py:87 | the encoding has 4 characters per 3 octets or part of them |
| Base64.EncodeAlphabet | api/utils/tencent_asr.py:87 | every character is from the Base64 alphabet or is '=' |
| Base64.DecodeEncode | b64msg.py:18 | decoding an encoding gives the octets back |
| Percent.QuoteByte | api/utils/tencent_asr.py:91 | each octet is kept, or escaped as '%' and two upper-case hex digits |
| Percent.QuoteAlphabet | api/utils/tencent_asr.py:91 | quoted text never holds '&' or '=' |
| Percent.UnquoteQuote | api/utils/tencent_tts.py:47 | unquoting gives the UTF-8 octets of the original |
| Utf8.EncodeChar | api/views.py:152 | one to four octets: one below U+0080, otherwise a lead octet and continuation octets |
| Utf8.EncodeAppend | api/views.py:152 | encoding distributes over concatenation |
| Utf8.EncodeAscii | api/utils/tencent_asr.py:86 | ASCII text encodes to its codes, one octet each |
| Query.ParseQueryString | api/utils/tencent_asr.py:82 | a rendered query whose keys lack '=' and whose values lack '&' splits back into its parameters |
| PyText.StripEmptyIffAllSpace | api/consumers.py:135-136 | text strips to nothing exactly when it is all whitespace |
| PyText.StripEnds | api/consumers.py:289 | neither end of stripped text is whitespace |
| PyText.LStripSpec | api/utils/adp_stream.py:46 | lstrip drops the leading whitespace and nothing else |
| PyText.RStripSpec | api/utils/adp_stream.py:46 | rstrip drops the trailing whitespace and nothing else |
| PyText.Take | api/views.py:178 | `s[:n]` is a prefix of length min(n, len) |
| PyText.Drop | api/utils/adp_stream.py:46 | `s[n:]` is what follows that prefix |
| PyText.Lower | test_ws_tts.py:84 | lower-casing maps each character |
| PyText.NatToString | api/utils/tencent_asr.py:82 | `str(n)` is non-empty digits with no leading zero |
| PyText.UnderscoreIgnored | api/utils/tencent_tts.py:37 | `int` accepts an underscore between two digit runs and reads the same value as without it |
| PyText.ParseIntOfIntToString | api/utils/tencent_tts.py:37 | `int(str(i)) == i` |
| PyText.ValueOfNatToString | api/utils/tencent_asr.py:67 | the digits of `str(n)` have value n |
| PyJson.Get | api/utils/adp_stream.py:55 | `.get` raises AttributeError exactly on a non-dict, and otherwise gives the value or the default |
| PyJson.Subscript | mcp_server.py:137 | `v[key]` succeeds exactly on a dict holding the key |
| PyJson.Index0 | api/utils/adp_stream.py:61 | `v[0]` succeeds exactly on a non-empty list or string; an empty list raises IndexError |
| PyJson.StripValue | api/consumers.py:135 | `.strip()` succeeds exactly on a string |
| PyJson.EqualsOneIsPyEq | api/utils/tts_stream.py:45 | the `== 1` test is Python equality with 1 over bools, ints and floats |
| PyJson.IsZeroOrNoneIsPyEq | api/utils/tts_stream.py:43 | the `in (0, None)` test is being None or equal to 0 |
| PyJson.Or | api/consumers.py:135 | `a or b` is a when a is truthy, b otherwise |

## Findings

| source | as written | input that shows it | evidently intended | confidence | as-written member | corrected member |
|---|---|---|---|---|---|---|
| api/consumers.py:140 | the TTS handler unpacks the builder's result into a URL and a session id, but the builder returns one string (api/utils/tencent_tts.py:54) | any non-blank text, e.g. `{"text": "hi"}`: the URL starts with "wss://" and is longer than two characters, so the unpacking raises ValueError and no connection is made | the builder returns the URL together with the SessionId it signed, and the handler connects and announces that id | not executed | TtsConsumer.OnTextAsWritten, TtsConsumer.AsWrittenNeverConnects | TencentTts.BuildUrlWithSession, TencentTts.SessionIdSigned, TtsConsumer.TextConnects |
| api/views.py:284 | each line from httpx `iter_lines` (a str) is tested with a bytes prefix | any successful response with a non-empty line, e.g. `data: [DONE]`: `startswith` raises TypeError outside the try, and nothing is sent | the line handled as text at both places: the prefix test on a str at 284, and at 287 `line[5:].strip()` without the `.decode("utf-8")` that a str lacks, as api/utils/adp_stream.py:45-47 does | not executed | Views.AdpChatAsWritten, Views.AsWrittenRaisesOnFirstLine, Views.AsWrittenSendsNothing | Views.AdpChat, Views.AdpChatEventStream, Views.ClosedByDone |
| api/views.py:297 | the delta frame indexes the reply content, already `payload.content`, with "payload" again | `data: {"type":"reply","payload":{"content":"hi"}}`: indexing a str with a str raises TypeError, the except at line 298 swallows it, and the stream yields only "data: [DONE]" | the frame carries the content: `{"delta": text}` | not executed | Views.DeltaFrameAsWritten, Views.TextReplyLostAsWritten, Views.AsWrittenOnlyDone | Views.DeltaFrame, Views.ReplyLineSent, Views.ClosedByDone |

In the rest of the model, `Views.AdpChat` takes line 297's delta rule as a parameter. Both rules are modelled over the text-prefix loop: `DeltaFrameAsWritten` and `DeltaFrame`. `TtsConsumer.Consumer.Receive` uses the corrected builder pair.

## Left out

- Websocket, HTTP (httpx, requests), Redis and ORM I/O: peers are input sequences, and sends are outbox entries with their close codes. Redis is a `Store` map; the 60-second TTL of `set_cancel` is not modelled.
- Concurrency:
  - the asyncio task creation and cancellation of the consumers (api/consumers.py:30, 84, 120, 169-171);
  - the interleaving of `receive` with `_recv_from_tencent`.
  The ASR consumer's passes are separate methods on one session; the TTS consumer's task is a flag.
- `disconnect` of `New_TencentPCMAsrConsumer` and of the old `TencentPCMAsrConsumer` (api/consumers.py:80-91, 345-355): these only cancel a task and close a socket.
- `connect` and `receive` of the old `TencentPCMAsrConsumer` (api/consumers.py:11-50): a superset is modelled in `New_TencentPCMAsrConsumer`.
- The connect-time URL building and websocket options of the ASR consumers: the URL builder itself is modelled in `TencentAsr`.
- The missing voice orchestrator (`Agent_interaction`, `Final_TencentPCMAsrConsumer`, imported at api/routing.py:2) and `AdpChatFeedbackAPIView` (imported at api/urls.py:6): these are not present in the repository, so there is nothing to model.
- `CancelSessionAPIView` (api/views.py:221-235): its body is `...`. Only its recorder pattern exists, and that is the one `Views.HotelSearchPost` models.
- HMAC-SHA1, `json.loads`, `json.dumps`, `uuid4`, `time.time` and `str(e)`: these are parameters, not modelled. An exception message is its `Exc` value, and the text of a requests exception is the `Describe` parameter.
- `os.getenv`: the agent keys are `Option` values, so an unset key is None. The TTS and ASR credentials (`APPID`, `SecretId`, `SecretKey`) are plain strings in `Config`, so an unset one cannot be represented. For example, `int(None)` at api/utils/tencent_tts.py:37 raises TypeError, which the model does not produce.
- The `"stage": "exception"` event of api/views.py:203-210 (the generic `except Exception`, with its 15-line traceback): not modelled. Inside that `try`, only the Redis call of `is_cancel` could raise, and Redis is a `Store` map that cannot fail.
- Floats: a JSON float is `JFloat` with the exact value of its numeral. Binary rounding is not modelled, and neither are `NaN` and `Infinity`, which `json.loads` also accepts. Prices are exact integers, and only the "falsy becomes None" rule of api/views.py:82-83 and :95 is modelled.
- PyText.ParseInt: accepts ASCII digits with single underscores between them, as `int` does. It rejects the other Unicode decimal digits that Python's `int` also accepts (for example Arabic-Indic digits), which raise ValueError in the model.
- The recorder's `start_ts` and latency (api/usage.py:10, 21): not modelled, because they come from the clock.
- `print` calls, including the progress prints of test_ws_tts.py:54-55, and `asyncio.sleep` pacing.
- Files not modelled:
  - api/management/commands/import_hotels.py, api/models.py, api/serializers.py (the serializers' validation is an `Option` input);
  - api/auth.py, api/permissions.py, api/urls.py, api/routing.py, mysite/views.py;
  - the network test scripts full_test.py, test_pcm.py, m4atest.py, test_voice_agent_ws.py and test_mcp_client.py.
- PyText.Lower: maps ASCII letters only. Python's `str.lower` also folds other scripts; the codecs compared are ASCII.
- Utf8.Encode: covers Unicode scalar values only. A Python `str` holding a lone surrogate makes `.encode("utf-8")` raise, and that path is not modelled.
- Wav.WavLayout: stated for files under 4 GiB. The `wave` module rejects larger ones, and that failure is not modelled.
- TencentTts.SessionIdIsUuid: needs the uuid below 10^128. A uuid4 integer has at most 39 digits, so this always holds.
- TencentAsr.UrlQueryRecoversSignature and TencentTts.UrlQueryRecoversParams: these need the raw values free of '&', since the source does not encode them. Without that, the query cannot be split back, and that is what the source does too.
- McpServer.HotelSearch: a body that is not JSON is an error value. httpx's exact JSONDecodeError is not distinguished.
- AdpStream.StatusChecked: treats every non-2xx status as raising, as httpx's `raise_for_status` does. Informational 1xx responses are not distinguished.
