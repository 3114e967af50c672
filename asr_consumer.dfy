/** `New_TencentPCMAsrConsumer` (api/consumers.py): one browser websocket session
    that streams microphone audio to the recognizer, turns its events into
    notifications, and on each final transcript asks the agent and relays the
    reply stream. */
module AsrConsumer {
  import opened Wrappers
  import opened PyText
  import opened PyJson
  import opened Http
  import opened AdpStream
  import opened Ws
  import opened ClientMessages

  /** The per-connection fields. `upstreamOpen` says whether the recognizer
      connection still accepts frames. */
  datatype Session = Session(sessionId: Json, visitorBizId: Json, app: Json, streamingThrottle: Json,
                             ending: bool, lastAsrText: Json, upstreamOpen: bool)

  /** What the session calls out to: the JSON decoder, the agent keys, and the
      agent platform's answer to each body `adp_stream_reply` posts to it. */
  datatype Services = Services(loads: Loads, keys: AppKeys, post: Json -> Exchange<string>)

  /** The effect of one client frame: the new fields, the frames sent to the
      client and the frames sent upstream. */
  datatype Reaction = Reaction(session: Session, out: seq<Out>, sent: seq<Up>)

  /** The effect of one recognizer event; `stop` means the upstream loop ends. */
  datatype EventResult = EventResult(session: Session, out: seq<Out>, stop: bool)

  /** `d.get(key, default)` on a dict. */
  function FieldOr(d: Json, key: string, default: Json): Json
    requires IsDict(d)
  {
    if key in d.fields then d.fields[key] else default
  }

  // ---- client frames (receive) ----

  /** An `init` message overwrites the four configuration fields. */
  function Init(s: Session, msg: Json): Session
    requires IsDict(msg)
  {
    s.(sessionId := Field(msg, "session_id"), visitorBizId := Field(msg, "visitor_biz_id"),
       app := FieldOr(msg, "app", JStr("d")), streamingThrottle := FieldOr(msg, "streaming_throttle", JInt(10)))
  }

  /** Any exception but ConnectionClosed while handling a frame. */
  function ReceiveFailed(e: Exc): seq<Out> {
    [Failure(InReceive, e), Close(1011)]
  }

  /** `await self.tc_ws.send(frame)`: a closed upstream raises ConnectionClosed,
      which closes the client socket with 1011. */
  function SendUp(s: Session, frame: Up): Reaction {
    if s.upstreamOpen then Reaction(s, [], [frame]) else Reaction(s, [Close(1011)], [])
  }

  function OnAudio(s: Session, bytes: Option<seq<byte>>): Reaction {
    if Present(bytes) then SendUp(s, AudioFrame(bytes.value)) else Reaction(s, [], [])
  }

  /** `receive(text_data, bytes_data)`. */
  function OnFrame(s: Session, text: Option<string>, bytes: Option<seq<byte>>, loads: Loads): Reaction {
    if Present(text) then
      match loads(text.value)
      case NotJson => Reaction(s, ReceiveFailed(JsonDecodeError), [])
      case Value(msg) =>
        if !IsDict(msg) then Reaction(s, ReceiveFailed(AttributeError), [])
        else if Field(msg, "type") == JStr("init") then Reaction(Init(s, msg), [InitOk], [])
        else if Field(msg, "type") == JStr("end") then SendUp(s.(ending := true), EndMessage)
        else OnAudio(s, bytes)
    else OnAudio(s, bytes)
  }

  // ---- recognizer events (_recv_from_tencent, _run_adp) ----

  /** Any exception but ConnectionClosed in the upstream loop ends it. */
  function RecvFailed(e: Exc): seq<Out> {
    [Failure(InAsrRecv, e), Close(1011)]
  }

  /** The event's recognized text: `data["result"].get("voice_text_str") or ""`
      when the event is a dict with a truthy result, "" otherwise. */
  function Recognized(data: Json): Result<Json> {
    if IsDict(data) && Truthy(Field(data, "result")) then
      match Get(Field(data, "result"), "voice_text_str", JNull)
      case Err(e) => Err(e)
      case Ok(v) => Ok(Or(v, JStr("")))
    else Ok(JStr(""))
  }

  function BotDeltas(ds: seq<string>): (r: seq<Out>)
    ensures |r| == |ds| && forall i :: 0 <= i < |ds| ==> r[i] == BotDelta(ds[i])
  {
    seq(|ds|, i requires 0 <= i < |ds| => BotDelta(ds[i]))
  }

  /** The agent request for a final transcript. */
  function AskFor(s: Session, finalText: string): Ask {
    Ask(s.sessionId, s.visitorBizId, s.app, finalText, s.streamingThrottle)
  }

  /** What `adp_stream_reply` yields for a final transcript: the payload built
      from the session is posted, and the answer is read as its stream. */
  function AgentReply(s: Session, finalText: string, sv: Services): Outcome {
    StreamReply(sv.post(Payload(AskFor(s, finalText), sv.keys)), sv.loads)
  }

  lemma BotDeltasSnoc(ds: seq<string>, i: nat)
    requires i < |ds|
    ensures BotDeltas(ds[..i + 1]) == BotDeltas(ds[..i]) + [BotDelta(ds[i])]
  {
    assert ds[..i + 1][i] == ds[i];
  }

  /** What `_run_adp` sends for a reply stream: bot_start, one bot_delta per
      delta, then bot_done, or an adp_failed error if the stream raised. */
  function TurnOut(o: Outcome): seq<Out> {
    [BotStart] + BotDeltas(o.deltas) + (if o.end.Raised? then [Failure(InAdp, o.end.exc)] else [BotDone])
  }

  /** The checks before the agent is called, then the agent turn. */
  function FinalChecks(s: Session, finalText: string, sv: Services): seq<Out> {
    if finalText == "" then [Error(EmptyFinalText)]
    else if !Truthy(s.sessionId) || !Truthy(s.visitorBizId) then [Error(MissingIds)]
    else TurnOut(AgentReply(s, finalText, sv))
  }

  /** `final == 1`: the final text is the event's text or else the last text,
      stripped; asr_final precedes the checks. */
  function OnFinal(s: Session, asrText: Json, data: Json, sv: Services): EventResult {
    if !(IsDict(data) && EqualsOne(Field(data, "final"))) then EventResult(s, [], false)
    else
      match StripValue(Or(asrText, s.lastAsrText))
      case Err(e) => EventResult(s, RecvFailed(e), true)
      case Ok(ft) => EventResult(s, [AsrFinal(ft)] + FinalChecks(s, ft, sv), false)
  }

  /** The session after an event's recognized text: a truthy text is kept. */
  function WithText(s: Session, asrText: Json): Session {
    if Truthy(asrText) then s.(lastAsrText := asrText) else s
  }

  /** The asr_partial notice of a truthy recognized text. */
  function Partial(asrText: Json): seq<Out> {
    if Truthy(asrText) then [AsrPartial(asrText)] else []
  }

  /** A decoded event: asr_raw, then the partial text, then the final handling. */
  function OnData(s: Session, data: Json, sv: Services): EventResult {
    match Recognized(data)
    case Err(e) => EventResult(s, [AsrRaw(data)] + RecvFailed(e), true)
    case Ok(asrText) =>
      var s1 := WithText(s, asrText);
      var head := [AsrRaw(data)] + Partial(asrText);
      var f := OnFinal(s1, asrText, data, sv);
      EventResult(f.session, head + f.out, f.stop)
  }

  /** OnData's session and stop flag are those of the final handling. */
  lemma OnDataEnd(s: Session, data: Json, sv: Services)
    requires Recognized(data).Ok?
    ensures var t := Recognized(data).value;
            var f := OnFinal(WithText(s, t), t, data, sv);
            OnData(s, data, sv).session == f.session && OnData(s, data, sv).stop == f.stop
  {
  }

  /** OnData's frames: asr_raw, the partial text, then the final handling's. */
  lemma OnDataOut(s: Session, data: Json, sv: Services)
    requires Recognized(data).Ok?
    ensures var t := Recognized(data).value;
            var f := OnFinal(WithText(s, t), t, data, sv);
            OnData(s, data, sv).out == [AsrRaw(data)] + Partial(t) + f.out
  {
  }

  /** OnData as the three steps the loop body takes: asr_raw, the partial text,
      then the final handling on the updated session. */
  lemma OnDataSplit(s: Session, data: Json, sv: Services, sent: seq<Out>)
    requires Recognized(data).Ok?
    ensures var t := Recognized(data).value;
            var f := OnFinal(WithText(s, t), t, data, sv);
            var e := OnData(s, data, sv);
            e.session == f.session && e.stop == f.stop && sent + e.out == sent + [AsrRaw(data)] + Partial(t) + f.out
  {
    OnDataEnd(s, data, sv);
    OnDataOut(s, data, sv);
    var t := Recognized(data).value;
    AppendAssoc4(sent, [AsrRaw(data)], Partial(t), OnFinal(WithText(s, t), t, data, sv).out);
  }

  /** One recognizer event. */
  function OnEvent(s: Session, msg: string, sv: Services): EventResult {
    match sv.loads(msg)
    case NotJson => EventResult(s, RecvFailed(JsonDecodeError), true)
    case Value(data) => OnData(s, data, sv)
  }

  /** The events of one connection, in order, until one ends the loop. */
  function Relay(s: Session, msgs: seq<string>, sv: Services): EventResult
    decreases |msgs|, 1
  {
    if msgs == [] then EventResult(s, [], false) else RelayFrom(s, msgs, sv)
  }

  /** A run that has at least one event left: that event, and unless it ends
      the loop, the run of the rest. */
  function RelayFrom(s: Session, msgs: seq<string>, sv: Services): EventResult
    requires msgs != []
    decreases |msgs|, 0
  {
    var e := OnEvent(s, msgs[0], sv);
    if e.stop then e else Prepend(e.out, Relay(e.session, msgs[1..], sv))
  }

  /** Output already sent, followed by the rest of a run. */
  function Prepend(out: seq<Out>, r: EventResult): EventResult {
    EventResult(r.session, out + r.out, r.stop)
  }

  lemma PrependAssoc(a: seq<Out>, b: seq<Out>, r: EventResult)
    ensures Prepend(a, Prepend(b, r)) == Prepend(a + b, r)
  {
    assert a + (b + r.out) == (a + b) + r.out;
  }

  /** One step of the relay loop keeps the run's outcome split into what has
      been sent and what the remaining events will send. */
  lemma RelayAdvance(full: EventResult, done: seq<Out>, s: Session, rest: seq<string>, sv: Services)
    requires rest != [] && full == Prepend(done, Relay(s, rest, sv))
    ensures var e := Relay(s, [rest[0]], sv);
            (e.stop ==> full == EventResult(e.session, done + e.out, true)) &&
            (!e.stop ==> full == Prepend(done + e.out, Relay(e.session, rest[1..], sv)))
  {
    var e := OnEvent(s, rest[0], sv);
    RelayStep(s, rest, sv);
    RelayOne(s, rest[0], sv);
    if !e.stop {
      PrependAssoc(done, e.out, Relay(e.session, rest[1..], sv));
    }
  }

  /** The run of a single event is that event's result. */
  lemma RelayOne(s: Session, msg: string, sv: Services)
    ensures Relay(s, [msg], sv) == OnEvent(s, msg, sv)
  {
    var e := OnEvent(s, msg, sv);
    RelayStep(s, [msg], sv);
    assert [msg][1..] == [];
    assert e.out + [] == e.out;
  }

  /** How Relay unfolds by one event. */
  lemma RelayStep(s: Session, msgs: seq<string>, sv: Services)
    requires msgs != []
    ensures var e := OnEvent(s, msgs[0], sv);
            Relay(s, msgs, sv) == if e.stop then e else Prepend(e.out, Relay(e.session, msgs[1..], sv))
  {
    assert Relay(s, msgs, sv) == RelayFrom(s, msgs, sv);
  }

  /** The whole upstream task: the relay, the abnormal-close notice, and the
      closing of the upstream connection in `finally`. */
  function RecvFromTencent(s: Session, feed: Feed<string>, sv: Services): EventResult {
    var r := Relay(s, feed.msgs, sv);
    var tail := if !r.stop && feed.abnormal then [Error(TencentClosed), Close(1011)] else [];
    EventResult(r.session.(upstreamOpen := false), r.out + tail, r.stop || feed.abnormal)
  }

  class Consumer {
    var sessionId: Json
    var visitorBizId: Json
    var app: Json
    var streamingThrottle: Json
    var ending: bool
    var lastAsrText: Json
    var upstreamOpen: bool
    /** Frames sent to the client, oldest first. */
    var outbox: seq<Out>
    /** Frames sent to the recognizer, oldest first. */
    var upstream: seq<Up>

    function State(): Session
      reads this
    {
      Session(sessionId, visitorBizId, app, streamingThrottle, ending, lastAsrText, upstreamOpen)
    }

    /** `connect`: no ids yet, agent "d", throttle 10, not ending, no text yet;
        the upstream connection is open and "ready" has been sent. */
    constructor ()
      ensures sessionId == JNull && visitorBizId == JNull && app == JStr("d") && streamingThrottle == JInt(10)
      ensures !ending && lastAsrText == JStr("") && upstreamOpen
      ensures outbox == [Ready] && upstream == []
    {
      sessionId := JNull;
      visitorBizId := JNull;
      app := JStr("d");
      streamingThrottle := JInt(10);
      ending := false;
      lastAsrText := JStr("");
      upstreamOpen := true;
      outbox := [Ready];
      upstream := [];
    }

    method Send(m: Out)
      modifies this
      ensures outbox == old(outbox) + [m]
      ensures State() == old(State()) && upstream == old(upstream)
    {
      outbox := outbox + [m];
    }

    method SendUpstream(frame: Up)
      modifies this
      ensures var r := SendUp(old(State()), frame);
              State() == r.session && outbox == old(outbox) + r.out && upstream == old(upstream) + r.sent
    {
      if upstreamOpen {
        upstream := upstream + [frame];
      } else {
        outbox := outbox + [Close(1011)];
      }
    }

    /** `receive`. */
    method Receive(text: Option<string>, bytes: Option<seq<byte>>, loads: Loads)
      modifies this
      ensures var r := OnFrame(old(State()), text, bytes, loads);
              State() == r.session && outbox == old(outbox) + r.out && upstream == old(upstream) + r.sent
    {
      if Present(text) {
        var decoded := loads(text.value);
        if decoded.NotJson? {
          outbox := outbox + ReceiveFailed(JsonDecodeError);
          return;
        }
        var msg := decoded.value;
        var kind := Get(msg, "type", JNull);
        if kind.Err? {
          outbox := outbox + ReceiveFailed(kind.exc);
          return;
        }
        if kind.value == JStr("init") {
          sessionId := Field(msg, "session_id");
          visitorBizId := Field(msg, "visitor_biz_id");
          app := FieldOr(msg, "app", JStr("d"));
          streamingThrottle := FieldOr(msg, "streaming_throttle", JInt(10));
          outbox := outbox + [InitOk];
          return;
        }
        if kind.value == JStr("end") {
          ending := true;
          SendUpstream(EndMessage);
          return;
        }
      }
      if Present(bytes) {
        SendUpstream(AudioFrame(bytes.value));
      }
    }

    /** `_run_adp`. */
    method RunAdp(finalText: string, sv: Services)
      modifies this
      ensures outbox == old(outbox) + TurnOut(AgentReply(old(State()), finalText, sv))
      ensures State() == old(State()) && upstream == old(upstream)
    {
      var ask := AskFor(State(), finalText);
      outbox := outbox + [BotStart];
      var deltas, end := AdpStreamReply(sv.post(Payload(ask, sv.keys)), sv.loads);
      var i := 0;
      while i < |deltas|
        invariant 0 <= i <= |deltas|
        invariant outbox == old(outbox) + [BotStart] + BotDeltas(deltas[..i])
        invariant State() == old(State()) && upstream == old(upstream)
      {
        BotDeltasSnoc(deltas, i);
        AppendAssoc(old(outbox) + [BotStart], BotDeltas(deltas[..i]), [BotDelta(deltas[i])]);
        outbox := outbox + [BotDelta(deltas[i])];
        i := i + 1;
      }
      assert deltas[..i] == deltas;
      var last := if end.Raised? then [Failure(InAdp, end.exc)] else [BotDone];
      outbox := outbox + last;
      AppendAssoc(old(outbox), [BotStart] + BotDeltas(deltas), last);
      AppendAssoc(old(outbox), [BotStart], BotDeltas(deltas));
    }

    /** One iteration of the `async for msg in self.tc_ws` loop: the run of
        that one event (which is OnEvent, by RelayOne). */
    method HandleEvent(msg: string, sv: Services) returns (stop: bool)
      modifies this
      ensures var e := Relay(old(State()), [msg], sv);
              State() == e.session && outbox == old(outbox) + e.out && stop == e.stop
      ensures upstream == old(upstream)
    {
      RelayOne(State(), msg, sv);
      var decoded := sv.loads(msg);
      if decoded.NotJson? {
        outbox := outbox + RecvFailed(JsonDecodeError);
        stop := true;
      } else {
        stop := HandleData(decoded.value, sv);
      }
    }

    /** The body of the loop once the event has been decoded. */
    method HandleData(data: Json, sv: Services) returns (stop: bool)
      modifies this
      ensures var e := OnData(old(State()), data, sv);
              State() == e.session && outbox == old(outbox) + e.out && stop == e.stop
      ensures upstream == old(upstream)
    {
      ghost var s0 := State();
      var recognized := Recognized(data);
      outbox := outbox + [AsrRaw(data)];
      if recognized.Err? {
        outbox := outbox + RecvFailed(recognized.exc);
        stop := true;
        assert outbox == old(outbox) + ([AsrRaw(data)] + RecvFailed(recognized.exc));
      } else {
        NotePartial(recognized.value);
        stop := HandleFinal(recognized.value, data, sv);
        OnDataSplit(s0, data, sv, old(outbox));
      }
    }

    /** A non-empty recognized text becomes the last text and is announced. */
    method NotePartial(asrText: Json)
      modifies this
      ensures State() == WithText(old(State()), asrText) && outbox == old(outbox) + Partial(asrText)
      ensures upstream == old(upstream)
    {
      if Truthy(asrText) {
        lastAsrText := asrText;
        outbox := outbox + [AsrPartial(asrText)];
      }
    }

    /** The checks on a final text, then the agent turn. */
    method RunChecks(finalText: string, sv: Services)
      modifies this
      ensures outbox == old(outbox) + FinalChecks(old(State()), finalText, sv)
      ensures State() == old(State()) && upstream == old(upstream)
    {
      if finalText == "" {
        outbox := outbox + [Error(EmptyFinalText)];
      } else if !Truthy(sessionId) || !Truthy(visitorBizId) {
        outbox := outbox + [Error(MissingIds)];
      } else {
        RunAdp(finalText, sv);
      }
    }

    /** The `final == 1` branch of the loop body. */
    method HandleFinal(asrText: Json, data: Json, sv: Services) returns (stop: bool)
      modifies this
      ensures var f := OnFinal(old(State()), asrText, data, sv);
              State() == f.session && outbox == old(outbox) + f.out && stop == f.stop
      ensures upstream == old(upstream)
    {
      if !(IsDict(data) && EqualsOne(Field(data, "final"))) {
        assert outbox == old(outbox) + [];
        return false;
      }
      var stripped := StripValue(Or(asrText, lastAsrText));
      if stripped.Err? {
        outbox := outbox + RecvFailed(stripped.exc);
        return true;
      }
      var finalText := stripped.value;
      outbox := outbox + [AsrFinal(finalText)];
      RunChecks(finalText, sv);
      AppendAssoc(old(outbox), [AsrFinal(finalText)], FinalChecks(old(State()), finalText, sv));
      return false;
    }

    /** Event `i` of the loop: what has been sent so far (`done`, after
        `base`) and the run of the events from `i` on make up the whole run
        `full`; after the event, the same holds from `i + 1` on, or the run has
        ended here. */
    method Advance(msgs: seq<string>, i: nat, sv: Services, ghost base: seq<Out>, ghost full: EventResult,
                   ghost done: seq<Out>) returns (stopped: bool, ghost done': seq<Out>)
      requires i < |msgs| && outbox == base + done && full == Prepend(done, Relay(State(), msgs[i..], sv))
      modifies this
      ensures outbox == base + done' && upstream == old(upstream)
      ensures stopped ==> full == EventResult(State(), done', true)
      ensures !stopped ==> full == Prepend(done', Relay(State(), msgs[i + 1..], sv))
    {
      ghost var e := Relay(State(), [msgs[i]], sv);
      RelayAdvance(full, done, State(), msgs[i..], sv);
      assert msgs[i..][0] == msgs[i] && msgs[i..][1..] == msgs[i + 1..];
      stopped := HandleEvent(msgs[i], sv);
      done' := done + e.out;
      AppendAssoc(base, done, e.out);
    }

    /** The `async for msg in self.tc_ws` loop: the events in order until one
        ends it. */
    method RelayEvents(msgs: seq<string>, sv: Services) returns (stopped: bool)
      modifies this
      ensures var r := Relay(old(State()), msgs, sv);
              State() == r.session && outbox == old(outbox) + r.out && stopped == r.stop
      ensures upstream == old(upstream)
    {
      ghost var full := Relay(State(), msgs, sv);
      ghost var done: seq<Out> := [];
      var i := 0;
      assert msgs[0..] == msgs;
      while i < |msgs|
        invariant 0 <= i <= |msgs|
        invariant outbox == old(outbox) + done && upstream == old(upstream)
        invariant full == Prepend(done, Relay(State(), msgs[i..], sv))
      {
        stopped, done := Advance(msgs, i, sv, old(outbox), full, done);
        if stopped {
          return;
        }
        i := i + 1;
      }
      assert msgs[i..] == [];
      assert outbox == old(outbox) + done + [];
      return false;
    }

    /** `_recv_from_tencent`: the loop, the notice of an abnormal close, and the
        closing of the upstream connection in `finally`. */
    method RecvFromTencentTask(feed: Feed<string>, sv: Services)
      modifies this
      ensures var r := RecvFromTencent(old(State()), feed, sv);
              State() == r.session && outbox == old(outbox) + r.out
      ensures upstream == old(upstream)
    {
      var stopped := RelayEvents(feed.msgs, sv);
      if !stopped && feed.abnormal {
        outbox := outbox + [Error(TencentClosed), Close(1011)];
      }
      upstreamOpen := false;
    }
  }

  // ---- properties of the client frames ----

  /** An init frame replaces the four configuration fields (an absent app
      becomes "d", an absent throttle 10), leaves the rest, and answers with
      exactly one init_ok. */
  lemma InitFrame(s: Session, t: string, msg: map<string, Json>, loads: Loads)
    requires t != "" && loads(t) == Value(JObj(msg)) && "type" in msg && msg["type"] == JStr("init")
    ensures var r := OnFrame(s, Some(t), None, loads);
            r.out == [InitOk] && r.sent == [] &&
            r.session.sessionId == (if "session_id" in msg then msg["session_id"] else JNull) &&
            r.session.visitorBizId == (if "visitor_biz_id" in msg then msg["visitor_biz_id"] else JNull) &&
            r.session.app == (if "app" in msg then msg["app"] else JStr("d")) &&
            r.session.streamingThrottle == (if "streaming_throttle" in msg then msg["streaming_throttle"] else JInt(10)) &&
            r.session.ending == s.ending && r.session.lastAsrText == s.lastAsrText && r.session.upstreamOpen == s.upstreamOpen
  {
  }

  /** An end frame sets ending and forwards {"type": "end"} upstream. */
  lemma EndFrame(s: Session, t: string, msg: map<string, Json>, bytes: Option<seq<byte>>, loads: Loads)
    requires t != "" && loads(t) == Value(JObj(msg)) && "type" in msg && msg["type"] == JStr("end")
    ensures var r := OnFrame(s, Some(t), bytes, loads);
            r.session == s.(ending := true) &&
            (s.upstreamOpen ==> r.sent == [EndMessage] && r.out == []) &&
            (!s.upstreamOpen ==> r.sent == [] && r.out == [Close(1011)])
  {
  }

  /** An audio frame is forwarded unchanged and changes no field. */
  lemma AudioForwarded(s: Session, b: seq<byte>, loads: Loads)
    requires b != [] && s.upstreamOpen
    ensures OnFrame(s, None, Some(b), loads) == Reaction(s, [], [AudioFrame(b)])
  {
  }

  /** A text frame that is not JSON, or is JSON but not an object, reports
      receive_failed and closes with 1011, changing no field. */
  lemma BadFrame(s: Session, t: string, bytes: Option<seq<byte>>, loads: Loads)
    requires t != "" && (loads(t) == NotJson || (loads(t).Value? && !IsDict(loads(t).value)))
    ensures var r := OnFrame(s, Some(t), bytes, loads);
            r.session == s && r.sent == [] && |r.out| == 2 && r.out[0].Failure? && r.out[0].context == InReceive &&
            r.out[1] == Close(1011)
  {
  }

  // ---- properties of the recognizer events ----

  /** Every decoded event is relayed first, as asr_raw. */
  lemma RawRelayedFirst(s: Session, msg: string, sv: Services)
    requires sv.loads(msg).Value?
    ensures var e := OnEvent(s, msg, sv);
            e.out != [] && e.out[0] == AsrRaw(sv.loads(msg).value)
  {
  }

  /** A non-empty voice_text_str becomes the last text and is announced right
      after the raw event. */
  lemma PartialRecorded(s: Session, msg: string, sv: Services, res: map<string, Json>, text: string)
    requires sv.loads(msg).Value? && sv.loads(msg).value.JObj?
    requires "result" in sv.loads(msg).value.fields && sv.loads(msg).value.fields["result"] == JObj(res)
    requires "voice_text_str" in res && res["voice_text_str"] == JStr(text) && text != ""
    ensures var e := OnEvent(s, msg, sv);
            e.session.lastAsrText == JStr(text) && |e.out| >= 2 && e.out[1] == AsrPartial(JStr(text))
  {
    assert Truthy(JObj(res));
  }

  /** A final event (`final` equal to 1, 1.0 or true) whose recognized text is
      falsy (no or a falsy `result`, or no or an empty `voice_text_str`) falls
      back to the last text, stripped, and announces it as asr_final before any
      check. */
  lemma FinalFallsBack(s: Session, msg: string, sv: Services, last: string)
    requires sv.loads(msg).Value? && IsDict(sv.loads(msg).value) && s.lastAsrText == JStr(last)
    requires EqualsOne(Field(sv.loads(msg).value, "final"))
    requires Recognized(sv.loads(msg).value).Ok? && !Truthy(Recognized(sv.loads(msg).value).value)
    ensures var e := OnEvent(s, msg, sv);
            !e.stop && e.session == s && |e.out| >= 2 && e.out[..2] == [AsrRaw(sv.loads(msg).value), AsrFinal(Strip(last))]
  {
  }

  /** An empty final transcript is reported and the agent is not called; the
      loop goes on. */
  lemma EmptyFinalSkipsAgent(s: Session, ft: string, sv: Services)
    requires Strip(ft) == ""
    ensures FinalChecks(s, Strip(ft), sv) == [Error(EmptyFinalText)]
  {
  }

  /** Without both ids the agent is not called; the loop goes on. */
  lemma MissingIdsSkipAgent(s: Session, ft: string, sv: Services)
    requires ft != "" && (!Truthy(s.sessionId) || !Truthy(s.visitorBizId))
    ensures FinalChecks(s, ft, sv) == [Error(MissingIds)]
    ensures BotStart !in FinalChecks(s, ft, sv)
  {
  }

  /** With a transcript and both ids, the agent turn is bot_start, the deltas of
      the agent's stream in order, and bot_done exactly when the stream did not
      raise (an adp_failed error otherwise). */
  lemma AgentTurnShape(s: Session, ft: string, sv: Services)
    requires ft != "" && Truthy(s.sessionId) && Truthy(s.visitorBizId)
    ensures var o := AgentReply(s, ft, sv);
            var out := FinalChecks(s, ft, sv);
            |out| == |o.deltas| + 2 && out[0] == BotStart &&
            (forall i :: 0 <= i < |o.deltas| ==> out[i + 1] == BotDelta(o.deltas[i])) &&
            (out[|out| - 1] == BotDone <==> !o.end.Raised?) &&
            (o.end.Raised? ==> out[|out| - 1] == Failure(InAdp, o.end.exc))
    ensures forall i :: 0 <= i < |FinalChecks(s, ft, sv)| && FinalChecks(s, ft, sv)[i].BotDelta? ==>
              FinalChecks(s, ft, sv)[i].delta != ""
  {
    var o := AgentReply(s, ft, sv);
    var out := FinalChecks(s, ft, sv);
    ReplyDeltasNonEmpty(sv.post(Payload(AskFor(s, ft), sv.keys)), sv.loads);
    assert out == [BotStart] + BotDeltas(o.deltas) + (if o.end.Raised? then [Failure(InAdp, o.end.exc)] else [BotDone]);
    forall i | 0 <= i < |o.deltas| ensures out[i + 1] == BotDelta(o.deltas[i]) {
      assert out[i + 1] == BotDeltas(o.deltas)[i];
    }
    forall i | 0 <= i < |out| && out[i].BotDelta? ensures out[i].delta != "" {
      assert 1 <= i <= |o.deltas| && out[i] == BotDelta(o.deltas[i - 1]);
    }
  }

  /** The reply stream is the agent platform's answer to a body that carries the
      final transcript as content, under the session's ids, agent flag and
      throttle. */
  lemma AgentPayload(s: Session, ft: string, sv: Services)
    ensures var p := Payload(AskFor(s, ft), sv.keys);
            AgentReply(s, ft, sv) == StreamReply(sv.post(p), sv.loads) &&
            p.JObj? && "content" in p.fields && "session_id" in p.fields && "visitor_biz_id" in p.fields &&
            "streaming_throttle" in p.fields && "bot_app_key" in p.fields &&
            p.fields["content"] == JStr(ft) && p.fields["session_id"] == s.sessionId &&
            p.fields["visitor_biz_id"] == s.visitorBizId && p.fields["streaming_throttle"] == s.streamingThrottle &&
            p.fields["bot_app_key"] == OptText(PickBotAppKey(s.app, sv.keys))
  {
    PayloadFields(AskFor(s, ft), sv.keys);
  }

  /** The last text is never cleared: once a partial result has been seen, a
      later final event without text reports it again. */
  lemma StaleTextReused(s: Session, m1: string, m2: string, sv: Services, text: string)
    requires sv.loads(m1).Value? && sv.loads(m1).value.JObj? && "final" !in sv.loads(m1).value.fields
    requires "result" in sv.loads(m1).value.fields && sv.loads(m1).value.fields["result"].JObj?
    requires var res := sv.loads(m1).value.fields["result"].fields;
             "voice_text_str" in res && res["voice_text_str"] == JStr(text) && text != ""
    requires sv.loads(m2).Value? && sv.loads(m2).value.JObj? && "result" !in sv.loads(m2).value.fields
    requires "final" in sv.loads(m2).value.fields && sv.loads(m2).value.fields["final"] == JInt(1)
    ensures AsrFinal(Strip(text)) in Relay(s, [m1, m2], sv).out
  {
    var res := sv.loads(m1).value.fields["result"].fields;
    PartialRecorded(s, m1, sv, res, text);
    var e1 := OnEvent(s, m1, sv);
    assert !e1.stop;
    FinalFallsBack(e1.session, m2, sv, text);
    var e2 := OnEvent(e1.session, m2, sv);
    assert [m1, m2][1..] == [m2] && [m2][1..] == [];
    assert e2.out[1] == AsrFinal(Strip(text));
    RelayStep(e1.session, [m2], sv);
    assert Relay(e1.session, [m2], sv).out == e2.out + [];
    RelayStep(s, [m1, m2], sv);
    assert Relay(s, [m1, m2], sv).out == e1.out + (e2.out + []);
    assert (e1.out + (e2.out + []))[|e1.out| + 1] == e2.out[1];
  }

  /** The upstream loop stops early only on an error, and then the last frame
      sent closes the client socket with 1011. */
  lemma {:induction false} RelayStopCloses(s: Session, msgs: seq<string>, sv: Services)
    ensures var r := Relay(s, msgs, sv);
            r.stop ==> r.out != [] && r.out[|r.out| - 1] == Close(1011)
    decreases |msgs|
  {
    if msgs != [] {
      var e := OnEvent(s, msgs[0], sv);
      if !e.stop {
        RelayStopCloses(e.session, msgs[1..], sv);
      }
    }
  }

  /** After the task the upstream connection is closed, and the client socket is
      closed with 1011 exactly when the loop ended on an error or an abnormal close. */
  lemma TaskClosesUpstream(s: Session, feed: Feed<string>, sv: Services)
    ensures var r := RecvFromTencent(s, feed, sv);
            !r.session.upstreamOpen &&
            (r.stop ==> r.out != [] && r.out[|r.out| - 1] == Close(1011))
  {
    RelayStopCloses(s, feed.msgs, sv);
  }
}
