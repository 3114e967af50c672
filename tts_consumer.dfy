/** `TencentTTSConsumer` (api/consumers.py): one browser websocket session that
    takes a text to speak, opens a signed connection to the synthesis service and
    relays what it sends back until a final or error frame. */
module TtsConsumer {
  import opened Wrappers
  import opened PyText
  import opened PyJson
  import opened Ws
  import opened ClientMessages
  import TencentAsr
  import TencentTts

  /** The three environment variables the URL builder is given. */
  datatype Config = Config(appid: string, secretId: string, secretKey: string)

  /** The per-connection fields: the URL of the open upstream connection
      (`tc_ws`), whether a relay task has been started (`recv_task`), and
      `ending`. */
  datatype Session = Session(connection: Option<string>, recvTask: bool, ending: bool)

  /** The effect of one client frame: the new fields, the frames sent to the
      client, the upstream connections closed, and the exception that escapes
      `receive`, if any. */
  datatype Reaction = Reaction(session: Session, out: seq<Out>, closed: seq<string>, raised: Option<Exc>)

  /** `(msg.get("text") or "").strip()` of the decoded frame. */
  function RequestedText(t: string, loads: Loads): Result<string> {
    match loads(t)
    case NotJson => Err(JsonDecodeError)
    case Value(msg) =>
      match Get(msg, "text", JNull)
      case Err(e) => Err(e)
      case Ok(v) => StripValue(Or(v, JStr("")))
  }

  /** The request `receive` builds for a text: codec "pcm", 300 seconds. */
  function RequestFor(cfg: Config, text: string): TencentTts.Request {
    TencentTts.DefaultRequest(cfg.appid, cfg.secretId, cfg.secretKey, text, "pcm")
  }

  /** The old connection is closed and forgotten, the new one opened, its
      session id announced, and a new relay task replaces the old. */
  function Connect(s: Session, url: string, sessionId: Json): Reaction {
    Reaction(Session(Some(url), true, s.ending), [TencentConnected(sessionId)],
             if s.connection.Some? then [s.connection.value] else [], None)
  }

  /** `receive(text_data)` with the URL builder returning the pair its caller
      unpacks: the URL and the session id. */
  function OnText(s: Session, text: Option<string>, cfg: Config, env: TencentTts.Env,
                  hmac: TencentAsr.Hmac, loads: Loads): Reaction
  {
    if !Present(text) then Reaction(s, [], [], None)
    else
      match RequestedText(text.value, loads)
      case Err(e) => Reaction(s, [], [], Some(e))
      case Ok(t) =>
        if t == "" then Reaction(s, [Error(TextEmpty)], [], None)
        else
          match TencentTts.BuildUrlWithSession(RequestFor(cfg, t), env, hmac)
          case Err(e) => Reaction(s, [], [], Some(e))
          case Ok(pair) => Connect(s, pair.0, JInt(pair.1))
  }

  /** `a, b = v` for a str v: a pair of one-character strings when v has exactly
      two characters, ValueError otherwise. */
  function Unpack2(v: string): (r: Result<(string, string)>)
    ensures r.Ok? <==> |v| == 2
  {
    if |v| == 2 then Ok(([v[0]], [v[1]])) else Err(ValueError)
  }

  /** `receive(text_data)` as written: the builder returns one string, which the
      caller unpacks into two names. */
  function OnTextAsWritten(s: Session, text: Option<string>, cfg: Config, env: TencentTts.Env,
                           hmac: TencentAsr.Hmac, loads: Loads): Reaction
  {
    if !Present(text) then Reaction(s, [], [], None)
    else
      match RequestedText(text.value, loads)
      case Err(e) => Reaction(s, [], [], Some(e))
      case Ok(t) =>
        if t == "" then Reaction(s, [Error(TextEmpty)], [], None)
        else
          match TencentTts.BuildUrl(RequestFor(cfg, t), env, hmac)
          case Err(e) => Reaction(s, [], [], Some(e))
          case Ok(url) =>
            match Unpack2(url)
            case Err(e) => Reaction(s, [], [], Some(e))
            case Ok(pair) => Connect(s, pair.0, JStr(pair.1))
  }

  // ---- the relay task ----

  /** Every upstream message is passed on as it came: bytes as a binary frame,
      text as a text frame. */
  function Forward(m: Message): Out {
    match m
    case Binary(b) => BinaryFrame(b)
    case Text(t) => TextFrame(t)
  }

  function Frames(ms: seq<Message>): (r: seq<Out>)
    ensures |r| == |ms|
  {
    seq(|ms|, i requires 0 <= i < |ms| => Forward(ms[i]))
  }

  lemma FramesSnoc(ms: seq<Message>, n: nat)
    requires n < |ms|
    ensures Frames(ms[..n + 1]) == Frames(ms[..n]) + [Forward(ms[n])]
  {
    assert ms[..n + 1][n] == ms[n];
  }

  /** After forwarding a text frame the loop breaks when it is a dict with
      `final == 1` or a code not in (0, None). Text that is not JSON, or JSON
      whose `.get` raises, is caught and the loop goes on. */
  predicate Stops(m: Message, loads: Loads) {
    m.Text? &&
    match loads(m.text)
    case NotJson => false
    case Value(obj) => IsDict(obj) && (EqualsOne(Field(obj, "final")) || !IsZeroOrNone(Field(obj, "code")))
  }

  /** How many messages the loop forwards, and whether it broke out. */
  datatype Run = Run(count: nat, broke: bool)

  function RunOf(ms: seq<Message>, loads: Loads): (r: Run)
    ensures r.count <= |ms|
  {
    if ms == [] then Run(0, false)
    else if Stops(ms[0], loads) then Run(1, true)
    else var r := RunOf(ms[1..], loads); Run(r.count + 1, r.broke)
  }

  /** `_recv_from_tencent`: the forwarded frames, then, when the connection
      closed abnormally before the loop broke and the session is not ending, the
      "tencent ws error" notice. */
  function RelayOut(feed: Feed<Message>, ending: bool, loads: Loads): seq<Out> {
    var r := RunOf(feed.msgs, loads);
    Frames(feed.msgs[..r.count]) +
    (if !r.broke && feed.abnormal && !ending then [Failure(InTencentWs, ConnectionClosed)] else [])
  }

  /** A loop that ran n messages without breaking before the last, and broke on
      the last exactly when `broke`, is the run RunOf describes. */
  lemma {:induction false} RunAt(ms: seq<Message>, loads: Loads, n: nat, broke: bool)
    requires n <= |ms| && (forall j :: 0 <= j < n && !(broke && j == n - 1) ==> !Stops(ms[j], loads))
    requires broke ==> n > 0 && Stops(ms[n - 1], loads)
    requires !broke ==> n == |ms|
    ensures RunOf(ms, loads) == Run(n, broke)
  {
    if n > 0 && !(broke && n == 1) {
      assert !Stops(ms[0], loads);
      var rest := ms[1..];
      forall j | 0 <= j < n - 1 && !(broke && j == n - 2) ensures !Stops(rest[j], loads) {
        assert rest[j] == ms[j + 1];
      }
      if broke { assert rest[n - 2] == ms[n - 1]; }
      RunAt(rest, loads, n - 1, broke);
    }
  }

  class Consumer {
    var connection: Option<string>
    var recvTask: bool
    var ending: bool
    /** Frames sent to the client, oldest first. */
    var outbox: seq<Out>
    /** Upstream connections closed, oldest first. */
    var closed: seq<string>

    function State(): Session
      reads this
    {
      Session(connection, recvTask, ending)
    }

    /** `connect`: no upstream connection, no task, not ending; "ready" sent. */
    constructor ()
      ensures connection == None && !recvTask && !ending
      ensures outbox == [Ready] && closed == []
    {
      connection := None;
      recvTask := false;
      ending := false;
      outbox := [Ready];
      closed := [];
    }

    /** `disconnect`: ending is set, the task cancelled and the connection
        closed; `tc_ws` itself is left as it was. */
    method Disconnect()
      modifies this
      ensures ending && !recvTask && connection == old(connection) && outbox == old(outbox)
      ensures closed == old(closed) + (if old(connection).Some? then [old(connection).value] else [])
    {
      ending := true;
      recvTask := false;
      if connection.Some? {
        closed := closed + [connection.value];
      }
    }

    /** `receive`, with the builder returning the URL and the session id. */
    method Receive(text: Option<string>, cfg: Config, env: TencentTts.Env, hmac: TencentAsr.Hmac, loads: Loads)
      returns (raised: Option<Exc>)
      modifies this
      ensures var r := OnText(old(State()), text, cfg, env, hmac, loads);
              State() == r.session && outbox == old(outbox) + r.out && closed == old(closed) + r.closed &&
              raised == r.raised
    {
      raised := None;
      if !Present(text) {
        return;
      }
      var requested := RequestedText(text.value, loads);
      if requested.Err? {
        raised := Some(requested.exc);
        return;
      }
      var t := requested.value;
      if t == "" {
        outbox := outbox + [Error(TextEmpty)];
        return;
      }
      var built := TencentTts.BuildUrlWithSession(RequestFor(cfg, t), env, hmac);
      if built.Err? {
        raised := Some(built.exc);
        return;
      }
      var (url, sessionId) := built.value;
      if connection.Some? {
        closed := closed + [connection.value];
        connection := None;
      }
      connection := Some(url);
      outbox := outbox + [TencentConnected(JInt(sessionId))];
      recvTask := true;
    }

    /** `_recv_from_tencent`: forward each message, break after a final or
        error frame, report an abnormal close unless ending, and close the
        connection in `finally`. */
    method RecvFromTencent(feed: Feed<Message>, loads: Loads)
      modifies this
      ensures outbox == old(outbox) + RelayOut(feed, old(ending), loads)
      ensures closed == old(closed) + (if old(connection).Some? then [old(connection).value] else [])
      ensures connection == None && recvTask == old(recvTask) && ending == old(ending)
    {
      var ms := feed.msgs;
      var n := 0;
      var broke := false;
      while n < |ms| && !broke
        invariant 0 <= n <= |ms|
        invariant outbox == old(outbox) + Frames(ms[..n])
        invariant broke ==> n > 0 && Stops(ms[n - 1], loads)
        invariant forall j :: 0 <= j < n && !(broke && j == n - 1) ==> !Stops(ms[j], loads)
        invariant connection == old(connection) && closed == old(closed)
        invariant recvTask == old(recvTask) && ending == old(ending)
      {
        FramesSnoc(ms, n);
        AppendAssoc(old(outbox), Frames(ms[..n]), [Forward(ms[n])]);
        outbox := outbox + [Forward(ms[n])];
        broke := Stops(ms[n], loads);
        n := n + 1;
      }
      RunAt(ms, loads, n, broke);
      var notice := if !broke && feed.abnormal && !ending then [Failure(InTencentWs, ConnectionClosed)] else [];
      AppendAssoc(old(outbox), Frames(ms[..n]), notice);
      outbox := outbox + notice;
      if connection.Some? {
        closed := closed + [connection.value];
      }
      connection := None;
    }
  }

  // ---- properties of receive ----

  /** A frame without text changes nothing. */
  lemma NoTextIgnored(s: Session, text: Option<string>, cfg: Config, env: TencentTts.Env,
                      hmac: TencentAsr.Hmac, loads: Loads)
    requires !Present(text)
    ensures OnText(s, text, cfg, env, hmac, loads) == Reaction(s, [], [], None)
  {
  }

  /** A text that is missing, falsy (None, "", 0, false, [] or {}), or only
      whitespace is answered with exactly "text is empty", and no URL is built
      and no connection touched. */
  lemma BlankTextRejected(s: Session, t: string, m: map<string, Json>, w: string, cfg: Config,
                          env: TencentTts.Env, hmac: TencentAsr.Hmac, loads: Loads)
    requires t != "" && loads(t) == Value(JObj(m))
    requires "text" !in m || !Truthy(m["text"]) || (m["text"] == JStr(w) && AllSpace(w))
    ensures OnText(s, Some(t), cfg, env, hmac, loads) == Reaction(s, [Error(TextEmpty)], [], None)
  {
    StripEmptyIffAllSpace(w);
    StripEmptyIffAllSpace("");
  }

  /** A non-blank text opens the signed URL for that text (codec pcm, 300
      seconds), closing the previous connection first, and announces the
      session id the URL carries. */
  lemma TextConnects(s: Session, t: string, cfg: Config, env: TencentTts.Env,
                     hmac: TencentAsr.Hmac, loads: Loads, text: string)
    requires t != "" && RequestedText(t, loads) == Ok(text) && text != "" && ParseInt(cfg.appid).Ok?
    ensures var r := OnText(s, Some(t), cfg, env, hmac, loads);
            r.raised == None &&
            r.session == Session(Some(TencentTts.Url(RequestFor(cfg, text), env, ParseInt(cfg.appid).value, hmac)), true, s.ending) &&
            r.out == [TencentConnected(JInt(TencentTts.SessionId(env.sessionUuid)))] &&
            r.closed == (if s.connection.Some? then [s.connection.value] else [])
  {
  }

  /** The builder as written returns a URL beginning "wss://", so unpacking it
      into two names raises ValueError: every non-blank text ends in that
      exception, with nothing sent and no connection opened. */
  lemma AsWrittenNeverConnects(s: Session, t: string, cfg: Config, env: TencentTts.Env,
                               hmac: TencentAsr.Hmac, loads: Loads, text: string)
    requires t != "" && RequestedText(t, loads) == Ok(text) && text != "" && ParseInt(cfg.appid).Ok?
    ensures OnTextAsWritten(s, Some(t), cfg, env, hmac, loads) == Reaction(s, [], [], Some(ValueError))
  {
    var url := TencentTts.Url(RequestFor(cfg, text), env, ParseInt(cfg.appid).value, hmac);
    TencentTts.UrlScheme(RequestFor(cfg, text), env, ParseInt(cfg.appid).value, hmac);
    assert |url| > 2;
  }

  /** On every input the as-written handler leaves the fields alone and never
      announces a session. */
  lemma AsWrittenKeepsSession(s: Session, text: Option<string>, cfg: Config, env: TencentTts.Env,
                              hmac: TencentAsr.Hmac, loads: Loads)
    ensures var r := OnTextAsWritten(s, text, cfg, env, hmac, loads);
            r.session == s && r.closed == [] && forall i :: 0 <= i < |r.out| ==> !r.out[i].TencentConnected?
  {
    if Present(text) && RequestedText(text.value, loads).Ok? && RequestedText(text.value, loads).value != "" {
      var rq := RequestFor(cfg, RequestedText(text.value, loads).value);
      if ParseInt(cfg.appid).Ok? {
        TencentTts.UrlScheme(rq, env, ParseInt(cfg.appid).value, hmac);
      }
    }
  }

  // ---- properties of the relay ----

  /** The loop forwards a prefix of the messages, verbatim and in order; it
      breaks exactly when some message stops it, and then on the first such. */
  lemma {:induction false} RunFirstStop(ms: seq<Message>, loads: Loads)
    ensures var r := RunOf(ms, loads);
            r.count <= |ms| &&
            (forall j :: 0 <= j < r.count - 1 ==> !Stops(ms[j], loads)) &&
            (r.broke <==> exists j :: 0 <= j < |ms| && Stops(ms[j], loads)) &&
            (r.broke ==> Stops(ms[r.count - 1], loads)) &&
            (!r.broke ==> r.count == |ms|)
  {
    if ms != [] && !Stops(ms[0], loads) {
      var rest := ms[1..];
      RunFirstStop(rest, loads);
      var r := RunOf(rest, loads);
      forall j | 0 <= j < r.count ensures !Stops(ms[j], loads) {
        if j > 0 { assert ms[j] == rest[j - 1]; }
      }
      if r.broke {
        assert ms[r.count] == rest[r.count - 1];
      } else {
        forall j | 0 <= j < |ms| ensures !Stops(ms[j], loads) {
          if j > 0 { assert ms[j] == rest[j - 1]; }
        }
      }
      if exists j :: 0 <= j < |ms| && Stops(ms[j], loads) {
        var j :| 0 <= j < |ms| && Stops(ms[j], loads);
        assert j > 0 && rest[j - 1] == ms[j];
      }
    }
  }

  /** Each forwarded frame is the message itself. */
  lemma FramesVerbatim(ms: seq<Message>, i: nat)
    requires i < |ms|
    ensures ms[i].Binary? ==> Frames(ms)[i] == BinaryFrame(ms[i].bytes)
    ensures ms[i].Text? ==> Frames(ms)[i] == TextFrame(ms[i].text)
  {
  }

  /** Binary frames, empty ones included, never stop the loop, and neither does
      text that is not JSON or JSON that is not a dict. */
  lemma NonStopping(m: Message, loads: Loads)
    ensures m.Binary? ==> !Stops(m, loads)
    ensures m.Text? && loads(m.text) == NotJson ==> !Stops(m, loads)
    ensures m.Text? && loads(m.text).Value? && !IsDict(loads(m.text).value) ==> !Stops(m, loads)
  {
  }

  /** A dict text frame stops the loop exactly when its `final` equals 1 (`1`,
      `1.0` or `true`) or its code is present and not 0, 0.0, False or None;
      a plain `{"code": 0}` does not. */
  lemma StopFrames(t: string, m: map<string, Json>, loads: Loads)
    requires loads(t) == Value(JObj(m))
    ensures (("final" in m && EqualsOne(m["final"])) || ("code" in m && !IsZeroOrNone(m["code"]))) <==>
            Stops(Text(t), loads)
    ensures m == map["code" := JInt(0)] ==> !Stops(Text(t), loads)
  {
  }

  /** The relay reports an error only when the upstream closed abnormally
      before any final or error frame and the client is not leaving. */
  lemma ErrorOnlyOnAbnormalClose(feed: Feed<Message>, ending: bool, loads: Loads)
    ensures var out := RelayOut(feed, ending, loads);
            var n := RunOf(feed.msgs, loads).count;
            |out| == n + (if |out| > n then 1 else 0) &&
            (|out| > n <==> feed.abnormal && !ending && forall j :: 0 <= j < |feed.msgs| ==> !Stops(feed.msgs[j], loads))
  {
    RunFirstStop(feed.msgs, loads);
  }
}
