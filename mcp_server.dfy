/** The MCP tool server (mcp_server.py): its environment check, the headers it
    sends to the Django API, the `hotel_search` tool and the `adp_chat_sse` tool,
    which reads the agent platform's event stream and joins the reply texts. */
module McpServer {
  import opened Wrappers
  import opened PyText
  import opened PyJson
  import opened Http
  import AdpStream

  /** `_require_env(name, val)`: a RuntimeError naming the variable exactly when
      the value is empty. */
  function RequireEnv(name: string, val: string): (r: Option<Exc>)
    ensures r.Some? <==> val == ""
    ensures r.Some? ==> r.value == RuntimeError("Missing env var: " + name)
  {
    if val == "" then Some(RuntimeError("Missing env var: " + name)) else None
  }

  /** `build_headers()`, given the value of DJANGO_API_KEY. */
  function BuildHeaders(apiKey: string): (r: map<string, string>)
    ensures "Accept" in r && r["Accept"] == "application/json"
    ensures "Content-Type" in r && r["Content-Type"] == "application/json"
    ensures "X-API-Key" in r <==> apiKey != ""
    ensures "X-API-Key" in r ==> r["X-API-Key"] == apiKey
    ensures r.Keys == {"Accept", "Content-Type"} + (if apiKey != "" then {"X-API-Key"} else {})
  {
    var base := map["Accept" := "application/json", "Content-Type" := "application/json"];
    if apiKey != "" then base["X-API-Key" := apiKey] else base
  }

  /** A plain (non-streaming) POST: it failed, or a response status and body text. */
  datatype Posted = Failed(exc: Exc) | Answered(status: int, text: string)

  /** The `hotel_search` tool: a status of 400 or more raises RuntimeError with
      the status and body; any other response is returned as `resp.json()`
      decodes it, unchanged. */
  function HotelSearch(p: Posted, loads: Loads): (r: Result<Json>)
    ensures p.Answered? && p.status >= 400 ==>
              r == Err(RuntimeError("Django API error " + IntToString(p.status) + ": " + p.text))
    ensures p.Answered? && p.status < 400 ==>
              (r.Ok? <==> loads(p.text).Value?) && (r.Ok? ==> r.value == loads(p.text).value)
    ensures p.Failed? ==> r == Err(p.exc)
  {
    match p
    case Failed(e) => Err(e)
    case Answered(status, text) =>
      if status >= 400 then Err(RuntimeError("Django API error " + IntToString(status) + ": " + text))
      else
        match loads(text)
        case NotJson => Err(JsonDecodeError)
        case Value(v) => Ok(v)
  }

  /** The body `adp_chat_sse` posts: the tool's arguments and the bot key. */
  function ChatPayload(botAppKey: string, content: string, sessionId: string, visitorBizId: string, throttle: int): Json {
    AdpStream.AdpBody(JStr(sessionId), JStr(botAppKey), JStr(visitorBizId), JStr(content), JInt(throttle))
  }

  /** The keys tried, in order, for the text of a decoded event. */
  const ChunkKeys: seq<string> := ["delta", "content", "answer", "text", "message"]

  /** The first of `keys` whose value in the dict is a non-empty string. */
  function FirstText(fields: map<string, Json>, keys: seq<string>): (r: Option<string>)
    ensures r.Some? ==>
              r.value != "" &&
              exists i :: 0 <= i < |keys| && keys[i] in fields && fields[keys[i]] == JStr(r.value) &&
                forall j :: 0 <= j < i ==> !(keys[j] in fields && fields[keys[j]].JStr? && fields[keys[j]].s != "")
    ensures r.None? <==> forall i :: 0 <= i < |keys| ==> !(keys[i] in fields && fields[keys[i]].JStr? && fields[keys[i]].s != "")
    decreases |keys|
  {
    if keys == [] then None
    else if keys[0] in fields && fields[keys[0]].JStr? && fields[keys[0]].s != "" then Some(fields[keys[0]].s)
    else
      var r := FirstText(fields, keys[1..]);
      assert forall i :: 1 <= i < |keys| ==> keys[i] == keys[1..][i - 1];
      if r.Some? then
        assert exists i :: 0 <= i < |keys| && keys[i] in fields && fields[keys[i]] == JStr(r.value) &&
                 forall j :: 0 <= j < i ==> !(keys[j] in fields && fields[keys[j]].JStr? && fields[keys[j]].s != "") by {
          var i :| 0 <= i < |keys[1..]| && keys[1..][i] in fields && fields[keys[1..][i]] == JStr(r.value) &&
                   forall j :: 0 <= j < i ==> !(keys[1..][j] in fields && fields[keys[1..][j]].JStr? && fields[keys[1..][j]].s != "");
          assert keys[i + 1] == keys[1..][i];
          forall j | 0 <= j < i + 1
            ensures !(keys[j] in fields && fields[keys[j]].JStr? && fields[keys[j]].s != "")
          {
            if j > 0 { assert keys[j] == keys[1..][j - 1]; }
          }
        }
        r
      else r
  }

  /** What one line does to the two lists. */
  datatype Effect =
    | Ignore                                // empty, or not a "data:" line
    | Finish                                // "data: [DONE]"
    | Raw(text: string)                     // data that is not JSON, kept as text
    | Event(obj: Json, chunk: Option<string>) // a decoded dict and its text, if any
    | Crash(obj: Json)                      // a decoded non-dict: recorded, then `.get` raises

  function LineEffect(line: string, loads: Loads): Effect {
    if line == [] || !StartsWith(line, "data:") then Ignore
    else
      var data := Strip(Drop(line, 5));
      if data == "[DONE]" then Finish
      else
        match loads(data)
        case NotJson => Raw(data)
        case Value(obj) =>
          if obj.JObj? then Event(obj, FirstText(obj.fields, ChunkKeys)) else Crash(obj)
  }

  /** The lists after reading lines, and how the read ended. */
  datatype Scan = Scan(chunks: seq<string>, events: seq<Json>, end: AdpStream.End)

  function OptList(o: Option<string>): seq<string> {
    if o.Some? then [o.value] else []
  }

  /** A line's effect in front of what the later lines read: nothing is read
      after "[DONE]" or after a line that raised. */
  function Combine(e: Effect, next: Scan): Scan {
    match e
    case Ignore => next
    case Finish => Scan([], [], AdpStream.Done)
    case Crash(obj) => Scan([], [obj], AdpStream.Raised(AttributeError))
    case Raw(c) => Scan([c] + next.chunks, next.events, next.end)
    case Event(obj, c) => Scan(OptList(c) + next.chunks, [obj] + next.events, next.end)
  }

  /** The `async for line in resp.aiter_lines()` loop. */
  function ReadLines(lines: seq<string>, loads: Loads): Scan
    decreases |lines|
  {
    if lines == [] then Scan([], [], AdpStream.Exhausted)
    else Combine(LineEffect(lines[0], loads), ReadLines(lines[1..], loads))
  }

  /** One turn of the loop, seen from the lines still to read. */
  lemma ReadStep(lines: seq<string>, i: nat, loads: Loads)
    requires i < |lines|
    ensures ReadLines(lines[i..], loads) == Combine(LineEffect(lines[i], loads), ReadLines(lines[i + 1..], loads))
  {
    assert lines[i..][0] == lines[i] && lines[i..][1..] == lines[i + 1..];
  }

  /** What has been read so far, in front of what the later lines read. */
  function ReadSoFar(chunks: seq<string>, events: seq<Json>, next: Scan): Scan {
    Scan(chunks + next.chunks, events + next.events, next.end)
  }

  /** One line's effect on the lists read so far: "[DONE]" and a crash end
      the read, the others extend the lists and the read goes on. */
  lemma ReadSoFarCombine(chunks: seq<string>, events: seq<Json>, e: Effect, next: Scan)
    ensures e.Ignore? ==> ReadSoFar(chunks, events, Combine(e, next)) == ReadSoFar(chunks, events, next)
    ensures e.Finish? ==> ReadSoFar(chunks, events, Combine(e, next)) == Scan(chunks, events, AdpStream.Done)
    ensures e.Crash? ==>
              ReadSoFar(chunks, events, Combine(e, next)) == Scan(chunks, events + [e.obj], AdpStream.Raised(AttributeError))
    ensures e.Raw? ==> ReadSoFar(chunks, events, Combine(e, next)) == ReadSoFar(chunks + [e.text], events, next)
    ensures e.Event? ==>
              ReadSoFar(chunks, events, Combine(e, next)) == ReadSoFar(chunks + OptList(e.chunk), events + [e.obj], next)
  {
    match e
    case Ignore =>
    case Finish =>
      assert chunks + [] == chunks && events + [] == events;
    case Crash(obj) =>
      assert chunks + [] == chunks;
    case Raw(c) =>
      assert chunks + ([c] + next.chunks) == (chunks + [c]) + next.chunks;
    case Event(obj, c) =>
      assert chunks + (OptList(c) + next.chunks) == (chunks + OptList(c)) + next.chunks;
      assert events + ([obj] + next.events) == (events + [obj]) + next.events;
  }

  method ReadSse(lines: seq<string>, loads: Loads) returns (chunks: seq<string>, events: seq<Json>, end: AdpStream.End)
    ensures Scan(chunks, events, end) == ReadLines(lines, loads)
  {
    chunks, events := [], [];
    var i := 0;
    assert lines[0..] == lines;
    assert ReadSoFar([], [], ReadLines(lines, loads)) == ReadLines(lines, loads);
    while i < |lines|
      invariant 0 <= i <= |lines|
      invariant ReadSoFar(chunks, events, ReadLines(lines[i..], loads)) == ReadLines(lines, loads)
      decreases |lines| - i
    {
      var eff := LineEffect(lines[i], loads);
      ReadStep(lines, i, loads);
      ReadSoFarCombine(chunks, events, eff, ReadLines(lines[i + 1..], loads));
      match eff {
        case Ignore =>
        case Finish =>
          return chunks, events, AdpStream.Done;
        case Crash(obj) =>
          return chunks, events + [obj], AdpStream.Raised(AttributeError);
        case Raw(c) =>
          chunks := chunks + [c];
        case Event(obj, c) =>
          chunks := chunks + OptList(c);
          events := events + [obj];
      }
      i := i + 1;
    }
    assert lines[i..] == [];
    assert chunks + [] == chunks && events + [] == events;
    end := AdpStream.Exhausted;
  }

  /** One event of the result loop: `item['type']`, and for a reply
      `item['payload']['content']`. */
  function ReplyOf(item: Json): Result<Option<Json>> {
    match Subscript(item, "type")
    case Err(e) => Err(e)
    case Ok(t) =>
      if t != JStr("reply") then Ok(None)
      else
        match Subscript(item, "payload")
        case Err(e) => Err(e)
        case Ok(p) =>
          match Subscript(p, "content")
          case Err(e) => Err(e)
          case Ok(c) => Ok(Some(c))
  }

  function OptSeq(o: Option<Json>): seq<Json> {
    if o.Some? then [o.value] else []
  }

  /** The `for index, item in enumerate(events)` loop: the reply contents in
      event order, or the first event's exception. */
  function ReplyContents(events: seq<Json>): Result<seq<Json>>
    decreases |events|
  {
    if events == [] then Ok([])
    else
      match ReplyOf(events[0])
      case Err(e) => Err(e)
      case Ok(o) =>
        match ReplyContents(events[1..])
        case Err(e) => Err(e)
        case Ok(rest) => Ok(OptSeq(o) + rest)
  }

  predicate AllText(vs: seq<Json>) {
    forall i :: 0 <= i < |vs| ==> vs[i].JStr?
  }

  function Texts(vs: seq<Json>): (r: seq<string>)
    requires AllText(vs)
    ensures |r| == |vs| && forall i :: 0 <= i < |vs| ==> vs[i] == JStr(r[i])
  {
    seq(|vs|, i requires 0 <= i < |vs| => vs[i].s)
  }

  /** `' '.join(result)`: only strings can be joined. */
  function JoinReplies(vs: seq<Json>): Result<string> {
    if AllText(vs) then Ok(Join(" ", Texts(vs))) else Err(TypeError)
  }

  /** The `adp_chat_sse` tool, given the bot key from the environment. */
  function AdpChatSse(botAppKey: string, x: Exchange<string>, loads: Loads): Result<Json> {
    if RequireEnv("ADP_BOT_APP_KEY", botAppKey).Some? then Err(RequireEnv("ADP_BOT_APP_KEY", botAppKey).value)
    else
      match x
      case Unreachable(e) => Err(e)
      case Response(status, _, lines, failure) =>
        if !IsSuccess(status) then Err(HttpStatusError(status))
        else
          var r := ReadLines(lines, loads);
          if r.end.Raised? then Err(r.end.exc)
          else if r.end.Exhausted? && failure.Some? then Err(failure.value)
          else
            match ReplyContents(r.events)
            case Err(e) => Err(e)
            case Ok(contents) =>
              match JoinReplies(contents)
              case Err(e) => Err(e)
              case Ok(text) => Ok(JObj(map["result" := JStr(text)]))
  }

  /** Contents already gathered in front of what the remaining events give. */
  function After(acc: seq<Json>, r: Result<seq<Json>>): Result<seq<Json>> {
    match r
    case Err(e) => Err(e)
    case Ok(v) => Ok(acc + v)
  }

  /** One turn of the result loop: an event that raises ends the loop with its
      exception; otherwise its content, if any, joins what was gathered. */
  lemma CollectStep(acc: seq<Json>, events: seq<Json>, i: nat)
    requires i < |events|
    ensures ReplyOf(events[i]).Err? ==> After(acc, ReplyContents(events[i..])) == Err(ReplyOf(events[i]).exc)
    ensures ReplyOf(events[i]).Ok? ==>
              After(acc, ReplyContents(events[i..])) ==
              After(acc + OptSeq(ReplyOf(events[i]).value), ReplyContents(events[i + 1..]))
  {
    assert events[i..][0] == events[i] && events[i..][1..] == events[i + 1..];
    var item := ReplyOf(events[i]);
    if item.Ok? {
      match ReplyContents(events[i + 1..]) {
        case Err(_) =>
        case Ok(rest) =>
          assert acc + (OptSeq(item.value) + rest) == (acc + OptSeq(item.value)) + rest;
      }
    }
  }

  /** The result loop over the recorded events. */
  method CollectReplies(events: seq<Json>) returns (r: Result<seq<Json>>)
    ensures r == ReplyContents(events)
  {
    var acc: seq<Json> := [];
    var i := 0;
    assert events[0..] == events;
    if ReplyContents(events).Ok? {
      assert acc + ReplyContents(events).value == ReplyContents(events).value;
    }
    while i < |events|
      invariant 0 <= i <= |events|
      invariant After(acc, ReplyContents(events[i..])) == ReplyContents(events)
      decreases |events| - i
    {
      var item := ReplyOf(events[i]);
      CollectStep(acc, events, i);
      if item.Err? {
        return Err(item.exc);
      }
      acc := acc + OptSeq(item.value);
      i := i + 1;
    }
    assert events[i..] == [];
    assert acc + [] == acc;
    r := Ok(acc);
  }

  /** The `adp_chat_sse` tool: the key check, the status check, the read, then
      the joined reply contents. */
  method AdpChatSseTool(botAppKey: string, x: Exchange<string>, loads: Loads) returns (r: Result<Json>)
    ensures r == AdpChatSse(botAppKey, x, loads)
  {
    var missing := RequireEnv("ADP_BOT_APP_KEY", botAppKey);
    if missing.Some? {
      return Err(missing.value);
    }
    if x.Unreachable? {
      return Err(x.exc);
    }
    if !IsSuccess(x.status) {
      return Err(HttpStatusError(x.status));
    }
    var chunks, events, end := ReadSse(x.lines, loads);
    if end.Raised? {
      return Err(end.exc);
    }
    if end.Exhausted? && x.failure.Some? {
      return Err(x.failure.value);
    }
    var contents := CollectReplies(events);
    if contents.Err? {
      return Err(contents.exc);
    }
    var joined := JoinReplies(contents.value);
    if joined.Err? {
      return Err(joined.exc);
    }
    r := Ok(JObj(map["result" := JStr(joined.value)]));
  }

  // ---- properties ----

  /** Lines that are empty or not "data:" lines leave both lists as they are. */
  lemma NonDataIgnored(line: string, rest: seq<string>, loads: Loads)
    requires !StartsWith(line, "data:")
    ensures ReadLines([line] + rest, loads) == ReadLines(rest, loads)
  {
    assert ([line] + rest)[1..] == rest;
  }

  /** "[DONE]" ends the read: nothing from later lines is recorded. */
  lemma DoneEndsRead(line: string, rest: seq<string>, loads: Loads)
    requires StartsWith(line, "data:") && Strip(Drop(line, 5)) == "[DONE]"
    ensures ReadLines([line] + rest, loads) == Scan([], [], AdpStream.Done)
  {
  }

  /** A decoded dict is appended to the events and its first non-empty text
      field to the chunks; undecodable data goes to the chunks as it is. */
  lemma DataLineRecorded(line: string, rest: seq<string>, loads: Loads)
    requires StartsWith(line, "data:") && Strip(Drop(line, 5)) != "[DONE]"
    ensures var data := Strip(Drop(line, 5));
            var r := ReadLines([line] + rest, loads);
            var n := ReadLines(rest, loads);
            (loads(data).NotJson? ==> r == Scan([data] + n.chunks, n.events, n.end)) &&
            (loads(data).Value? && loads(data).value.JObj? ==>
               r == Scan(OptList(FirstText(loads(data).value.fields, ChunkKeys)) + n.chunks,
                         [loads(data).value] + n.events, n.end))
  {
    var data := Strip(Drop(line, 5));
    var l := [line] + rest;
    assert l[0] == line && l[1..] == rest;
    assert ReadLines(l, loads) == Combine(LineEffect(line, loads), ReadLines(rest, loads));
    assert line != [];
    if loads(data).NotJson? {
      assert LineEffect(line, loads) == Raw(data);
    } else if loads(data).value.JObj? {
      assert LineEffect(line, loads) == Event(loads(data).value, FirstText(loads(data).value.fields, ChunkKeys));
    }
  }

  /** Reading a concatenation: the second part is read only when the first ran out. */
  function Then(r: Scan, b: Scan): Scan {
    if r.end.Exhausted? then Scan(r.chunks + b.chunks, r.events + b.events, b.end) else r
  }

  lemma CombineThen(e: Effect, r: Scan, b: Scan)
    ensures Combine(e, Then(r, b)) == Then(Combine(e, r), b)
  {
    match e {
      case Raw(c) =>
        assert [c] + (r.chunks + b.chunks) == ([c] + r.chunks) + b.chunks;
      case Event(obj, c) =>
        assert OptList(c) + (r.chunks + b.chunks) == (OptList(c) + r.chunks) + b.chunks;
        assert [obj] + (r.events + b.events) == ([obj] + r.events) + b.events;
      case _ =>
    }
  }

  lemma {:induction false} ReadAppend(a: seq<string>, b: seq<string>, loads: Loads)
    ensures ReadLines(a + b, loads) == Then(ReadLines(a, loads), ReadLines(b, loads))
    decreases |a|
  {
    if a == [] {
      assert a + b == b;
      var rb := ReadLines(b, loads);
      assert [] + rb.chunks == rb.chunks && [] + rb.events == rb.events;
    } else {
      var e := LineEffect(a[0], loads);
      calc {
        ReadLines(a + b, loads);
        { assert (a + b)[0] == a[0] && (a + b)[1..] == a[1..] + b; }
        Combine(e, ReadLines(a[1..] + b, loads));
        { ReadAppend(a[1..], b, loads); }
        Combine(e, Then(ReadLines(a[1..], loads), ReadLines(b, loads)));
        { CombineThen(e, ReadLines(a[1..], loads), ReadLines(b, loads)); }
        Then(Combine(e, ReadLines(a[1..], loads)), ReadLines(b, loads));
        Then(ReadLines(a, loads), ReadLines(b, loads));
      }
    }
  }

  /** What one event contributes: a missing "type" raises KeyError, another type
      nothing, a reply its `payload.content`. */
  lemma ReplyOfCases(item: map<string, Json>)
    ensures "type" !in item ==> ReplyOf(JObj(item)) == Err(KeyError)
    ensures "type" in item && item["type"] != JStr("reply") ==> ReplyOf(JObj(item)) == Ok(None)
    ensures "type" in item && item["type"] == JStr("reply") && "payload" in item && item["payload"].JObj? &&
            "content" in item["payload"].fields ==>
              ReplyOf(JObj(item)) == Ok(Some(item["payload"].fields["content"]))
  {
  }

  /** The contents of the reply events, in event order: one more event adds its
      content at the end, or its exception. */
  lemma {:induction false} RepliesInOrder(events: seq<Json>, next: Json)
    requires ReplyContents(events).Ok?
    ensures ReplyOf(next).Err? ==> ReplyContents(events + [next]) == Err(ReplyOf(next).exc)
    ensures ReplyOf(next).Ok? ==> ReplyContents(events + [next]) == Ok(ReplyContents(events).value + OptSeq(ReplyOf(next).value))
    decreases |events|
  {
    if events == [] {
      assert [] + [next] == [next];
      assert [next][1..] == [];
      if ReplyOf(next).Ok? {
        var o := OptSeq(ReplyOf(next).value);
        assert ReplyContents([next][1..]) == Ok([]);
        assert ReplyContents([next]) == Ok(o + []);
        assert o + [] == o && [] + o == o;
      }
    } else {
      RepliesInOrder(events[1..], next);
      assert (events + [next])[0] == events[0] && (events + [next])[1..] == events[1..] + [next];
      if ReplyOf(next).Ok? {
        var o := ReplyOf(events[0]).value;
        var mid := ReplyContents(events[1..]).value;
        assert OptSeq(o) + (mid + OptSeq(ReplyOf(next).value)) == (OptSeq(o) + mid) + OptSeq(ReplyOf(next).value);
      }
    }
  }

  /** The joined result: one more text content adds a single space and the text. */
  lemma JoinRepliesSnoc(vs: seq<Json>, t: string)
    requires vs != [] && AllText(vs)
    ensures JoinReplies(vs + [JStr(t)]) == Ok(JoinReplies(vs).value + " " + t)
  {
    assert Texts(vs + [JStr(t)]) == Texts(vs) + [t];
    JoinSnoc(" ", Texts(vs), t);
  }

  /** A content that is not text makes the join raise TypeError. */
  lemma NonTextRepliesRaise(vs: seq<Json>, k: nat)
    requires k < |vs| && !vs[k].JStr?
    ensures JoinReplies(vs) == Err(TypeError)
  {
  }

  /** An empty bot key fails before anything is sent or read. */
  lemma MissingKeyFailsFirst(x: Exchange<string>, loads: Loads)
    ensures AdpChatSse("", x, loads) == Err(RuntimeError("Missing env var: ADP_BOT_APP_KEY"))
  {
  }

  /** The payload carries the tool's arguments and the key. */
  lemma ChatPayloadFields(botAppKey: string, content: string, sessionId: string, visitorBizId: string, throttle: int)
    ensures var p := ChatPayload(botAppKey, content, sessionId, visitorBizId, throttle);
            p.JObj? && p.fields.Keys == AdpStream.BodyKeys &&
            p.fields["bot_app_key"] == JStr(botAppKey) && p.fields["content"] == JStr(content) &&
            p.fields["session_id"] == JStr(sessionId) && p.fields["streaming_throttle"] == JInt(throttle)
  {
    AdpStream.AdpBodyFields(JStr(sessionId), JStr(botAppKey), JStr(visitorBizId), JStr(content), JInt(throttle));
  }
}
