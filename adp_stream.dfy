/** The agent-platform (ADP) reply stream (api/utils/adp_stream.py): picking the
    bot app key, the request payload, and the loop that filters server-sent-event
    lines and extracts reply deltas. */
module AdpStream {
  import opened Wrappers
  import opened PyText
  import opened PyJson
  import opened Http

  /** The environment variables SOUTUI_APP_KEY and DISNEY_APP_KEY; `os.getenv`
      gives None for an unset one. */
  datatype AppKeys = AppKeys(soutui: Option<string>, disney: Option<string>)

  /** `pick_bot_app_key`: the flag "s" selects the Soutui agent, anything else
      (including a missing or non-string flag) the Disney agent. */
  function PickBotAppKey(app: Json, keys: AppKeys): (r: Option<string>)
    ensures app == JStr("s") ==> r == keys.soutui
    ensures app != JStr("s") ==> r == keys.disney
  {
    if app == JStr("s") then keys.soutui else keys.disney
  }

  /** An optional string as JSON: None or the string. */
  function OptText(o: Option<string>): Json {
    match o
    case None => JNull
    case Some(s) => JStr(s)
  }

  /** The caller's side of a request. */
  datatype Ask = Ask(sessionId: Json, visitorBizId: Json, app: Json, content: string, streamingThrottle: Json)

  /** The JSON body posted to the agent platform: the caller's ids, text,
      agent key and throttle, incremental streaming and the fixed switches. */
  function AdpBody(sessionId: Json, botAppKey: Json, visitorBizId: Json, content: Json, throttle: Json): Json {
    JObj(map[
      "session_id" := sessionId,
      "bot_app_key" := botAppKey,
      "visitor_biz_id" := visitorBizId,
      "content" := content,
      "incremental" := JBool(true),
      "streaming_throttle" := throttle,
      "visitor_labels" := JArr([]),
      "custom_variables" := JObj(map[]),
      "search_network" := JStr("disable"),
      "stream" := JStr("enable"),
      "workflow_status" := JStr("disable"),
      "tcadp_user_id" := JStr("")])
  }

  /** The twelve keys of the body. */
  const BodyKeys: set<string> := {"session_id", "bot_app_key", "visitor_biz_id", "content", "incremental",
    "streaming_throttle", "visitor_labels", "custom_variables", "search_network", "stream",
    "workflow_status", "tcadp_user_id"}

  /** The body holds exactly its twelve keys. */
  lemma AdpBodyKeys(sessionId: Json, botAppKey: Json, visitorBizId: Json, content: Json, throttle: Json)
    ensures AdpBody(sessionId, botAppKey, visitorBizId, content, throttle).fields.Keys == BodyKeys
  {
  }

  /** The body holds exactly its twelve keys, with the values it was given. */
  lemma AdpBodyFields(sessionId: Json, botAppKey: Json, visitorBizId: Json, content: Json, throttle: Json)
    ensures var p := AdpBody(sessionId, botAppKey, visitorBizId, content, throttle);
            p.JObj? && p.fields.Keys == BodyKeys &&
            p.fields["bot_app_key"] == botAppKey && p.fields["content"] == content &&
            p.fields["session_id"] == sessionId && p.fields["visitor_biz_id"] == visitorBizId &&
            p.fields["streaming_throttle"] == throttle &&
            p.fields["incremental"] == JBool(true) && p.fields["stream"] == JStr("enable")
  {
    AdpBodyKeys(sessionId, botAppKey, visitorBizId, content, throttle);
  }

  /** `adp_stream_reply`'s request body. */
  function Payload(a: Ask, keys: AppKeys): Json {
    AdpBody(a.sessionId, OptText(PickBotAppKey(a.app, keys)), a.visitorBizId, JStr(a.content), a.streamingThrottle)
  }

  /** The payload carries the caller's ids, text and throttle and the key the
      app flag picks. */
  lemma PayloadFields(a: Ask, keys: AppKeys)
    ensures var p := Payload(a, keys);
            p.JObj? && p.fields.Keys == BodyKeys &&
            p.fields["bot_app_key"] == OptText(PickBotAppKey(a.app, keys)) &&
            p.fields["content"] == JStr(a.content) && p.fields["session_id"] == a.sessionId &&
            p.fields["visitor_biz_id"] == a.visitorBizId && p.fields["streaming_throttle"] == a.streamingThrottle &&
            p.fields["incremental"] == JBool(true) && p.fields["stream"] == JStr("enable")
  {
    AdpBodyFields(a.sessionId, OptText(PickBotAppKey(a.app, keys)), a.visitorBizId, JStr(a.content), a.streamingThrottle);
  }

  /** What one line contributes. */
  datatype Step = Skip | Stop | Yield(delta: string) | Raise(exc: Exc)

  /** A delta when the value is a non-empty string, nothing otherwise. */
  function DeltaOf(v: Json): (s: Step)
    ensures s.Yield? <==> v.JStr? && v.s != ""
    ensures s.Yield? ==> s.delta == v.s
    ensures s == Skip || s.Yield?
  {
    if v.JStr? && v.s != "" then Yield(v.s) else Skip
  }

  /** A decoded event: `reply` carries payload.content, `thought` carries
      payload.procedures[0].debugging.content; a missing payload counts as {}, and
      the lookups raise as Python's do. */
  function EventStep(obj: Json): Step {
    match Get(obj, "type", JNull)
    case Err(e) => Raise(e)
    case Ok(t) =>
      var payload := Get(obj, "payload", JObj(map[])).value;
      if t == JStr("reply") then ReplyStep(payload)
      else if t == JStr("thought") then ThoughtStep(payload)
      else Skip
  }

  /** `payload.get("content", "")`, yielded when a non-empty string. */
  function ReplyStep(payload: Json): Step {
    match Get(payload, "content", JStr(""))
    case Err(e) => Raise(e)
    case Ok(d) => DeltaOf(d)
  }

  /** `payload.get("procedures", [])[0].get("debugging", {}).get("content", "")`. */
  function ThoughtStep(payload: Json): Step {
    match Get(payload, "procedures", JArr([]))
    case Err(e) => Raise(e)
    case Ok(procs) =>
      match Index0(procs)
      case Err(e) => Raise(e)
      case Ok(first) =>
        match Get(first, "debugging", JObj(map[]))
        case Err(e) => Raise(e)
        case Ok(dbg) =>
          match Get(dbg, "content", JStr(""))
          case Err(e) => Raise(e)
          case Ok(d) => DeltaOf(d)
  }

  /** The data string of an SSE line: what follows "data:", stripped. */
  function DataOf(line: string): string {
    Strip(Drop(line, 5))
  }

  /** One line of the stream. */
  function LineStep(line: string, loads: Loads): Step {
    if line == [] || !StartsWith(line, "data:") then Skip
    else if DataOf(line) == "[DONE]" then Stop
    else
      match loads(DataOf(line))
      case NotJson => Skip
      case Value(obj) => EventStep(obj)
  }

  /** How the stream ended: the lines ran out, "[DONE]" arrived, or an
      exception escaped the generator. */
  datatype End = Exhausted | Done | Raised(exc: Exc)

  datatype Outcome = Outcome(deltas: seq<string>, end: End)

  /** The deltas of a run of line steps, with the reason it stopped. */
  function Fold(steps: seq<Step>): Outcome {
    if steps == [] then Outcome([], Exhausted)
    else
      match steps[0]
      case Skip => Fold(steps[1..])
      case Stop => Outcome([], Done)
      case Raise(e) => Outcome([], Raised(e))
      case Yield(d) =>
        var rest := Fold(steps[1..]);
        Outcome([d] + rest.deltas, rest.end)
  }

  /** The step of every line. */
  function Steps(lines: seq<string>, loads: Loads): (r: seq<Step>)
    ensures |r| == |lines|
  {
    if lines == [] then [] else [LineStep(lines[0], loads)] + Steps(lines[1..], loads)
  }

  lemma {:induction false} StepAt(lines: seq<string>, loads: Loads, i: nat)
    requires i < |lines|
    ensures Steps(lines, loads)[i] == LineStep(lines[i], loads)
  {
    if i > 0 {
      StepAt(lines[1..], loads, i - 1);
    }
  }

  /** What a run of lines contributes. */
  function Scan(lines: seq<string>, loads: Loads): Outcome {
    Fold(Steps(lines, loads))
  }

  /** The whole generator: the status check comes first, and a transport error
      after the last line escapes only if the lines did not stop the stream. */
  function StreamReply(x: Exchange<string>, loads: Loads): Outcome {
    match x
    case Unreachable(e) => Outcome([], Raised(e))
    case Response(status, _, lines, failure) =>
      if !IsSuccess(status) then Outcome([], Raised(HttpStatusError(status)))
      else
        var r := Scan(lines, loads);
        if r.end == Exhausted && failure.Some? then Outcome(r.deltas, Raised(failure.value)) else r
  }

  /** The fold at one position: a step, then the fold of the rest. */
  lemma FoldAt(steps: seq<Step>, i: nat)
    requires i < |steps|
    ensures Fold(steps[i..]) ==
            match steps[i]
            case Skip => Fold(steps[i + 1..])
            case Stop => Outcome([], Done)
            case Raise(e) => Outcome([], Raised(e))
            case Yield(d) => Outcome([d] + Fold(steps[i + 1..]).deltas, Fold(steps[i + 1..]).end)
  {
    assert steps[i..][0] == steps[i] && steps[i..][1..] == steps[i + 1..];
  }

  /** The `async for line in resp.aiter_lines()` loop. */
  method ScanLines(lines: seq<string>, loads: Loads) returns (deltas: seq<string>, end: End)
    ensures Outcome(deltas, end) == Scan(lines, loads)
  {
    ghost var steps := Steps(lines, loads);
    deltas := [];
    var i := 0;
    while i < |lines|
      invariant 0 <= i <= |lines|
      invariant deltas + Fold(steps[i..]).deltas == Fold(steps).deltas
      invariant Fold(steps[i..]).end == Fold(steps).end
      decreases |lines| - i
    {
      var step := LineStep(lines[i], loads);
      StepAt(lines, loads, i);
      FoldAt(steps, i);
      if step.Stop? {
        return deltas, Done;
      } else if step.Raise? {
        return deltas, Raised(step.exc);
      } else if step.Yield? {
        assert deltas + ([step.delta] + Fold(steps[i + 1..]).deltas) == (deltas + [step.delta]) + Fold(steps[i + 1..]).deltas;
        deltas := deltas + [step.delta];
      }
      i := i + 1;
    }
    assert steps[i..] == [];
    end := Exhausted;
  }

  /** `adp_stream_reply`: the status check, then the line loop. */
  method AdpStreamReply(x: Exchange<string>, loads: Loads) returns (deltas: seq<string>, end: End)
    ensures Outcome(deltas, end) == StreamReply(x, loads)
  {
    if x.Unreachable? {
      return [], Raised(x.exc);
    }
    if !IsSuccess(x.status) {
      return [], Raised(HttpStatusError(x.status));
    }
    deltas, end := ScanLines(x.lines, loads);
    if end == Exhausted && x.failure.Some? {
      end := Raised(x.failure.value);
    }
  }

  // ---- properties of the line filter ----

  /** Empty lines and lines that are not "data:" lines contribute nothing. */
  lemma NonDataSkipped(line: string, loads: Loads)
    requires !StartsWith(line, "data:")
    ensures LineStep(line, loads) == Skip
  {
  }

  /** "[DONE]" after "data:" (surrounding whitespace allowed) stops the stream. */
  lemma DoneStops(line: string, loads: Loads)
    requires StartsWith(line, "data:") && DataOf(line) == "[DONE]"
    ensures LineStep(line, loads) == Stop
  {
  }

  /** Data that is not JSON is skipped without stopping. */
  lemma NotJsonSkipped(line: string, loads: Loads)
    requires StartsWith(line, "data:") && DataOf(line) != "[DONE]" && loads(DataOf(line)) == NotJson
    ensures LineStep(line, loads) == Skip
  {
  }

  /** A reply event yields its payload.content exactly when that is a
      non-empty string. */
  lemma ReplyDelta(payload: map<string, Json>, content: Json)
    requires "content" in payload && payload["content"] == content
    ensures var obj := JObj(map["type" := JStr("reply"), "payload" := JObj(payload)]);
            (EventStep(obj).Yield? <==> content.JStr? && content.s != "") &&
            (EventStep(obj).Yield? ==> EventStep(obj).delta == content.s) &&
            (!EventStep(obj).Yield? ==> EventStep(obj) == Skip)
  {
  }

  /** A thought event with a non-empty procedures list yields the content of
      the first procedure's debugging dict exactly when that is a non-empty
      string, and is skipped otherwise. */
  lemma ThoughtDelta(payload: map<string, Json>, first: map<string, Json>, rest: seq<Json>,
                     debugging: map<string, Json>, content: Json)
    requires "procedures" in payload && payload["procedures"] == JArr([JObj(first)] + rest)
    requires "debugging" in first && first["debugging"] == JObj(debugging)
    requires "content" in debugging && debugging["content"] == content
    ensures var obj := JObj(map["type" := JStr("thought"), "payload" := JObj(payload)]);
            (EventStep(obj).Yield? <==> content.JStr? && content.s != "") &&
            (EventStep(obj).Yield? ==> EventStep(obj).delta == content.s) &&
            (!EventStep(obj).Yield? ==> EventStep(obj) == Skip)
  {
    assert ([JObj(first)] + rest)[0] == JObj(first);
  }

  /** A thought event whose procedures list is empty or missing raises
      IndexError instead of being skipped. */
  lemma ThoughtWithoutProcedures(payload: map<string, Json>)
    requires "procedures" !in payload || payload["procedures"] == JArr([])
    ensures EventStep(JObj(map["type" := JStr("thought"), "payload" := JObj(payload)])) == Raise(IndexError)
  {
  }

  /** JSON that is not an object raises AttributeError at `.get("type")`. */
  lemma NonObjectRaises(obj: Json)
    requires !obj.JObj?
    ensures EventStep(obj) == Raise(AttributeError)
  {
  }

  /** Events of any other type yield nothing. */
  lemma OtherTypeSkipped(obj: Json)
    requires obj.JObj? && Field(obj, "type") != JStr("reply") && Field(obj, "type") != JStr("thought")
    ensures EventStep(obj) == Skip
  {
  }

  /** A delta is never empty. */
  lemma YieldNonEmpty(line: string, loads: Loads)
    requires LineStep(line, loads).Yield?
    ensures LineStep(line, loads).delta != ""
  {
  }

  lemma {:induction false} FoldDeltasNonEmpty(steps: seq<Step>)
    requires forall i :: 0 <= i < |steps| && steps[i].Yield? ==> steps[i].delta != ""
    ensures forall i :: 0 <= i < |Fold(steps).deltas| ==> Fold(steps).deltas[i] != ""
  {
    if steps != [] {
      FoldDeltasNonEmpty(steps[1..]);
    }
  }

  /** Every delta of a run of lines is non-empty. */
  lemma DeltasNonEmpty(lines: seq<string>, loads: Loads)
    ensures forall i :: 0 <= i < |Scan(lines, loads).deltas| ==> Scan(lines, loads).deltas[i] != ""
  {
    var steps := Steps(lines, loads);
    forall i | 0 <= i < |steps| && steps[i].Yield? ensures steps[i].delta != "" {
      StepAt(lines, loads, i);
      YieldNonEmpty(lines[i], loads);
    }
    FoldDeltasNonEmpty(steps);
  }

  /** No delta the whole generator yields is empty. */
  lemma ReplyDeltasNonEmpty(x: Exchange<string>, loads: Loads)
    ensures forall i :: 0 <= i < |StreamReply(x, loads).deltas| ==> StreamReply(x, loads).deltas[i] != ""
  {
    if x.Response? && IsSuccess(x.status) {
      DeltasNonEmpty(x.lines, loads);
    }
  }

  lemma {:induction false} StepsAppend(a: seq<string>, b: seq<string>, loads: Loads)
    ensures Steps(a + b, loads) == Steps(a, loads) + Steps(b, loads)
  {
    if a == [] {
      assert a + b == b;
    } else {
      assert (a + b)[0] == a[0] && (a + b)[1..] == a[1..] + b;
      StepsAppend(a[1..], b, loads);
    }
  }

  lemma {:induction false} FoldAfterStop(s: seq<Step>, t: seq<Step>)
    requires Fold(s).end != Exhausted
    ensures Fold(s + t) == Fold(s)
  {
    if s != [] {
      assert (s + t)[0] == s[0] && (s + t)[1..] == s[1..] + t;
      if s[0].Skip? || s[0].Yield? {
        FoldAfterStop(s[1..], t);
      }
    }
  }

  /** Once the lines have stopped the stream (by "[DONE]" or an exception), no
      later line contributes anything. */
  lemma NothingAfterStop(a: seq<string>, b: seq<string>, loads: Loads)
    requires Scan(a, loads).end != Exhausted
    ensures Scan(a + b, loads) == Scan(a, loads)
  {
    StepsAppend(a, b, loads);
    FoldAfterStop(Steps(a, loads), Steps(b, loads));
  }

  lemma {:induction false} FoldAppend(s: seq<Step>, t: seq<Step>)
    requires Fold(s).end == Exhausted
    ensures Fold(s + t) == Outcome(Fold(s).deltas + Fold(t).deltas, Fold(t).end)
  {
    if s == [] {
      assert s + t == t;
    } else {
      assert (s + t)[0] == s[0] && (s + t)[1..] == s[1..] + t;
      FoldAppend(s[1..], t);
      if s[0].Yield? {
        var d := s[0].delta;
        assert [d] + (Fold(s[1..]).deltas + Fold(t).deltas) == ([d] + Fold(s[1..]).deltas) + Fold(t).deltas;
      }
    }
  }

  /** Deltas keep line order: the deltas of a run of lines that did not stop are
      followed by those of the lines after it. */
  lemma ScanAppend(a: seq<string>, b: seq<string>, loads: Loads)
    requires Scan(a, loads).end == Exhausted
    ensures Scan(a + b, loads) == Outcome(Scan(a, loads).deltas + Scan(b, loads).deltas, Scan(b, loads).end)
  {
    StepsAppend(a, b, loads);
    FoldAppend(Steps(a, loads), Steps(b, loads));
  }

  /** A failing status raises before any line is read. */
  lemma StatusChecked(status: int, text: Option<string>, lines: seq<string>, failure: Option<Exc>, loads: Loads)
    requires !IsSuccess(status)
    ensures StreamReply(Response(status, text, lines, failure), loads) == Outcome([], Raised(HttpStatusError(status)))
  {
  }
}
