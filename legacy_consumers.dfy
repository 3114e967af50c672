/** The two older consumers of api/consumers.py: `TencentPCMAsrConsumer`, whose
    upstream task relays recognizer events verbatim until the final one, and
    `EchoConsumer`, which answers every frame with a description of it. */
module LegacyConsumers {
  import opened Wrappers
  import opened PyText
  import opened PyJson
  import opened Ws
  import opened ClientMessages

  /** How the upstream loop ended: on a final event, by running out of events,
      or with an exception escaping the task. */
  datatype End = Final | Exhausted | Raised(exc: Exc)

  datatype Run = Run(out: seq<Out>, end: End)

  /** `async for msg in self.tc_ws`: each event is decoded (JSONDecodeError
      escapes), relayed, and checked with `data.get("final") == 1`
      (AttributeError escapes for a non-dict); a final event closes the client
      socket with 1000 and ends the loop. */
  function Events(msgs: seq<string>, loads: Loads): Run
    decreases |msgs|
  {
    if msgs == [] then Run([], Exhausted)
    else
      match loads(msgs[0])
      case NotJson => Run([], Raised(JsonDecodeError))
      case Value(d) =>
        if !IsDict(d) then Run([Relayed(d)], Raised(AttributeError))
        else if EqualsOne(Field(d, "final")) then Run([Relayed(d), Close(1000)], Final)
        else
          var r := Events(msgs[1..], loads);
          Run([Relayed(d)] + r.out, r.end)
  }

  /** The whole task: the loop, then on an abnormal close that the loop ran
      into the "tencent ws closed" notice and a 1011 close; the exception that
      escapes, if any. */
  function Task(feed: Feed<string>, loads: Loads): (Option<Exc>, seq<Out>) {
    var r := Events(feed.msgs, loads);
    match r.end
    case Raised(e) => (Some(e), r.out)
    case Final => (None, r.out)
    case Exhausted =>
      (None, r.out + if feed.abnormal then [Error(TencentClosed), Close(1011)] else [])
  }

  class AsrConsumer {
    /** Whether `tc_ws` is still open. */
    var upstreamOpen: bool
    /** Frames sent to the client, oldest first. */
    var outbox: seq<Out>

    /** `connect` once the upstream connection is open: "ready" sent. */
    constructor ()
      ensures upstreamOpen && outbox == [Ready]
    {
      upstreamOpen := true;
      outbox := [Ready];
    }

    /** `_recv_from_tencent`; the connection is closed in `finally` on every path. */
    method RecvFromTencent(feed: Feed<string>, loads: Loads) returns (raised: Option<Exc>)
      modifies this
      ensures var t := Task(feed, loads);
              raised == t.0 && outbox == old(outbox) + t.1 && !upstreamOpen
    {
      var msgs := feed.msgs;
      var i := 0;
      ghost var done: seq<Out> := [];
      assert msgs[0..] == msgs;
      while i < |msgs|
        invariant 0 <= i <= |msgs|
        invariant outbox == old(outbox) + done
        invariant Events(msgs, loads) == Run(done + Events(msgs[i..], loads).out, Events(msgs[i..], loads).end)
      {
        assert msgs[i..][0] == msgs[i] && msgs[i..][1..] == msgs[i + 1..];
        var decoded := loads(msgs[i]);
        if decoded.NotJson? {
          assert done + [] == done;
          upstreamOpen := false;
          return Some(JsonDecodeError);
        }
        var data := decoded.value;
        outbox := outbox + [Relayed(data)];
        AppendAssoc(old(outbox), done, [Relayed(data)]);
        if !IsDict(data) {
          upstreamOpen := false;
          return Some(AttributeError);
        }
        if EqualsOne(Field(data, "final")) {
          outbox := outbox + [Close(1000)];
          AppendAssoc(old(outbox), done + [Relayed(data)], [Close(1000)]);
          AppendAssoc(done, [Relayed(data)], [Close(1000)]);
          assert [Relayed(data)] + [Close(1000)] == [Relayed(data), Close(1000)];
          upstreamOpen := false;
          return None;
        }
        AppendAssoc(done, [Relayed(data)], Events(msgs[i + 1..], loads).out);
        done := done + [Relayed(data)];
        i := i + 1;
      }
      assert msgs[i..] == [] && done + [] == done;
      if feed.abnormal {
        outbox := outbox + [Error(TencentClosed), Close(1011)];
      }
      upstreamOpen := false;
      return None;
    }
  }

  /** Every event before the end of the loop is relayed, as decoded, in order;
      the loop ends at the first final event, with a 1000 close. */
  lemma {:induction false} RelayedInOrder(msgs: seq<string>, loads: Loads, k: nat)
    requires k <= |msgs|
    requires forall j :: 0 <= j < k ==> loads(msgs[j]).Value? && IsDict(loads(msgs[j]).value) &&
                                        !EqualsOne(Field(loads(msgs[j]).value, "final"))
    ensures var r := Events(msgs, loads);
            |r.out| >= k && forall j :: 0 <= j < k ==> r.out[j] == Relayed(loads(msgs[j]).value)
  {
    if k > 0 {
      RelayedInOrder(msgs[1..], loads, k - 1);
      var r := Events(msgs[1..], loads);
      forall j | 0 <= j < k ensures Events(msgs, loads).out[j] == Relayed(loads(msgs[j]).value) {
        if j > 0 { assert msgs[1..][j - 1] == msgs[j]; }
      }
    }
  }

  /** A final event is relayed and followed by the 1000 close, and nothing
      after it is read. */
  lemma FinalEndsLoop(msgs: seq<string>, rest: seq<string>, loads: Loads)
    requires msgs != [] && loads(msgs[0]).Value? && IsDict(loads(msgs[0]).value) &&
             EqualsOne(Field(loads(msgs[0]).value, "final"))
    ensures Events(msgs + rest, loads) == Run([Relayed(loads(msgs[0]).value), Close(1000)], Final)
  {
    assert (msgs + rest)[0] == msgs[0];
  }

  /** An undecodable event, or a decoded one that is not an object, ends the
      task with that exception and without the closing notice. */
  lemma BadEventEscapes(feed: Feed<string>, loads: Loads)
    requires feed.msgs != [] && (loads(feed.msgs[0]).NotJson? || !IsDict(loads(feed.msgs[0]).value))
    ensures var t := Task(feed, loads);
            t.0.Some? && (t.1 == [] || t.1 == [Relayed(loads(feed.msgs[0]).value)])
  {
  }

  /** The 1011 close is sent exactly when the connection dropped before any
      final event and no event raised; it is then the last frame. */
  lemma {:induction false} AbnormalCloseNotice(feed: Feed<string>, loads: Loads)
    ensures var t := Task(feed, loads);
            var r := Events(feed.msgs, loads);
            (Close(1011) in t.1 <==> r.end == Exhausted && feed.abnormal) &&
            (Close(1011) in t.1 ==> t.1[|t.1| - 1] == Close(1011))
  {
    NoAbnormalCloseInEvents(feed.msgs, loads);
  }

  lemma {:induction false} NoAbnormalCloseInEvents(msgs: seq<string>, loads: Loads)
    ensures Close(1011) !in Events(msgs, loads).out
    decreases |msgs|
  {
    if msgs != [] && loads(msgs[0]).Value? && IsDict(loads(msgs[0]).value) &&
       !EqualsOne(Field(loads(msgs[0]).value, "final")) {
      NoAbnormalCloseInEvents(msgs[1..], loads);
    }
  }

  // ---- EchoConsumer ----

  /** `EchoConsumer.receive`: a byte frame is described by its length, then a
      text frame is echoed; both when both are present. */
  function Echo(text: Option<string>, bytes: Option<seq<byte>>): seq<string> {
    (if Present(bytes) then ["got " + NatToString(|bytes.value|) + " bytes"] else []) +
    (if Present(text) then ["echo: " + text.value] else [])
  }

  /** `EchoConsumer`: the text frames it has sent. */
  class EchoConsumer {
    var outbox: seq<string>

    /** `connect`: the socket is accepted and "echo-ready" sent. */
    constructor ()
      ensures outbox == ["echo-ready"]
    {
      outbox := ["echo-ready"];
    }

    /** `receive`: the frame's replies are sent after what was sent before. */
    method Receive(text: Option<string>, bytes: Option<seq<byte>>)
      modifies this
      ensures outbox == old(outbox) + Echo(text, bytes)
    {
      if Present(bytes) {
        outbox := outbox + ["got " + NatToString(|bytes.value|) + " bytes"];
      }
      if Present(text) {
        outbox := outbox + ["echo: " + text.value];
      }
    }
  }

  /** The byte report names the frame's length, which reads back as a number;
      the echo carries the text unchanged after its prefix. */
  lemma EchoContents(text: Option<string>, bytes: Option<seq<byte>>)
    ensures var r := Echo(text, bytes);
            |r| == (if Present(bytes) then 1 else 0) + (if Present(text) then 1 else 0) &&
            (Present(bytes) ==>
               r[0][..4] == "got " && DigitsValue(r[0][4..|r[0]| - 6]) == |bytes.value| &&
               r[0][|r[0]| - 6..] == " bytes") &&
            (Present(text) ==> r[|r| - 1][..6] == "echo: " && r[|r| - 1][6..] == text.value)
  {
    if Present(bytes) {
      var n := NatToString(|bytes.value|);
      var m := "got " + n + " bytes";
      ValueOfNatToString(|bytes.value|);
      assert m[4..|m| - 6] == n;
    }
  }
}
