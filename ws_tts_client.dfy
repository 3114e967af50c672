/** The synthesis script of test_ws_tts.py: it collects the audio the TTS
    service pushes over one websocket connection until an error code, the final
    event or the close, then saves it in files chosen by the codec and warns
    when no final event came. */
module WsTtsClient {
  import opened Wrappers
  import opened PyText
  import opened PyJson
  import opened Ws
  import Wav

  /** Why the receive loop stopped. */
  datatype Reason =
    | Closed               // recv raised ConnectionClosed, normal or not
    | ErrorCode(code: Json) // a dict whose "code" is not in (None, 0)
    | FinalSeen            // a dict with final == 1
    | Raised(exc: Exc)     // an exception escaped the loop

  /** The audio collected and why collecting stopped. */
  datatype Collected = Collected(audio: seq<byte>, end: Reason)

  /** What one decoded text message does: continue (None) or stop. The checks
      run in the script's order: error code, then the subtitles lookup (which
      raises on a truthy "result" that is not a dict), then final. */
  function Verdict(d: Decoded): Option<Reason> {
    match d
    case NotJson => None
    case Value(data) =>
      if !IsDict(data) then None
      else if !IsZeroOrNone(Field(data, "code")) then Some(ErrorCode(Field(data, "code")))
      else if "result" in data.fields && Truthy(data.fields["result"])
              && Get(data.fields["result"], "subtitles", JNull).Err? then
        Some(Raised(Get(data.fields["result"], "subtitles", JNull).exc))
      else if EqualsOne(Field(data, "final")) then Some(FinalSeen)
      else None
  }

  /** The receive loop over the messages of one connection, which then closes. */
  function Collect(msgs: seq<Message>, loads: Loads): Collected
    decreases |msgs|
  {
    if msgs == [] then Collected([], Closed)
    else
      match msgs[0]
      case Binary(b) =>
        var r := Collect(msgs[1..], loads);
        Collected(b + r.audio, r.end)
      case Text(t) =>
        match Verdict(loads(t))
        case Some(reason) => Collected([], reason)
        case None => Collect(msgs[1..], loads)
  }

  /** The loop of `main`: `audio` and `gotFinal` as the script leaves them, and
      the exception that escaped, if any. */
  method Receive(msgs: seq<Message>, loads: Loads) returns (audio: seq<byte>, gotFinal: bool, raised: Option<Exc>)
    ensures audio == Collect(msgs, loads).audio
    ensures gotFinal <==> Collect(msgs, loads).end == FinalSeen
    ensures raised == (if Collect(msgs, loads).end.Raised? then Some(Collect(msgs, loads).end.exc) else None)
  {
    audio, gotFinal, raised := [], false, None;
    var i := 0;
    assert msgs[0..] == msgs;
    while true
      invariant i <= |msgs| && !gotFinal && raised == None
      invariant audio + Collect(msgs[i..], loads).audio == Collect(msgs, loads).audio
      invariant Collect(msgs[i..], loads).end == Collect(msgs, loads).end
      decreases |msgs| - i
    {
      if i == |msgs| {
        assert msgs[i..] == [];
        assert audio + [] == audio;
        break;
      }
      assert msgs[i..][0] == msgs[i] && msgs[i..][1..] == msgs[i + 1..];
      match msgs[i] {
        case Binary(b) =>
          assert audio + (b + Collect(msgs[i + 1..], loads).audio) == (audio + b) + Collect(msgs[i + 1..], loads).audio;
          audio := audio + b;
          i := i + 1;
        case Text(t) =>
          var d := loads(t);
          if d.NotJson? {
            i := i + 1;
          } else {
            var data := d.value;
            if IsDict(data) && !IsZeroOrNone(Field(data, "code")) {
              assert audio + [] == audio;
              break;
            }
            if IsDict(data) && "result" in data.fields && Truthy(data.fields["result"]) {
              var subtitles := Get(data.fields["result"], "subtitles", JNull);
              if subtitles.Err? {
                assert audio + [] == audio;
                raised := Some(subtitles.exc);
                break;
              }
            }
            if IsDict(data) && EqualsOne(Field(data, "final")) {
              assert audio + [] == audio;
              gotFinal := true;
              break;
            }
            i := i + 1;
          }
      }
    }
  }

  /** A saved file. */
  datatype OutFile = OutFile(path: string, bytes: seq<byte>)

  /** The files written for the codec setting: "tts_out.mp3" for mp3, the raw
      "tts_out.pcm" plus "tts_out.wav" wrapping the same bytes as 16 kHz 16-bit
      mono frames for pcm, and "tts_out.bin" for any other codec. */
  function Outputs(codec: string, audio: seq<byte>): (files: seq<OutFile>)
    ensures Lower(codec) == "mp3" ==> files == [OutFile("tts_out.mp3", audio)]
    ensures Lower(codec) == "pcm" ==>
              files == [OutFile("tts_out.pcm", audio), OutFile("tts_out.wav", Wav.WavFile(1, 2, 16000, audio))]
    ensures Lower(codec) != "mp3" && Lower(codec) != "pcm" ==> files == [OutFile("tts_out.bin", audio)]
    ensures files[0].bytes == audio && |files| == (if Lower(codec) == "pcm" then 2 else 1)
  {
    if Lower(codec) == "mp3" then [OutFile("tts_out.mp3", audio)]
    else if Lower(codec) == "pcm" then [OutFile("tts_out.pcm", audio), OutFile("tts_out.wav", Wav.WavFile(1, 2, 16000, audio))]
    else [OutFile("tts_out.bin", audio)]
  }

  /** What a run leaves behind: the files, whether the warning was printed, and
      the exception that ended the script, if one did (nothing is saved then). */
  datatype Report = Report(files: seq<OutFile>, warned: bool, crashed: Option<Exc>)

  /** `main` after the URL is built: receive, save, warn. */
  method Synthesize(msgs: seq<Message>, loads: Loads, codec: string) returns (r: Report)
    ensures var c := Collect(msgs, loads);
            if c.end.Raised? then r == Report([], false, Some(c.end.exc))
            else r == Report(Outputs(codec, c.audio), c.end != FinalSeen, None)
  {
    var audio, gotFinal, raised := Receive(msgs, loads);
    if raised.Some? {
      return Report([], false, raised);
    }
    var files := Outputs(codec, audio);
    r := Report(files, !gotFinal, None);
  }

  /** Messages that stop nothing. */
  predicate Passes(m: Message, loads: Loads) {
    m.Binary? || Verdict(loads(m.text)).None?
  }

  /** The binary payloads among the messages, in arrival order. */
  function BinaryParts(msgs: seq<Message>): seq<seq<byte>>
    decreases |msgs|
  {
    if msgs == [] then []
    else (if msgs[0].Binary? then [msgs[0].bytes] else []) + BinaryParts(msgs[1..])
  }

  /** When nothing stops the loop, it runs to the close and the audio is every
      binary frame, concatenated in arrival order. */
  lemma {:induction false} AudioIsBinaryFrames(msgs: seq<Message>, loads: Loads)
    requires forall i :: 0 <= i < |msgs| ==> Passes(msgs[i], loads)
    ensures Collect(msgs, loads) == Collected(Concat(BinaryParts(msgs)), Closed)
    decreases |msgs|
  {
    if msgs != [] {
      assert Passes(msgs[0], loads);
      forall i | 0 <= i < |msgs[1..]| ensures Passes(msgs[1..][i], loads) {
        assert msgs[1..][i] == msgs[i + 1];
      }
      AudioIsBinaryFrames(msgs[1..], loads);
      var head := if msgs[0].Binary? then [msgs[0].bytes] else [];
      ConcatAppend(head, BinaryParts(msgs[1..]));
      if msgs[0].Binary? {
        assert Concat(head) == msgs[0].bytes + [] == msgs[0].bytes;
      } else {
        assert head + BinaryParts(msgs[1..]) == BinaryParts(msgs[1..]);
      }
    }
  }

  /** The loop reads the messages in order: a prefix that runs to its end is
      followed by the rest, and one that stops is all that counts. */
  lemma {:induction false} CollectAppend(a: seq<Message>, b: seq<Message>, loads: Loads)
    ensures var ca := Collect(a, loads);
            Collect(a + b, loads) ==
              if ca.end == Closed then Collected(ca.audio + Collect(b, loads).audio, Collect(b, loads).end) else ca
    decreases |a|
  {
    if a == [] {
      assert a + b == b;
    } else {
      assert (a + b)[0] == a[0] && (a + b)[1..] == a[1..] + b;
      CollectAppend(a[1..], b, loads);
      if a[0].Binary? {
        var r := Collect(a[1..], loads);
        if r.end == Closed {
          assert a[0].bytes + (r.audio + Collect(b, loads).audio) == (a[0].bytes + r.audio) + Collect(b, loads).audio;
        }
      }
    }
  }

  /** A text that is not JSON is skipped. */
  lemma NotJsonSkipped(t: string, rest: seq<Message>, loads: Loads)
    requires loads(t) == NotJson
    ensures Collect([Text(t)] + rest, loads) == Collect(rest, loads)
  {
    assert ([Text(t)] + rest)[1..] == rest;
  }

  /** An error code stops the loop without the final flag, whatever the event
      says about final, and nothing after it is read. */
  lemma ErrorCodeWins(t: string, rest: seq<Message>, loads: Loads)
    requires loads(t).Value? && IsDict(loads(t).value) && !IsZeroOrNone(Field(loads(t).value, "code"))
    ensures Collect([Text(t)] + rest, loads) == Collected([], ErrorCode(Field(loads(t).value, "code")))
  {
  }

  /** A final event without an error code and with a dict or falsy "result"
      stops the loop with the final flag. */
  lemma FinalStops(t: string, rest: seq<Message>, loads: Loads)
    requires loads(t).Value? && IsDict(loads(t).value)
    requires IsZeroOrNone(Field(loads(t).value, "code")) && EqualsOne(Field(loads(t).value, "final"))
    requires !("result" in loads(t).value.fields && Truthy(loads(t).value.fields["result"]) &&
               !IsDict(loads(t).value.fields["result"]))
    ensures Collect([Text(t)] + rest, loads) == Collected([], FinalSeen)
  {
  }

  /** The warning is printed exactly when the loop ended by a close or an error
      code; a crash prints nothing and saves nothing. */
  lemma WarnedUnlessFinal(msgs: seq<Message>, loads: Loads, codec: string, r: Report)
    requires var c := Collect(msgs, loads);
             if c.end.Raised? then r == Report([], false, Some(c.end.exc))
             else r == Report(Outputs(codec, c.audio), c.end != FinalSeen, None)
    ensures r.crashed.None? ==> (r.warned <==> Collect(msgs, loads).end == Closed || Collect(msgs, loads).end.ErrorCode?)
    ensures r.crashed.None? ==> r.files[0].bytes == Collect(msgs, loads).audio
  {
  }
}
