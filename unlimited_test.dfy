/** The end-to-end websocket client of unlimited_test.py: it sends an init
    message, streams a PCM file in 40 ms frames followed by an end message, and
    demultiplexes what comes back, writing each synthesized segment between
    `tts_start` and `tts_done` into its own file (and a WAV copy for PCM). */
module UnlimitedTest {
  import opened Wrappers
  import opened PyText
  import opened PyJson
  import opened Ws
  import opened FileChunks
  import AsrConsumer
  import Wav

  // ---- settings ----

  const SessionId := "a29bae68-cb1c-489d-8097-6be78f136acf"
  const VisitorBizId := "2004001099116640832"
  const App := "s"
  const SampleRate := 16000
  const Channels := 1
  const SampleWidth := 2
  const FrameMs := 40
  const OutDir := "ws_test_out"

  /** 40 ms of 16 kHz, 16-bit mono audio. */
  const BytesPerFrame: nat := 1280

  /** `int(SAMPLE_RATE * FRAME_MS / 1000) * SAMPLE_WIDTH * CHANNELS`: the true
      division is exact for these settings. */
  lemma BytesPerFrameValue()
    ensures BytesPerFrame == (SampleRate * FrameMs / 1000) * SampleWidth * Channels
    ensures (SampleRate * FrameMs) % 1000 == 0
  {
  }

  /** The init message, before `json.dumps`. */
  function InitMessage(codec: string): (m: Json)
    ensures m.JObj? && m.fields.Keys == {"type", "session_id", "visitor_biz_id", "app", "streaming_throttle", "tts_codec"}
    ensures m.fields["type"] == JStr("init") && m.fields["tts_codec"] == JStr(codec)
  {
    JObj(map["type" := JStr("init"), "session_id" := JStr(SessionId), "visitor_biz_id" := JStr(VisitorBizId),
             "app" := JStr(App), "streaming_throttle" := JInt(10), "tts_codec" := JStr(codec)])
  }

  /** The consumer configures its session from the init message: these ids,
      the soutui agent and a throttle of 10. */
  lemma InitConfigures(s: AsrConsumer.Session, codec: string)
    ensures var m := InitMessage(codec);
            var r := AsrConsumer.Init(s, m);
            r.sessionId == JStr(SessionId) && r.visitorBizId == JStr(VisitorBizId) &&
            r.app == JStr("s") && r.streamingThrottle == JInt(10)
  {
    var m := InitMessage(codec);
    assert "app" in m.fields && "streaming_throttle" in m.fields;
  }

  // ---- the sender ----

  /** `json.dumps({"type": "end"})` with the default separators. */
  const EndText := "{\"type\": \"end\"}"

  /** One binary message per chunk. */
  function Binaries(cs: seq<seq<byte>>): (r: seq<Message>)
    ensures |r| == |cs|
  {
    seq(|cs|, i requires 0 <= i < |cs| => Binary(cs[i]))
  }

  /** What the sender puts on the socket after init, in order. */
  function Outgoing(data: seq<byte>): seq<Message> {
    Binaries(Chunks(data, 0, BytesPerFrame)) + [Text(EndText)]
  }

  lemma BinariesSnoc(cs: seq<seq<byte>>, c: seq<byte>)
    ensures Binaries(cs + [c]) == Binaries(cs) + [Binary(c)]
  {
  }

  /** The send loop: a frame per read until the empty read, then the end
      message. */
  method SendAudio(data: seq<byte>) returns (sent: seq<Message>)
    ensures sent == Outgoing(data)
  {
    sent := [];
    var pos := 0;
    ghost var cs: seq<seq<byte>> := [];
    while true
      invariant pos <= |data|
      invariant cs + Chunks(data, pos, BytesPerFrame) == Chunks(data, 0, BytesPerFrame)
      invariant sent == Binaries(cs)
      decreases |data| - pos
    {
      var chunk := Read(data, pos, BytesPerFrame);
      if chunk == [] {
        break;
      }
      BinariesSnoc(cs, chunk);
      ChunksStep(data, pos, BytesPerFrame, cs);
      sent := sent + [Binary(chunk)];
      cs := cs + [chunk];
      pos := pos + |chunk|;
    }
    assert cs + [] == cs;
    sent := sent + [Text(EndText)];
  }

  /** The frames are the file's reads in order (so together they are the whole
      file, each 1280 bytes but the last, which is 1 to 1280, by
      FileChunks.ChunkSizes), and exactly one end message follows them. */
  lemma OutgoingShape(data: seq<byte>)
    ensures var o := Outgoing(data);
            var cs := Chunks(data, 0, BytesPerFrame);
            |o| == Frames(|data|, BytesPerFrame) + 1 && o[|o| - 1] == Text(EndText) &&
            (forall i :: 0 <= i < |o| - 1 ==> o[i] == Binary(cs[i])) &&
            Concat(cs) == data
  {
    var cs := Chunks(data, 0, BytesPerFrame);
    ChunkCount(data, 0, BytesPerFrame);
    ChunksCover(data, 0, BytesPerFrame);
    assert data[0..] == data;
  }

  // ---- the receiving side ----

  /** The files of the file system by path. */
  type Files = map<string, seq<byte>>

  /** The foreign parts of the loop: `json.loads`, `str()` of a JSON value (for
      the file names), and the TTS_CODEC setting. */
  datatype Env = Env(loads: Loads, show: Json -> string, codec: string)

  /** `os.path.join(dir, name)` on POSIX. */
  function PathJoin(dir: string, name: string): string {
    dir + "/" + name
  }

  const FallbackPath := PathJoin(OutDir, "tts_fallback.bin")

  function Ext(codec: string): string {
    if Lower(codec) == "pcm" then "pcm" else "mp3"
  }

  function SegmentPath(env: Env, seqNo: Json): string {
    PathJoin(OutDir, "tts_" + env.show(seqNo) + "." + Ext(env.codec))
  }

  function WavPath(env: Env, seqNo: Json): string {
    PathJoin(OutDir, "tts_" + env.show(seqNo) + ".wav")
  }

  /** The bytes a file holds; an absent file holds none. */
  function RawOf(files: Files, path: string): seq<byte> {
    if path in files then files[path] else []
  }

  /** `open(path, "ab")`: the file exists afterwards and keeps what it held. */
  function Touch(files: Files, path: string): (r: Files)
    ensures path in r && RawOf(r, path) == RawOf(files, path)
    ensures forall q :: q in files ==> q in r
    ensures forall q :: q != path ==> (q in r <==> q in files) && (q in r ==> r[q] == files[q])
  {
    if path in files then files else files[path := []]
  }

  /** A write to a file opened for appending. */
  function AppendTo(files: Files, path: string, b: seq<byte>): (r: Files)
    ensures path in r && r[path] == RawOf(files, path) + b
    ensures forall q :: q != path ==> (q in r <==> q in files) && (q in r ==> r[q] == files[q])
  {
    files[path := RawOf(files, path) + b]
  }

  /** The loop's variables `current_seq`, `current_audio_path` and the path of
      `current_audio_fp`, with the output directory. */
  datatype State = State(currentSeq: Json, path: Option<string>, open: Option<string>, files: Files)

  /** The effect of one message, and the exception that ends the loop, if any. */
  datatype Stepped = Stepped(state: State, raised: Option<Exc>)

  /** `tts_start`: remember the seq and open its segment file for appending;
      a file already open is left open and no longer written. */
  function Start(s: State, seqNo: Json, env: Env): State {
    var p := SegmentPath(env, seqNo);
    State(seqNo, Some(p), Some(p), Touch(s.files, p))
  }

  /** Whether `tts_done` with this seq wraps the segment in a WAV file. */
  predicate WritesWav(s: State, doneSeq: Json, env: Env) {
    Lower(env.codec) == "pcm" && s.path.Some? && s.path.value != "" && PyEq(s.currentSeq, doneSeq)
  }

  /** `tts_done`: close the file, write `tts_{seq}.wav` from the segment's
      bytes when WritesWav holds, and forget the segment. */
  function Done(s: State, doneSeq: Json, env: Env): State {
    var files :=
      if WritesWav(s, doneSeq, env) then
        s.files[WavPath(env, doneSeq) := Wav.WavFile(Channels, SampleWidth, SampleRate, RawOf(s.files, s.path.value))]
      else s.files;
    State(JNull, None, None, files)
  }

  /** One message of `async for msg in ws`. */
  function Step(s: State, m: Message, env: Env): Stepped {
    match m
    case Binary(b) =>
      Stepped(s.(files := AppendTo(s.files, if s.open.Some? then s.open.value else FallbackPath, b)), None)
    case Text(t) =>
      match env.loads(t)
      case NotJson => Stepped(s, None)
      case Value(obj) =>
        match Get(obj, "type", JNull)
        case Err(e) => Stepped(s, Some(e))
        case Ok(kind) =>
          if kind == JStr("tts_start") then Stepped(Start(s, Field(obj, "seq"), env), None)
          else if kind == JStr("tts_done") then Stepped(Done(s, Field(obj, "seq"), env), None)
          else Stepped(s, None)
  }

  /** The loop over the messages that arrive, up to an exception. */
  function Run(s: State, msgs: seq<Message>, env: Env): Stepped
    decreases |msgs|
  {
    if msgs == [] then Stepped(s, None)
    else
      var r := Step(s, msgs[0], env);
      if r.raised.Some? then r else Run(r.state, msgs[1..], env)
  }

  /** The open handle is always on the remembered path, and that file exists. */
  predicate Inv(s: State) {
    s.open == s.path && (s.path.Some? ==> s.path.value in s.files && s.path.value != "")
  }

  lemma StepKeepsInv(s: State, m: Message, env: Env)
    requires Inv(s)
    ensures Inv(Step(s, m, env).state)
  {
    if m.Text? && env.loads(m.text).Value? {
      var obj := env.loads(m.text).value;
      if IsDict(obj) && Field(obj, "type") == JStr("tts_done") && WritesWav(s, Field(obj, "seq"), env) {
        assert Done(s, Field(obj, "seq"), env).path == None;
      }
    }
  }

  /** A binary frame is appended to the open segment file; nothing else changes. */
  lemma BinaryToSegment(s: State, b: seq<byte>, env: Env)
    requires Inv(s) && s.open.Some?
    ensures var r := Step(s, Binary(b), env);
            r.raised == None && r.state.files == s.files[s.path.value := RawOf(s.files, s.path.value) + b] &&
            r.state.(files := s.files) == s
  {
  }

  /** With no segment open, a binary frame is appended to the fallback file. */
  lemma BinaryToFallback(s: State, b: seq<byte>, env: Env)
    requires s.open.None?
    ensures var r := Step(s, Binary(b), env);
            r.raised == None && RawOf(r.state.files, FallbackPath) == RawOf(s.files, FallbackPath) + b &&
            r.state.(files := s.files) == s &&
            forall q :: q != FallbackPath ==> (q in r.state.files <==> q in s.files)
  {
  }

  /** Text that is not JSON, and a dict of any other type, change nothing. */
  lemma OtherTextIgnored(s: State, t: string, env: Env)
    requires env.loads(t).NotJson? ||
             (IsDict(env.loads(t).value) && Field(env.loads(t).value, "type") != JStr("tts_start") &&
              Field(env.loads(t).value, "type") != JStr("tts_done"))
    ensures Step(s, Text(t), env) == Stepped(s, None)
  {
  }

  /** JSON that is not a dict has no `.get`: the loop dies with AttributeError. */
  lemma NonDictEndsLoop(s: State, t: string, env: Env)
    requires env.loads(t).Value? && !IsDict(env.loads(t).value)
    ensures Step(s, Text(t), env) == Stepped(s, Some(AttributeError))
  {
  }

  /** `tts_start` switches to the new segment file without touching earlier
      files' contents. */
  lemma StartSwitches(s: State, t: string, env: Env)
    requires env.loads(t).Value? && IsDict(env.loads(t).value) && Field(env.loads(t).value, "type") == JStr("tts_start")
    ensures var k := Field(env.loads(t).value, "seq");
            var r := Step(s, Text(t), env);
            r.raised == None && r.state.currentSeq == k &&
            r.state.path == Some(SegmentPath(env, k)) && r.state.open == r.state.path &&
            (forall q :: q in s.files ==> q in r.state.files && RawOf(r.state.files, q) == RawOf(s.files, q))
  {
  }

  /** `tts_done` forgets the segment whatever its seq, and writes the WAV
      exactly when the codec is PCM, a segment is open and the seqs agree; the
      WAV holds the segment's bytes as 16 kHz 16-bit mono frames. */
  lemma DoneResets(s: State, t: string, env: Env)
    requires env.loads(t).Value? && IsDict(env.loads(t).value) && Field(env.loads(t).value, "type") == JStr("tts_done")
    requires Inv(s)
    ensures var k := Field(env.loads(t).value, "seq");
            var r := Step(s, Text(t), env);
            r.raised == None && r.state.currentSeq == JNull && r.state.path == None && r.state.open == None &&
            (WritesWav(s, k, env) <==> Lower(env.codec) == "pcm" && s.path.Some? && PyEq(s.currentSeq, k)) &&
            (WritesWav(s, k, env) ==>
               r.state.files == s.files[WavPath(env, k) := Wav.WavFile(1, 2, 16000, RawOf(s.files, s.path.value))]) &&
            (!WritesWav(s, k, env) ==> r.state.files == s.files)
  {
  }

  /** The loop goes on after a message that raises nothing. */
  lemma RunCons(s: State, m: Message, rest: seq<Message>, env: Env)
    requires Step(s, m, env).raised.None?
    ensures Run(s, [m] + rest, env) == Run(Step(s, m, env).state, rest, env)
  {
    assert ([m] + rest)[0] == m && ([m] + rest)[1..] == rest;
  }

  /** Frames arriving while a segment is open are appended to it in order. */
  lemma {:induction false} RunBinaries(s: State, bs: seq<seq<byte>>, env: Env)
    requires Inv(s) && s.open.Some?
    ensures var r := Run(s, Binaries(bs), env);
            r.raised == None &&
            r.state == s.(files := s.files[s.path.value := RawOf(s.files, s.path.value) + Concat(bs)])
    decreases |bs|
  {
    var p := s.path.value;
    if bs == [] {
      assert Binaries(bs) == [];
      assert RawOf(s.files, p) + [] == RawOf(s.files, p);
      assert s.files[p := RawOf(s.files, p)] == s.files;
    } else {
      var s1 := Step(s, Binary(bs[0]), env).state;
      BinaryToSegment(s, bs[0], env);
      assert Binaries(bs) == [Binary(bs[0])] + Binaries(bs[1..]);
      RunCons(s, Binary(bs[0]), Binaries(bs[1..]), env);
      RunBinaries(s1, bs[1..], env);
      assert RawOf(s1.files, p) == RawOf(s.files, p) + bs[0];
      assert (RawOf(s.files, p) + bs[0]) + Concat(bs[1..]) == RawOf(s.files, p) + Concat(bs);
      assert s1.files[p := RawOf(s1.files, p) + Concat(bs[1..])] ==
             s.files[p := RawOf(s.files, p) + Concat(bs)];
    }
  }

  /** From a state where a segment's handle and path agree, they agree after any
      run of messages. */
  lemma {:induction false} RunKeepsInv(s: State, msgs: seq<Message>, env: Env)
    requires Inv(s)
    ensures Inv(Run(s, msgs, env).state)
    decreases |msgs|
  {
    if msgs != [] {
      StepKeepsInv(s, msgs[0], env);
      if Step(s, msgs[0], env).raised.None? {
        RunKeepsInv(Step(s, msgs[0], env).state, msgs[1..], env);
      }
    }
  }

  /** A segment from `tts_start` to `tts_done` with the same seq, with the
      codec set to PCM: the segment file gains the frames in order, and the WAV
      file holds what the segment file then holds. */
  lemma Segment(s: State, start: string, bs: seq<seq<byte>>, done: string, env: Env)
    requires Inv(s) && Lower(env.codec) == "pcm"
    requires env.loads(start).Value? && IsDict(env.loads(start).value)
    requires Field(env.loads(start).value, "type") == JStr("tts_start")
    requires env.loads(done).Value? && IsDict(env.loads(done).value)
    requires Field(env.loads(done).value, "type") == JStr("tts_done")
    requires Field(env.loads(done).value, "seq") == Field(env.loads(start).value, "seq")
    ensures var k := Field(env.loads(start).value, "seq");
            var r := Run(s, [Text(start)] + Binaries(bs) + [Text(done)], env);
            var pcm := RawOf(s.files, SegmentPath(env, k)) + Concat(bs);
            r.raised == None && r.state.path == None &&
            RawOf(r.state.files, SegmentPath(env, k)) == pcm &&
            RawOf(r.state.files, WavPath(env, k)) == Wav.WavFile(1, 2, 16000, pcm)
  {
    var k := Field(env.loads(start).value, "seq");
    var p := SegmentPath(env, k);
    var s1 := Step(s, Text(start), env).state;
    StartSwitches(s, start, env);
    StepKeepsInv(s, Text(start), env);
    RunBinaries(s1, bs, env);
    var s2 := Run(s1, Binaries(bs), env).state;
    assert s2.path == Some(p) && s2.currentSeq == k;
    assert RawOf(s2.files, p) == RawOf(s.files, p) + Concat(bs);
    RunKeepsInv(s1, Binaries(bs), env);
    DoneResets(s2, done, env);
    var w := WavPath(env, k);
    assert p[|p| - 1] == 'm' && w[|w| - 1] == 'v';
    RunCons(s, Text(start), Binaries(bs) + [Text(done)], env);
    RunAppend(s1, Binaries(bs), [Text(done)], env);
    AppendAssoc([Text(start)], Binaries(bs), [Text(done)]);
    RunCons(s2, Text(done), [], env);
    assert [Text(done)] + [] == [Text(done)];
  }

  /** Two runs back to back, when the first raises nothing. */
  lemma {:induction false} RunAppend(s: State, a: seq<Message>, b: seq<Message>, env: Env)
    requires Run(s, a, env).raised.None?
    ensures Run(s, a + b, env) == Run(Run(s, a, env).state, b, env)
    decreases |a|
  {
    if a == [] {
      assert a + b == b;
    } else {
      assert (a + b)[0] == a[0] && (a + b)[1..] == a[1..] + b;
      RunAppend(Step(s, a[0], env).state, a[1..], b, env);
    }
  }

  /** The demultiplexer inside `main`: the three variables and the files. */
  class Demux {
    var currentSeq: Json
    var currentAudioPath: Option<string>
    /** The path `current_audio_fp` writes to, if a file is open. */
    var currentAudioFile: Option<string>
    var files: Files

    function Current(): State
      reads this
    {
      State(currentSeq, currentAudioPath, currentAudioFile, files)
    }

    /** All three variables start as None, over the directory as found. */
    constructor (files: Files)
      ensures Current() == State(JNull, None, None, files) && Inv(Current())
    {
      currentSeq := JNull;
      currentAudioPath := None;
      currentAudioFile := None;
      this.files := files;
    }

    /** One pass of the body of `recv_loop`. */
    method OnMessage(m: Message, env: Env) returns (raised: Option<Exc>)
      modifies this
      ensures Stepped(Current(), raised) == Step(old(Current()), m, env)
    {
      raised := None;
      match m {
        case Binary(b) =>
          if currentAudioFile.Some? {
            files := AppendTo(files, currentAudioFile.value, b);
          } else {
            files := AppendTo(files, FallbackPath, b);
          }
        case Text(t) =>
          var decoded := env.loads(t);
          if decoded.Value? {
            var obj := decoded.value;
            var kind := Get(obj, "type", JNull);
            if kind.Err? {
              raised := Some(kind.exc);
            } else if kind.value == JStr("tts_start") {
              var seqNo := Field(obj, "seq");
              currentSeq := seqNo;
              var path := SegmentPath(env, seqNo);
              currentAudioPath := Some(path);
              files := Touch(files, path);
              currentAudioFile := Some(path);
            } else if kind.value == JStr("tts_done") {
              var seqNo := Field(obj, "seq");
              currentAudioFile := None;
              if Lower(env.codec) == "pcm" && currentAudioPath.Some? && currentAudioPath.value != ""
                 && PyEq(currentSeq, seqNo) {
                var pcm := RawOf(files, currentAudioPath.value);
                files := files[WavPath(env, seqNo) := Wav.WavFile(Channels, SampleWidth, SampleRate, pcm)];
              }
              currentSeq := JNull;
              currentAudioPath := None;
            }
          }
      }
    }

    /** `async for msg in ws` until the messages run out or one raises. */
    method RecvLoop(msgs: seq<Message>, env: Env) returns (raised: Option<Exc>)
      modifies this
      ensures Stepped(Current(), raised) == Run(old(Current()), msgs, env)
    {
      ghost var s0 := Current();
      var i := 0;
      raised := None;
      assert msgs[0..] == msgs;
      while i < |msgs|
        invariant i <= |msgs| && raised == None
        invariant Run(Current(), msgs[i..], env) == Run(s0, msgs, env)
      {
        assert msgs[i..][0] == msgs[i] && msgs[i..][1..] == msgs[i + 1..];
        ghost var pre := Current();
        raised := OnMessage(msgs[i], env);
        if raised.Some? {
          assert Run(pre, msgs[i..], env) == Step(pre, msgs[i], env);
          return;
        }
        i := i + 1;
      }
      assert msgs[i..] == [];
    }
  }
}
