/** The PCM message framer (b64msg.py): a start message, one audio message per
    640-byte read of the file with its Base64 text and a running sequence
    number, then an end message. */
module B64Msg {
  import opened Wrappers
  import opened PyText
  import Base64
  import opened FileChunks

  /** 20 ms of 16 kHz, 16-bit mono audio. */
  const FrameBytes: nat := 640

  datatype Msg = Start(format: string, sampleRate: int) | Audio(seqNo: int, pcmB64: string) | End

  /** One audio message per chunk, numbered from `n`. */
  function Numbered(cs: seq<seq<byte>>, n: int): (r: seq<Msg>)
    ensures |r| == |cs|
  {
    seq(|cs|, i requires 0 <= i < |cs| => Audio(n + i, Base64.Encode(cs[i])))
  }

  /** The whole message list. */
  function Messages(data: seq<byte>): seq<Msg> {
    [Start("pcm", 16000)] + Numbered(Chunks(data, 0, FrameBytes), 1) + [End]
  }

  lemma NumberedSnoc(cs: seq<seq<byte>>, c: seq<byte>)
    ensures [Start("pcm", 16000)] + Numbered(cs + [c], 1) ==
            ([Start("pcm", 16000)] + Numbered(cs, 1)) + [Audio(|cs| + 1, Base64.Encode(c))]
  {
    assert Numbered(cs + [c], 1) == Numbered(cs, 1) + [Audio(|cs| + 1, Base64.Encode(c))];
  }

  /** The read loop. */
  method Frame(data: seq<byte>) returns (msgs: seq<Msg>)
    ensures msgs == Messages(data)
  {
    msgs := [Start("pcm", 16000)];
    var pos := 0;
    var n := 1;
    ghost var cs: seq<seq<byte>> := [];
    while true
      invariant pos <= |data| && n == |cs| + 1
      invariant cs + Chunks(data, pos, FrameBytes) == Chunks(data, 0, FrameBytes)
      invariant msgs == [Start("pcm", 16000)] + Numbered(cs, 1)
      decreases |data| - pos
    {
      var chunk := Read(data, pos, FrameBytes);
      if chunk == [] {
        break;
      }
      var msg := Audio(n, Base64.Encode(chunk));
      NumberedSnoc(cs, chunk);
      ChunksStep(data, pos, FrameBytes, cs);
      msgs := msgs + [msg];
      cs := cs + [chunk];
      pos := pos + |chunk|;
      n := n + 1;
    }
    assert cs + [] == cs;
    msgs := msgs + [End];
  }

  /** The octets the audio messages carry, decoded and concatenated in order. */
  function Decoded(ms: seq<Msg>): Option<seq<byte>> {
    if ms == [] then Some([])
    else if !ms[0].Audio? then None
    else
      match Base64.Decode(ms[0].pcmB64)
      case None => None
      case Some(head) =>
        match Decoded(ms[1..])
        case None => None
        case Some(tail) => Some(head + tail)
  }

  lemma DecodedCons(m: Msg, rest: seq<Msg>, head: seq<byte>, tail: seq<byte>)
    requires m.Audio? && Base64.Decode(m.pcmB64) == Some(head) && Decoded(rest) == Some(tail)
    ensures Decoded([m] + rest) == Some(head + tail)
  {
    assert ([m] + rest)[0] == m && ([m] + rest)[1..] == rest;
  }

  lemma NumberedCons(cs: seq<seq<byte>>, n: int)
    requires cs != []
    ensures Numbered(cs, n) == [Audio(n, Base64.Encode(cs[0]))] + Numbered(cs[1..], n + 1)
  {
    var l := [Audio(n, Base64.Encode(cs[0]))] + Numbered(cs[1..], n + 1);
    forall i | 0 <= i < |cs| ensures Numbered(cs, n)[i] == l[i] {
      if i > 0 {
        assert l[i] == Numbered(cs[1..], n + 1)[i - 1];
      }
    }
  }

  /** Decoding the numbered messages in order gives the chunks back, joined. */
  lemma {:induction false} DecodeNumbered(cs: seq<seq<byte>>, n: int)
    ensures Decoded(Numbered(cs, n)) == Some(Concat(cs))
    decreases |cs|
  {
    if cs != [] {
      DecodeNumbered(cs[1..], n + 1);
      Base64.DecodeEncode(cs[0]);
      NumberedCons(cs, n);
      DecodedCons(Audio(n, Base64.Encode(cs[0])), Numbered(cs[1..], n + 1), cs[0], Concat(cs[1..]));
    }
  }

  /** A message's text decodes to one read: 1 to 640 bytes. */
  predicate CarriesFrame(m: Msg) {
    m.Audio? && Base64.Decode(m.pcmB64).Some? && 1 <= |Base64.Decode(m.pcmB64).value| <= FrameBytes
  }

  /** The framed file: start first, end last, one audio message per read,
      and the audio between them decodes to the file. */
  lemma MessagesEnds(data: seq<byte>)
    ensures var m := Messages(data);
            |m| == Frames(|data|, FrameBytes) + 2 && m[0] == Start("pcm", 16000) && m[|m| - 1] == End &&
            Decoded(m[1..|m| - 1]) == Some(data)
  {
    var cs := Chunks(data, 0, FrameBytes);
    ChunkCount(data, 0, FrameBytes);
    ChunksCover(data, 0, FrameBytes);
    DecodeNumbered(cs, 1);
    var m := Messages(data);
    assert m[1..|m| - 1] == Numbered(cs, 1);
    assert data[0..] == data;
  }

  /** The audio messages are numbered 1, 2, ... by position, each carrying one
      read of 1 to 640 bytes. */
  lemma MessagesFrames(data: seq<byte>)
    ensures var m := Messages(data);
            forall i :: 1 <= i < |m| - 1 ==> m[i].Audio? && m[i].seqNo == i && CarriesFrame(m[i])
  {
    var cs := Chunks(data, 0, FrameBytes);
    ChunkSizes(data, 0, FrameBytes);
    var m := Messages(data);
    forall i | 1 <= i < |m| - 1 ensures m[i].Audio? && m[i].seqNo == i && CarriesFrame(m[i]) {
      assert m[i] == Numbered(cs, 1)[i - 1] == Audio(i, Base64.Encode(cs[i - 1]));
      Base64.DecodeEncode(cs[i - 1]);
    }
  }

  /** The framed file: start first, end last, frames + 2 messages numbered
      1, 2, ... each carrying one read, and the audio between them decodes to
      the file. */
  lemma MessagesShape(data: seq<byte>)
    ensures var m := Messages(data);
            |m| == Frames(|data|, FrameBytes) + 2 && m[0] == Start("pcm", 16000) && m[|m| - 1] == End &&
            Decoded(m[1..|m| - 1]) == Some(data) &&
            forall i :: 1 <= i < |m| - 1 ==> m[i].Audio? && m[i].seqNo == i && CarriesFrame(m[i])
  {
    MessagesEnds(data);
    MessagesFrames(data);
  }
}
