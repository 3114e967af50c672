/** The synthesis stream of api/utils/tts_stream.py: the loop that classifies the
    messages of the synthesis websocket into audio and metadata items and decides
    when the stream ends. */
module TtsStream {
  import opened Wrappers
  import opened PyJson
  import opened Ws

  /** What the generator yields: ("audio", bytes) or ("meta", data). */
  datatype Item = Audio(bytes: seq<byte>) | Meta(data: Json)

  /** Why a metadata event ended the stream. */
  datatype Stop = CodeError | Final

  /** What one message contributes: nothing, an item, or an item after which the
      stream returns. */
  datatype Step = Pass | Emit(item: Item) | EmitStop(item: Item, why: Stop)

  /** The stream returns because the connection closed, or after a stopping event. */
  datatype End = Closed | Stopped(why: Stop)

  datatype Outcome = Outcome(items: seq<Item>, end: End)

  /** `isinstance(data, dict) and data.get("code") not in (None, 0)`. */
  predicate IsError(data: Json) {
    IsDict(data) && !IsZeroOrNone(Field(data, "code"))
  }

  /** `isinstance(data, dict) and data.get("final") == 1`. */
  predicate IsFinal(data: Json) {
    IsDict(data) && EqualsOne(Field(data, "final"))
  }

  /** One message: binary audio (dropped when empty), or text that is skipped
      when it is not JSON and otherwise delivered as metadata before the stop
      checks. */
  function MessageStep(m: Message, loads: Loads): Step {
    match m
    case Binary(b) => if b != [] then Emit(Audio(b)) else Pass
    case Text(t) =>
      match loads(t)
      case NotJson => Pass
      case Value(data) =>
        if IsError(data) then EmitStop(Meta(data), CodeError)
        else if IsFinal(data) then EmitStop(Meta(data), Final)
        else Emit(Meta(data))
  }

  function Fold(steps: seq<Step>): Outcome {
    if steps == [] then Outcome([], Closed)
    else
      match steps[0]
      case Pass => Fold(steps[1..])
      case EmitStop(item, why) => Outcome([item], Stopped(why))
      case Emit(item) =>
        var rest := Fold(steps[1..]);
        Outcome([item] + rest.items, rest.end)
  }

  function Steps(msgs: seq<Message>, loads: Loads): (r: seq<Step>)
    ensures |r| == |msgs|
  {
    if msgs == [] then [] else [MessageStep(msgs[0], loads)] + Steps(msgs[1..], loads)
  }

  lemma {:induction false} StepAt(msgs: seq<Message>, loads: Loads, i: nat)
    requires i < |msgs|
    ensures Steps(msgs, loads)[i] == MessageStep(msgs[i], loads)
  {
    if i > 0 {
      StepAt(msgs[1..], loads, i - 1);
    }
  }

  /** The items of the messages received before the connection closes. */
  function Stream(msgs: seq<Message>, loads: Loads): Outcome {
    Fold(Steps(msgs, loads))
  }

  /** `tencent_tts_stream`'s `while True` receive loop. */
  method TencentTtsStream(msgs: seq<Message>, loads: Loads) returns (items: seq<Item>, end: End)
    ensures Outcome(items, end) == Stream(msgs, loads)
  {
    ghost var steps := Steps(msgs, loads);
    items := [];
    var i := 0;
    while i < |msgs|
      invariant 0 <= i <= |msgs|
      invariant items + Fold(steps[i..]).items == Fold(steps).items
      invariant Fold(steps[i..]).end == Fold(steps).end
      decreases |msgs| - i
    {
      var step := MessageStep(msgs[i], loads);
      StepAt(msgs, loads, i);
      assert steps[i..][0] == step && steps[i..][1..] == steps[i + 1..];
      if step.EmitStop? {
        return items + [step.item], Stopped(step.why);
      } else if step.Emit? {
        items := items + [step.item];
      }
      i := i + 1;
    }
    assert steps[i..] == [];
    end := Closed;
  }

  // ---- one message ----

  /** A non-empty binary message is yielded as audio, an empty one dropped. */
  lemma BinaryStep(b: seq<byte>, loads: Loads)
    ensures b != [] ==> MessageStep(Binary(b), loads) == Emit(Audio(b))
    ensures b == [] ==> MessageStep(Binary(b), loads) == Pass
  {
  }

  /** Text that is not JSON is skipped without stopping. */
  lemma NotJsonSkipped(t: string, loads: Loads)
    requires loads(t) == NotJson
    ensures MessageStep(Text(t), loads) == Pass
  {
  }

  /** Every parsed text is delivered as metadata, the stopping one included; it
      stops the stream exactly when it is a dict with an error code or final == 1. */
  lemma JsonTextDelivered(t: string, data: Json, loads: Loads)
    requires loads(t) == Value(data)
    ensures MessageStep(Text(t), loads).Emit? || MessageStep(Text(t), loads).EmitStop?
    ensures MessageStep(Text(t), loads).item == Meta(data)
    ensures MessageStep(Text(t), loads).EmitStop? <==> IsDict(data) && (!IsZeroOrNone(Field(data, "code")) || EqualsOne(Field(data, "final")))
  {
  }

  /** JSON that is not a dict never stops the stream. */
  lemma NonDictNeverStops(t: string, data: Json, loads: Loads)
    requires loads(t) == Value(data) && !IsDict(data)
    ensures MessageStep(Text(t), loads) == Emit(Meta(data))
  {
  }

  /** The error check comes first: an event with both an error code and
      final == 1 stops as an error. */
  lemma ErrorBeforeFinal(data: Json)
    requires IsError(data) && IsFinal(data)
    ensures forall t, loads: Loads :: loads(t) == Value(data) ==> MessageStep(Text(t), loads) == EmitStop(Meta(data), CodeError)
  {
  }

  // ---- whole stream ----

  lemma {:induction false} FoldEnd(steps: seq<Step>)
    ensures Fold(steps).end == Closed <==> forall i :: 0 <= i < |steps| ==> !steps[i].EmitStop?
    ensures Fold(steps).end.Stopped? ==>
              Fold(steps).items != [] &&
              exists i :: 0 <= i < |steps| && steps[i].EmitStop? && steps[i].item == Fold(steps).items[|Fold(steps).items| - 1]
  {
    if steps != [] {
      FoldEnd(steps[1..]);
      if steps[0].Emit? && Fold(steps[1..]).end.Stopped? {
        var i :| 0 <= i < |steps[1..]| && steps[1..][i].EmitStop? && steps[1..][i].item == Fold(steps[1..]).items[|Fold(steps[1..]).items| - 1];
        assert steps[i + 1] == steps[1..][i];
      }
      if !steps[0].EmitStop? {
        assert forall i :: 1 <= i < |steps| ==> steps[i] == steps[1..][i - 1];
      }
    }
  }

  /** The stream ends with the connection exactly when no message stops it, and
      when a message does stop it, that message's metadata is the last item. */
  lemma StreamEnd(msgs: seq<Message>, loads: Loads)
    ensures Stream(msgs, loads).end == Closed <==> forall i :: 0 <= i < |msgs| ==> !MessageStep(msgs[i], loads).EmitStop?
    ensures Stream(msgs, loads).end.Stopped? ==>
              var items := Stream(msgs, loads).items;
              items != [] && items[|items| - 1].Meta? && IsDict(items[|items| - 1].data) &&
              exists i :: 0 <= i < |msgs| && MessageStep(msgs[i], loads).EmitStop? &&
                          items[|items| - 1] == MessageStep(msgs[i], loads).item
  {
    var steps := Steps(msgs, loads);
    FoldEnd(steps);
    forall i | 0 <= i < |msgs| ensures steps[i] == MessageStep(msgs[i], loads) {
      StepAt(msgs, loads, i);
    }
  }

  lemma {:induction false} FoldAudioNonEmpty(steps: seq<Step>)
    requires forall i :: 0 <= i < |steps| && steps[i].Emit? && steps[i].item.Audio? ==> steps[i].item.bytes != []
    requires forall i :: 0 <= i < |steps| && steps[i].EmitStop? ==> steps[i].item.Meta?
    ensures forall k :: 0 <= k < |Fold(steps).items| && Fold(steps).items[k].Audio? ==> Fold(steps).items[k].bytes != []
  {
    if steps != [] {
      FoldAudioNonEmpty(steps[1..]);
    }
  }

  /** No audio item is empty. */
  lemma AudioNonEmpty(msgs: seq<Message>, loads: Loads)
    ensures forall k :: 0 <= k < |Stream(msgs, loads).items| && Stream(msgs, loads).items[k].Audio? ==> Stream(msgs, loads).items[k].bytes != []
  {
    var steps := Steps(msgs, loads);
    forall i | 0 <= i < |msgs| ensures steps[i] == MessageStep(msgs[i], loads) {
      StepAt(msgs, loads, i);
    }
    FoldAudioNonEmpty(steps);
  }

  lemma {:induction false} StepsAppend(a: seq<Message>, b: seq<Message>, loads: Loads)
    ensures Steps(a + b, loads) == Steps(a, loads) + Steps(b, loads)
  {
    if a == [] {
      assert a + b == b;
    } else {
      assert (a + b)[0] == a[0] && (a + b)[1..] == a[1..] + b;
      StepsAppend(a[1..], b, loads);
    }
  }

  lemma {:induction false} FoldAfterStop(s: seq<Step>, t: seq<Step>)
    requires Fold(s).end.Stopped?
    ensures Fold(s + t) == Fold(s)
  {
    if s != [] {
      assert (s + t)[0] == s[0] && (s + t)[1..] == s[1..] + t;
      if !s[0].EmitStop? {
        FoldAfterStop(s[1..], t);
      }
    }
  }

  /** Once a message has stopped the stream, later messages contribute nothing. */
  lemma NothingAfterStop(a: seq<Message>, b: seq<Message>, loads: Loads)
    requires Stream(a, loads).end.Stopped?
    ensures Stream(a + b, loads) == Stream(a, loads)
  {
    StepsAppend(a, b, loads);
    FoldAfterStop(Steps(a, loads), Steps(b, loads));
  }
}
