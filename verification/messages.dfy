/** The messages that cross the two WebSockets of one call: inbound events
    from the Twilio Media Streams connection and from the OpenAI Realtime
    session, and the outbound messages the relay sends to either side. */
module Messages {
  import opened Wrappers

  /** The fixed label of every playback marker, and the token pushed onto the
      mark queue for it. */
  const MarkName: string := "responsePart"

  /** JavaScript truthiness of an optional string: `null` and `""` are falsy. */
  predicate Truthy(o: Option<string>) {
    o.Some? && o.value != ""
  }

  /** A message arriving on the Twilio connection, by its `event` field. */
  datatype TwilioEvent =
    | Media(timestamp: int, payload: string, aiOpen: bool)
      // `aiOpen` is the OpenAI socket's readyState == OPEN when the frame arrives
    | Start(streamSid: string)
    | Mark
    | OtherTwilio(kind: string)
    | UnparseableTwilio
      // the message is not JSON, or a `media`/`start` message without its
      // `media`/`start` object

  /** A message arriving on the OpenAI Realtime socket, by its `type` field. */
  datatype AiEvent =
    | AudioDelta(delta: string, itemId: Option<string>)
    | SpeechStarted
    | OtherAi(kind: string)
    | UnparseableAi

  /** Every inbound message, tagged with the socket it came from. */
  datatype Event =
    | FromTwilio(twilio: TwilioEvent)
    | FromAi(ai: AiEvent)
  {
    predicate IsBargeIn() {
      FromAi? && ai.SpeechStarted?
    }

    predicate IsAck() {
      FromTwilio? && twilio.Mark?
    }
  }

  /** One outbound message, in the order the relay sends it. */
  datatype Output =
    | SendMedia(streamSid: Option<string>, payload: string)   // Twilio `media`
    | SendMark(markSid: string, name: string)                 // Twilio `mark`
    | SendClear(streamSid: Option<string>)                    // Twilio `clear`
    | AppendAudio(audio: string)                               // `input_audio_buffer.append`
    | Truncate(itemId: string, contentIndex: int, audioEndMs: int)
      // `conversation.item.truncate`
  {
    /** True of the messages that go to the Twilio connection. */
    predicate ToTwilio() {
      SendMedia? || SendMark? || SendClear?
    }
  }

  /** The number of playback markers in an output list. */
  function CountMarks(out: seq<Output>): (n: nat)
    ensures n <= |out|
    ensures n == 0 <==> forall i :: 0 <= i < |out| ==> !out[i].SendMark?
  {
    if |out| == 0 then 0
    else (if out[0].SendMark? then 1 else 0) + CountMarks(out[1..])
  }

  lemma {:induction false} CountMarksAppend(a: seq<Output>, b: seq<Output>)
    ensures CountMarks(a + b) == CountMarks(a) + CountMarks(b)
    decreases |a|
  {
    if |a| == 0 {
      assert a + b == b;
    } else {
      assert (a + b)[1..] == a[1..] + b;
      CountMarksAppend(a[1..], b);
    }
  }

  /** Every `conversation.item.truncate` in `out` is immediately followed by a
      Twilio `clear`. */
  predicate TruncateThenClear(out: seq<Output>) {
    forall i :: 0 <= i < |out| && out[i].Truncate? ==> i + 1 < |out| && out[i + 1].SendClear?
  }

  lemma TruncateThenClearAppend(a: seq<Output>, b: seq<Output>)
    requires TruncateThenClear(a) && TruncateThenClear(b)
    ensures TruncateThenClear(a + b)
  {
  }

  /** The shape every outbound message of the relay has: markers carry the
      fixed label on a set stream, truncations name a set item at content
      index 0. */
  predicate WellFormedOutput(o: Output) {
    && (o.SendMark? ==> o.name == MarkName && o.markSid != "")
    && (o.Truncate? ==> o.itemId != "" && o.contentIndex == 0)
  }
}
