/** The relay engine of one call: each handler of the `/media-stream`
    connection runs to completion, so each is a pure function from the
    session state and one inbound message to the next state and the ordered
    list of messages it sends. */
module Relay {
  import opened Wrappers
  import opened Messages
  import opened Session

  /** The effect of handling one inbound message. */
  datatype Transition = Transition(next: State, out: seq<Output>)

  /** Barge-in (index.js:279-305): when audio is still unacknowledged and a
      response start time is recorded, truncate the assistant item at the
      elapsed playback time, clear Twilio's buffer and forget the response. */
  function HandleSpeechStarted(s: State): (t: Transition)
    // nothing to interrupt: no output, no state change
    ensures |s.markQueue| == 0 || s.responseStart.None? ==> t == Transition(s, [])
    // something to interrupt: the clear always goes out, last, for the current stream
    ensures |s.markQueue| > 0 && s.responseStart.Some? ==>
      && 1 <= |t.out| <= 2
      && t.out[|t.out| - 1] == SendClear(s.streamSid)
      && (|t.out| == 2 <==> Truthy(s.lastAssistantItem))
      && (Truthy(s.lastAssistantItem) ==>
            t.out[0] == Truncate(s.lastAssistantItem.value, 0,
                                 s.latestMediaTimestamp - s.responseStart.value))
      // afterwards nothing is left to interrupt; stream and clock are kept
      && t.next.markQueue == []
      && t.next.lastAssistantItem.None?
      && t.next.responseStart.None?
      && t.next.streamSid == s.streamSid
      && t.next.latestMediaTimestamp == s.latestMediaTimestamp
  {
    if |s.markQueue| > 0 && s.responseStart.Some? then
      var elapsed := s.latestMediaTimestamp - s.responseStart.value;
      var truncate :=
        if Truthy(s.lastAssistantItem)
        then [Truncate(s.lastAssistantItem.value, 0, elapsed)]
        else [];
      Transition(
        s.(markQueue := [], lastAssistantItem := None, responseStart := None),
        truncate + [SendClear(s.streamSid)])
    else
      Transition(s, [])
  }

  /** `sendMark` (index.js:308-318): on a set stream, send one `responsePart`
      marker and enqueue one token for it; otherwise do nothing. */
  function SendPlaybackMark(s: State): (t: Transition)
    ensures Truthy(s.streamSid) ==>
      && t.out == [SendMark(s.streamSid.value, MarkName)]
      && |t.next.markQueue| == |s.markQueue| + 1
      && t.next.markQueue[..|s.markQueue|] == s.markQueue
      && t.next.markQueue[|s.markQueue|] == MarkName
    ensures !Truthy(s.streamSid) ==> t == Transition(s, [])
    ensures t.next.(markQueue := s.markQueue) == s
  {
    if Truthy(s.streamSid) then
      Transition(s.(markQueue := s.markQueue + [MarkName]),
                 [SendMark(s.streamSid.value, MarkName)])
    else
      Transition(s, [])
  }

  /** `response.audio.delta` (index.js:335-354): forward a non-empty delta to
      Twilio, capture the response start time when it is falsy, record the
      item id when one is given, then send a playback marker. */
  function OnAudioDelta(s: State, delta: string, itemId: Option<string>): (t: Transition)
    ensures delta == "" ==> t == Transition(s, [])
    ensures delta != "" ==>
      // the audio goes first, unchanged, tagged with the current stream
      && 1 <= |t.out| <= 2
      && t.out[0] == SendMedia(s.streamSid, delta)
      // the clock and the stream are untouched
      && t.next.streamSid == s.streamSid
      && t.next.latestMediaTimestamp == s.latestMediaTimestamp
      // the time origin is captured only when null or 0
      && (StartUnset(s.responseStart) ==> t.next.responseStart == Some(s.latestMediaTimestamp))
      && (!StartUnset(s.responseStart) ==> t.next.responseStart == s.responseStart)
      // the item id is recorded only when present
      && (Truthy(itemId) ==> t.next.lastAssistantItem == itemId)
      && (!Truthy(itemId) ==> t.next.lastAssistantItem == s.lastAssistantItem)
      // exactly one marker and one token, or neither
      && (|t.out| == 2 <==> Truthy(s.streamSid))
      && (Truthy(s.streamSid) ==>
            t.out[1] == SendMark(s.streamSid.value, MarkName)
            && t.next.markQueue == s.markQueue + [MarkName])
      && (!Truthy(s.streamSid) ==> t.next.markQueue == s.markQueue)
  {
    if delta != "" then
      var started :=
        if StartUnset(s.responseStart) then Some(s.latestMediaTimestamp) else s.responseStart;
      var item := if Truthy(itemId) then itemId else s.lastAssistantItem;
      var mark := SendPlaybackMark(s.(responseStart := started, lastAssistantItem := item));
      Transition(mark.next, [SendMedia(s.streamSid, delta)] + mark.out)
    else
      Transition(s, [])
  }

  /** The OpenAI message handler (index.js:327-362): only audio deltas and
      `speech_started` act; every other type, and a message that does not
      parse, is logged and changes nothing. */
  function OnAiMessage(s: State, e: AiEvent): (t: Transition)
    ensures !e.AudioDelta? && !e.SpeechStarted? ==> t == Transition(s, [])
    ensures e.AudioDelta? ==> t == OnAudioDelta(s, e.delta, e.itemId)
    ensures e.SpeechStarted? ==> t == HandleSpeechStarted(s)
  {
    match e
    case AudioDelta(delta, itemId) => OnAudioDelta(s, delta, itemId)
    case SpeechStarted => HandleSpeechStarted(s)
    case OtherAi(_) => Transition(s, [])
    case UnparseableAi => Transition(s, [])
  }

  /** `mark` from Twilio (index.js:389-393): drop the oldest queued token, if any. */
  function OnPlaybackAck(s: State): (t: Transition)
    ensures t.out == []
    ensures |s.markQueue| > 0 ==> s.markQueue == [s.markQueue[0]] + t.next.markQueue
    ensures |s.markQueue| == 0 ==> t.next.markQueue == []
    ensures t.next.(markQueue := s.markQueue) == s
  {
    if |s.markQueue| > 0 then Transition(s.(markQueue := s.markQueue[1..]), [])
    else Transition(s, [])
  }

  /** The Twilio message switch (index.js:365-401). */
  function OnTwilioMessage(s: State, e: TwilioEvent): (t: Transition)
    // media: the clock takes the frame's timestamp; the payload is appended
    // unchanged if and only if the OpenAI socket is open
    ensures e.Media? ==>
      && t.next == s.(latestMediaTimestamp := e.timestamp)
      && (e.aiOpen ==> t.out == [AppendAudio(e.payload)])
      && (!e.aiOpen ==> t.out == [])
    // start: new stream id, timing reset; queue and item kept; silent
    ensures e.Start? ==>
      && t.next.streamSid == Some(e.streamSid)
      && t.next.responseStart.None?
      && t.next.latestMediaTimestamp == 0
      && t.next.markQueue == s.markQueue
      && t.next.lastAssistantItem == s.lastAssistantItem
      && t.out == []
    ensures e.Mark? ==> t == OnPlaybackAck(s)
    ensures e.OtherTwilio? || e.UnparseableTwilio? ==> t == Transition(s, [])
  {
    match e
    case Media(timestamp, payload, aiOpen) =>
      Transition(s.(latestMediaTimestamp := timestamp),
                 if aiOpen then [AppendAudio(payload)] else [])
    case Start(sid) =>
      Transition(s.(streamSid := Some(sid), responseStart := None, latestMediaTimestamp := 0), [])
    case Mark => OnPlaybackAck(s)
    case OtherTwilio(_) => Transition(s, [])
    case UnparseableTwilio => Transition(s, [])
  }

  /** One step of the call: dispatch an inbound message to its socket's handler. */
  function Step(s: State, e: Event): (t: Transition)
    // only a stream start changes the stream id
    ensures t.next.streamSid != s.streamSid ==>
      e.FromTwilio? && e.twilio.Start? && t.next.streamSid == Some(e.twilio.streamSid)
    // only Twilio media and start move the clock
    ensures t.next.latestMediaTimestamp != s.latestMediaTimestamp ==>
      e.FromTwilio? && (e.twilio.Media? || e.twilio.Start?)
    // the queue only shrinks on an ack or a barge-in, and grows by at most one token
    ensures |t.next.markQueue| < |s.markQueue| ==> e.IsAck() || e.IsBargeIn()
    ensures |t.next.markQueue| <= |s.markQueue| + 1
    // clear and truncate are sent only by barge-in
    ensures (exists i :: 0 <= i < |t.out| && (t.out[i].SendClear? || t.out[i].Truncate?)) ==>
      e.IsBargeIn()
    // Twilio messages never reach the OpenAI socket directly, and vice versa
    ensures e.FromTwilio? ==> forall i :: 0 <= i < |t.out| ==> !t.out[i].ToTwilio()
    ensures e.FromAi? ==> forall i :: 0 <= i < |t.out| ==> t.out[i].ToTwilio() || t.out[i].Truncate?
  {
    match e
    case FromTwilio(te) => OnTwilioMessage(s, te)
    case FromAi(ae) => OnAiMessage(s, ae)
  }

  /** Every handler keeps the state well formed and sends well-formed
      messages, with any truncation immediately followed by a clear. */
  lemma StepPreservesWf(s: State, e: Event)
    requires Wf(s)
    ensures Wf(Step(s, e).next)
    ensures forall i :: 0 <= i < |Step(s, e).out| ==> WellFormedOutput(Step(s, e).out[i])
    ensures TruncateThenClear(Step(s, e).out)
  {
  }

  /** A second `speech_started` straight after a barge-in is a no-op. */
  lemma BargeInIsIdempotent(s: State)
    ensures HandleSpeechStarted(HandleSpeechStarted(s).next)
         == Transition(HandleSpeechStarted(s).next, [])
    ensures var t := Step(s, FromAi(SpeechStarted));
            Step(t.next, FromAi(SpeechStarted)) == Transition(t.next, [])
  {
  }

  /** Under `Wf`, a barge-in that fires sends a truncation exactly when an
      assistant item is recorded. */
  lemma BargeInTruncatesIffItem(s: State)
    requires Wf(s)
    requires |s.markQueue| > 0 && s.responseStart.Some?
    ensures (exists i :: 0 <= i < |HandleSpeechStarted(s).out| && HandleSpeechStarted(s).out[i].Truncate?)
        <==> s.lastAssistantItem.Some?
  {
    var t := HandleSpeechStarted(s);
    if s.lastAssistantItem.Some? {
      assert t.out[0].Truncate?;
    }
  }

  /** A playback acknowledgment undoes the queue effect of one forwarded delta:
      the token pushed at the back and the token shifted from the front are
      the same marker, so the queue comes back to what it was. */
  lemma AckUndoesDelta(s: State, delta: string, itemId: Option<string>)
    requires Wf(s)
    requires delta != "" && Truthy(s.streamSid)
    ensures OnPlaybackAck(OnAudioDelta(s, delta, itemId).next).next.markQueue == s.markQueue
  {
  }

  /** A zero response start time counts as unset for the audio-delta handler
      but as set for barge-in: a delta arriving while it is 0 moves the time
      origin to the current clock. */
  lemma ZeroStartIsRecaptured(s: State, delta: string, itemId: Option<string>)
    requires s.responseStart == Some(0) && delta != ""
    ensures OnAudioDelta(s, delta, itemId).next.responseStart == Some(s.latestMediaTimestamp)
    ensures |s.markQueue| > 0 ==> |HandleSpeechStarted(s).out| >= 1
  {
  }
}
