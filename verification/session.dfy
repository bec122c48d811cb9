/** The per-connection state of the `/media-stream` handler (index.js:71-75). */
module Session {
  import opened Wrappers
  import opened Messages

  /** `streamSid`, `latestMediaTimestamp`, `lastAssistantItem`, `markQueue`
      and `responseStartTimestampTwilio`, in that order. */
  datatype State = State(
    streamSid: Option<string>,
    latestMediaTimestamp: int,
    lastAssistantItem: Option<string>,
    markQueue: seq<string>,
    responseStart: Option<int>)

  /** The state a new connection starts in. */
  const Init: State := State(None, 0, None, [], None)

  /** The falsy test the audio-delta handler applies to the response start
      time: both `null` and `0` count as unset. */
  predicate StartUnset(start: Option<int>) {
    start.None? || start.value == 0
  }

  /** What every reachable state satisfies: the queue holds only marker
      tokens, and a recorded assistant item is a non-empty id. */
  predicate Wf(s: State) {
    && (forall i :: 0 <= i < |s.markQueue| ==> s.markQueue[i] == MarkName)
    && (s.lastAssistantItem.Some? ==> s.lastAssistantItem.value != "")
  }
}
