# Twilio ↔ OpenAI Realtime relay: verified model of the per-call state machine

This project models the per-call relay inside the `/media-stream` WebSocket
handler of `index.js`. The handler bridges one Twilio Media Streams call to
one OpenAI Realtime session. It forwards caller audio to the AI and AI audio
back to the caller. When the caller starts talking over the assistant, it
handles the barge-in: it truncates the assistant's conversation item at the
playback offset the caller actually heard, and it tells Twilio to drop audio
that is buffered but not yet played.

The connection state is five variables (index.js:71-75). `Session.State`
models them as `streamSid`, `latestMediaTimestamp`, `lastAssistantItem`,
`markQueue` and `responseStart`. Every message handler runs to completion, so
each one is a pure function from the state and one inbound message to a
`Relay.Transition`: the next state plus the ordered list of outbound
messages. Both directions go in that list: Twilio `media`/`mark`/`clear` and
OpenAI `input_audio_buffer.append`/`conversation.item.truncate`.
`Relay.Step` dispatches one message. `Runs.Run` folds `Step` over a whole
sequence of messages, and `Runs.Serve` is the same thing written as an event
loop.

Modules:
- `Wrappers`: `Option`, for the JavaScript values that may be `null`.
- `Messages`: inbound events for each socket, outbound messages, the marker
  label `responsePart`, and JavaScript truthiness of optional strings.
- `Session`: the state, the initial state, and the well-formedness invariant
  `Wf`. `Wf` says the queue holds only marker tokens and a recorded item id is
  non-empty.
- `Relay`: the handlers, `Step`, and one-step lemmas.
- `Runs`: runs over message sequences, the event loop, mark pairing, and
  non-negative truncation offsets.
- `Scenarios`: concrete calls worked end to end.

Some behaviours of the handler are easy to misread:
- The audio-delta handler captures the response start time whenever the
  stored value is falsy (`null` or `0`), not only when it is `null`
  (index.js:344). Barge-in uses `!= null` (index.js:280), so there a stored
  `0` counts as set. `Session.StartUnset` models the first test and
  `Option.Some?` the second. `Relay.ZeroStartIsRecaptured` shows the
  difference.
- A stream start resets only `responseStart` and the clock (index.js:381-388).
  It keeps the queued markers and the last assistant item of the previous
  stream. So a non-empty queue does not imply a recorded response start
  (`Scenarios.RestartKeepsStaleMarks`).
- Nothing enforces monotone timestamps. The clock is overwritten by every
  media frame (index.js:371), so `audio_end_ms` can be negative
  (`Scenarios.BackwardsTimestampGivesNegativeOffset`). Non-negativity is
  proved only under the explicit precondition `Runs.NonDecreasingWithinStreams`
  on the message sequence.
- An audio delta that arrives before the stream starts is still forwarded,
  with a `null` stream id, and it sets the time origin. No marker is sent and
  no token is queued for it (index.js:309) (`Scenarios.DeltaBeforeStartIsUnmarked`).

## Model

| member | source | states |
|---|---|---|
| `Relay.HandleSpeechStarted` | index.js:279-305 | With no queued marker or no recorded start, nothing is sent and nothing changes. Otherwise the clear for the current stream is sent last. It is preceded by exactly one truncate, at content index 0 with offset clock minus start, exactly when the item id is truthy. Afterwards the queue, the item and the start are cleared, and the stream and the clock are kept. |
| `Relay.SendPlaybackMark` | index.js:308-318 | On a truthy stream id, exactly one `responsePart` marker goes out for that stream and exactly one token is appended at the back of the queue. Otherwise nothing happens. No other field changes. |
| `Relay.OnAudioDelta` | index.js:335-354 | An empty delta does nothing. A non-empty one is first forwarded unchanged as Twilio media on the current stream. The start is captured from the clock only when it is null or 0. The item is recorded only when a truthy id comes with the delta. The clock and the stream are unchanged. One marker is sent and one token queued if and only if the stream id is truthy. |
| `Relay.OnAiMessage` | index.js:327-362 | Only `response.audio.delta` and `input_audio_buffer.speech_started` act. Every other type, and an unparseable message, leaves the state unchanged and sends nothing. |
| `Relay.OnPlaybackAck` | index.js:389-393 | A Twilio `mark` removes the oldest token if there is one. On an empty queue it does nothing. It sends nothing and changes no other field. |
| `Relay.OnTwilioMessage` | index.js:365-401 | `media` overwrites the clock with the frame's timestamp and appends the payload unchanged if and only if the OpenAI socket is open. `start` sets the stream id, nulls the start and zeroes the clock, keeps the queue and the item, and sends nothing. Other and unparseable messages do nothing. |
| `Relay.Step` | index.js:327-401 | Only `start` changes the stream id, and only `media`/`start` move the clock. The queue shrinks only on an ack or a barge-in, and grows by at most one token. Clear and truncate are sent only on barge-in. Twilio messages never produce Twilio-bound output. |
| `Relay.StepPreservesWf` | index.js:279-401 | Every handler keeps the queue made of `responsePart` tokens and a recorded item non-empty. It sends only well-formed markers and truncates, and every truncate is immediately followed by a clear. |
| `Relay.BargeInIsIdempotent` | index.js:300-303 | A second `speech_started` straight after a barge-in sends nothing and changes nothing. |
| `Relay.BargeInTruncatesIffItem` | index.js:284-293 | On well-formed state, a barge-in that fires sends a truncate if and only if an assistant item is recorded. |
| `Relay.AckUndoesDelta` | index.js:389-393 | On a well-formed state with a set stream, an ack after a forwarded delta leaves the queue exactly as it was before the delta, because the FIFO shift removes a token equal to the one pushed. |
| `Relay.ZeroStartIsRecaptured` | index.js:344-347 | A start of 0 is replaced by the current clock on the next delta, yet it still counts as set for barge-in. |
| `Runs.RunPreservesWf` | index.js:327-401 | From a well-formed state, any sequence of messages leads to a well-formed state. Every message sent is well formed, and every truncate is immediately followed by a clear. |
| `Runs.Serve` | index.js:327-401 | Handling the messages one at a time, each to completion, gives exactly the final state and the output sequence of `Run`. |
| `Runs.ReachableWf` | index.js:71-75 | Every state reachable from a fresh connection is well formed, and so is everything it sends. |
| `Runs.StepQueueAccounting` | index.js:308-318 | One step adds to the queue at most the markers it sends. Unless it is a barge-in, it loses at most the one token an ack removes. |
| `Runs.QueueBoundedByMarksSent` | index.js:308-318 | Over any run, the queue length is at most its initial length plus the markers sent. |
| `Runs.MarksSentAreQueued` | index.js:389-393 | Over a run without barge-in, the initial length plus the markers sent is at most the final length plus the acks received. |
| `Runs.MarkPairing` | index.js:308-318 | Without barge-in or acks, the queue grows by exactly the number of markers sent. |
| `Runs.StepKeepsTiming` | index.js:279-401 | If the clock is non-negative, any start lies between 0 and the clock, and a media frame does not go back, then this still holds after one step, and any truncate has a non-negative offset. |
| `Runs.TruncationOffsetsNonNegative` | index.js:281-289 | When timestamps never go back within a stream, every truncate of a run carries a non-negative `audio_end_ms`. |
| `Runs.CallTruncationOffsetsNonNegative` | index.js:371-387 | From a fresh connection, timestamps that never go back within a stream rule out negative truncation offsets. |
| `Scenarios.BargeInAfterThreeHundredMs` | index.js:279-305 | Start, media at 2000, delta for "X", media at 2300, then speech: the truncate for "X" at 300 ms is sent, followed by the clear. |
| `Scenarios.TruncationOffsetExample` | index.js:281-289 | Start 1000, clock 1450, item "itemA": the truncate says 450 ms. |
| `Scenarios.BackwardsTimestampGivesNegativeOffset` | index.js:371 | A frame whose timestamp goes back yields `audio_end_ms` = -300. |
| `Scenarios.RestartKeepsStaleMarks` | index.js:381-388 | After a restart, the old stream's marker and item remain, and a barge-in does nothing. |
| `Scenarios.DeltaBeforeStartIsUnmarked` | index.js:308-318 | Before `start`, a delta is forwarded with a null stream id, no marker is sent, and a later barge-in does nothing. |

## Left out

- HTTP server, the TwiML answer to `/incoming-call`, environment loading and `listen` (index.js:8-23, 47-62, 420-426): I/O plumbing outside the relay.
- WebSocket construction, the open/close/error handlers and the 100 ms delay before session setup (index.js:77-82, 321-324, 404-416): transport and timing. Closing the Twilio side closes the OpenAI socket if it is open. The model treats a closed call as simply receiving no more messages.
- `session.update` and the initial greeting item (index.js:85-102, 257-276): fixed constant messages that contain floating-point settings. They do not touch the relay state.
- The `tools:` block (index.js:103-177): it is a JavaScript label statement, so it is never sent.
- Function-call dispatch, `nearestHospital` and the second OpenAI listener (index.js:186-253): broken as written (the dispatcher is out of scope where it is called, and the error is swallowed), mostly commented out, and random.
- Base64 decode and re-encode of the delta (index.js:339): Node `Buffer` behaviour. The payload is an opaque string passed through unchanged.
- JSON parsing and logging (index.js:331-333, 359-361, 395, 398-400): a message that is not JSON, or a Twilio `media`/`start` message without its `media`/`start` object, throws before any state change. It is the event `UnparseableTwilio`/`UnparseableAi`, with no state change and no output.
- Missing inner fields, which the handlers read as `undefined`, are not modelled. A `media` object without `timestamp` sets the clock to `undefined` (index.js:371). The append is still sent without `audio` when the socket is open (index.js:373-378). A `start` object without `streamSid` sets the stream id to `undefined`, nulls the start and zeroes the clock (index.js:382-387). The model's `Media` and `Start` events always carry these fields.
- JSON field types other than strings are not modelled. A truthy `delta` that is not a string, such as a number, makes `Buffer.from` throw before any send or state change (index.js:339). An `item_id` that is not a string is stored and later sent as the truncate's `item_id` (index.js:349-350, 287). The model's deltas, item ids, stream ids and payloads are strings.
- Timestamps are integers. Twilio sends them as JSON strings, and JavaScript coerces them during subtraction. A string `"0"` would be truthy where the number 0 is not. Those coercions are not modelled.
- Failures of `send` on a socket that is closing are not modelled. Each send is recorded as an output in order.
