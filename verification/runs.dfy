/** Sequences of inbound messages. The two sockets interleave in any order,
    but every handler runs to completion, so a call is the left fold of
    `Step` over the messages in the order the event loop dispatches them. */
module Runs {
  import opened Wrappers
  import opened Messages
  import opened Session
  import opened Relay

  /** The state after handling `es` from `s`, and everything sent, in order. */
  function Run(s: State, es: seq<Event>): Transition
    decreases |es|
  {
    if |es| == 0 then Transition(s, [])
    else
      var first := Step(s, es[0]);
      var rest := Run(first.next, es[1..]);
      Transition(rest.next, first.out + rest.out)
  }

  /** From a well-formed state, any run ends well formed and sends only
      well-formed messages, each truncation immediately followed by a clear. */
  lemma {:induction false} RunPreservesWf(s: State, es: seq<Event>)
    requires Wf(s)
    ensures Wf(Run(s, es).next)
    ensures forall i :: 0 <= i < |Run(s, es).out| ==> WellFormedOutput(Run(s, es).out[i])
    ensures TruncateThenClear(Run(s, es).out)
    decreases |es|
  {
    if |es| > 0 {
      var first := Step(s, es[0]);
      var rest := Run(first.next, es[1..]);
      StepPreservesWf(s, es[0]);
      RunPreservesWf(first.next, es[1..]);
      TruncateThenClearAppend(first.out, rest.out);
      assert Run(s, es).out == first.out + rest.out;
      forall i | 0 <= i < |Run(s, es).out|
        ensures WellFormedOutput(Run(s, es).out[i])
      {
        if i >= |first.out| {
          assert Run(s, es).out[i] == rest.out[i - |first.out|];
        }
      }
    }
  }

  /** The event loop of one connection: handle the messages one at a time,
      each to completion, sending as it goes. */
  method Serve(s: State, es: seq<Event>) returns (final: State, sent: seq<Output>)
    ensures Run(s, es) == Transition(final, sent)
    ensures Wf(s) ==> Wf(final)
  {
    if Wf(s) {
      RunPreservesWf(s, es);
    }
    final, sent := s, [];
    var i := 0;
    while i < |es|
      invariant 0 <= i <= |es|
      invariant Run(s, es) == Transition(Run(final, es[i..]).next, sent + Run(final, es[i..]).out)
    {
      var t := Step(final, es[i]);
      assert es[i..][1..] == es[i + 1..];
      final, sent := t.next, sent + t.out;
      i := i + 1;
    }
    assert es[i..] == [];
  }

  /** Every reachable state is well formed, and every message sent is. */
  lemma ReachableWf(es: seq<Event>)
    ensures Wf(Run(Init, es).next)
    ensures forall i :: 0 <= i < |Run(Init, es).out| ==> WellFormedOutput(Run(Init, es).out[i])
    ensures TruncateThenClear(Run(Init, es).out)
  {
    RunPreservesWf(Init, es);
  }

  /** The number of Twilio playback acknowledgments among `es`. */
  function CountAcks(es: seq<Event>): (n: nat)
    ensures n <= |es|
    ensures n == 0 <==> forall i :: 0 <= i < |es| ==> !es[i].IsAck()
  {
    if |es| == 0 then 0
    else (if es[0].IsAck() then 1 else 0) + CountAcks(es[1..])
  }

  /** One step changes the queue length by the markers it sends, except that
      an ack may remove one token and a barge-in may empty the queue. */
  lemma StepQueueAccounting(s: State, e: Event)
    ensures |Step(s, e).next.markQueue| <= |s.markQueue| + CountMarks(Step(s, e).out)
    ensures !e.IsBargeIn() ==>
      |s.markQueue| + CountMarks(Step(s, e).out)
        <= |Step(s, e).next.markQueue| + (if e.IsAck() then 1 else 0)
  {
  }

  /** Pairing, upper half: the queue never holds more tokens than it started
      with plus the markers sent. */
  lemma {:induction false} QueueBoundedByMarksSent(s: State, es: seq<Event>)
    ensures |Run(s, es).next.markQueue| <= |s.markQueue| + CountMarks(Run(s, es).out)
    decreases |es|
  {
    if |es| > 0 {
      var first := Step(s, es[0]);
      StepQueueAccounting(s, es[0]);
      QueueBoundedByMarksSent(first.next, es[1..]);
      CountMarksAppend(first.out, Run(first.next, es[1..]).out);
    }
  }

  /** Pairing, lower half: without barge-in, every marker sent left a token
      that only an acknowledgment can have removed. */
  lemma {:induction false} MarksSentAreQueued(s: State, es: seq<Event>)
    requires forall i :: 0 <= i < |es| ==> !es[i].IsBargeIn()
    ensures |s.markQueue| + CountMarks(Run(s, es).out)
         <= |Run(s, es).next.markQueue| + CountAcks(es)
    decreases |es|
  {
    if |es| > 0 {
      var first := Step(s, es[0]);
      StepQueueAccounting(s, es[0]);
      MarksSentAreQueued(first.next, es[1..]);
      CountMarksAppend(first.out, Run(first.next, es[1..]).out);
    }
  }

  /** Without barge-in or acknowledgments, the queue grows by exactly the
      number of markers sent. */
  lemma MarkPairing(s: State, es: seq<Event>)
    requires forall i :: 0 <= i < |es| ==> !es[i].IsBargeIn() && !es[i].IsAck()
    ensures |Run(s, es).next.markQueue| == |s.markQueue| + CountMarks(Run(s, es).out)
  {
    QueueBoundedByMarksSent(s, es);
    MarksSentAreQueued(s, es);
  }

  /** The precondition under which playback offsets make sense: within each
      stream, media timestamps are at least `floor` (initially the clock) and
      never go back; a stream start resets the floor to 0. This is a property
      of the message sequence; the relay itself does not check it. */
  ghost predicate NonDecreasingWithinStreams(floor: int, es: seq<Event>)
    decreases |es|
  {
    if |es| == 0 then true
    else match es[0]
      case FromTwilio(Media(ts, _, _)) => floor <= ts && NonDecreasingWithinStreams(ts, es[1..])
      case FromTwilio(Start(_)) => NonDecreasingWithinStreams(0, es[1..])
      case _ => NonDecreasingWithinStreams(floor, es[1..])
  }

  /** The clock is non-negative and a recorded response start lies between 0
      and the clock. */
  predicate TimingOk(s: State) {
    && 0 <= s.latestMediaTimestamp
    && (s.responseStart.Some? ==> 0 <= s.responseStart.value <= s.latestMediaTimestamp)
  }

  lemma StepKeepsTiming(s: State, e: Event)
    requires TimingOk(s)
    requires !(e.FromTwilio? && e.twilio.Media?) || s.latestMediaTimestamp <= e.twilio.timestamp
    ensures TimingOk(Step(s, e).next)
    ensures forall i :: 0 <= i < |Step(s, e).out| && Step(s, e).out[i].Truncate? ==>
      Step(s, e).out[i].audioEndMs >= 0
  {
  }

  /** When timestamps never go back within a stream, every truncation sent
      carries a non-negative `audio_end_ms`. */
  lemma {:induction false} TruncationOffsetsNonNegative(s: State, es: seq<Event>)
    requires TimingOk(s)
    requires NonDecreasingWithinStreams(s.latestMediaTimestamp, es)
    ensures TimingOk(Run(s, es).next)
    ensures forall i :: 0 <= i < |Run(s, es).out| && Run(s, es).out[i].Truncate? ==>
      Run(s, es).out[i].audioEndMs >= 0
    decreases |es|
  {
    if |es| > 0 {
      var first := Step(s, es[0]);
      StepKeepsTiming(s, es[0]);
      TruncationOffsetsNonNegative(first.next, es[1..]);
      var rest := Run(first.next, es[1..]);
      assert Run(s, es).out == first.out + rest.out;
      forall i | 0 <= i < |Run(s, es).out| && Run(s, es).out[i].Truncate?
        ensures Run(s, es).out[i].audioEndMs >= 0
      {
        if i >= |first.out| {
          assert Run(s, es).out[i] == rest.out[i - |first.out|];
        }
      }
    }
  }

  /** From a fresh connection, monotone timestamps rule out negative offsets. */
  lemma CallTruncationOffsetsNonNegative(es: seq<Event>)
    requires NonDecreasingWithinStreams(0, es)
    ensures forall i :: 0 <= i < |Run(Init, es).out| && Run(Init, es).out[i].Truncate? ==>
      Run(Init, es).out[i].audioEndMs >= 0
  {
    TruncationOffsetsNonNegative(Init, es);
  }
}
