/** Concrete calls, worked end to end through `Run`. */
module Scenarios {
  import opened Wrappers
  import opened Messages
  import opened Session
  import opened Relay
  import opened Runs

  /** A stream starts, caller audio reaches 2000 ms, the assistant's first
      delta for item "X" fixes the time origin at 2000, audio reaches 2300 and
      the caller speaks: the truncation cuts "X" at 300 ms and is followed by
      the clear for the stream. */
  lemma BargeInAfterThreeHundredMs()
    ensures var es := [
              FromTwilio(Start("MZ1")),
              FromTwilio(Media(2000, "in1", true)),
              FromAi(AudioDelta("out1", Some("X"))),
              FromTwilio(Media(2300, "in2", true)),
              FromAi(SpeechStarted)];
            Run(Init, es) == Transition(
              State(Some("MZ1"), 2300, None, [], None),
              [ AppendAudio("in1"),
                SendMedia(Some("MZ1"), "out1"),
                SendMark("MZ1", MarkName),
                AppendAudio("in2"),
                Truncate("X", 0, 300),
                SendClear(Some("MZ1")) ])
  {
  }

  /** Response start 1000, clock 1450, item "itemA": the truncation offset is 450. */
  lemma TruncationOffsetExample()
    ensures var s := State(Some("MZ1"), 1450, Some("itemA"), [MarkName], Some(1000));
            HandleSpeechStarted(s).out == [Truncate("itemA", 0, 450), SendClear(Some("MZ1"))]
  {
  }

  /** The relay never checks that timestamps increase: a frame that goes back
      in time yields a negative `audio_end_ms`. */
  lemma BackwardsTimestampGivesNegativeOffset()
    ensures var es := [
              FromTwilio(Start("MZ1")),
              FromTwilio(Media(500, "in1", false)),
              FromAi(AudioDelta("out1", Some("A"))),
              FromTwilio(Media(200, "in2", false)),
              FromAi(SpeechStarted)];
            Run(Init, es).out == [
              SendMedia(Some("MZ1"), "out1"),
              SendMark("MZ1", MarkName),
              Truncate("A", 0, -300),
              SendClear(Some("MZ1")) ]
  {
  }

  /** A new stream start resets the response start but keeps the queued
      markers and the last item of the old stream; a barge-in then finds no
      time origin and does nothing, leaving the stale markers queued. */
  lemma RestartKeepsStaleMarks()
    ensures var es := [
              FromTwilio(Start("MZ1")),
              FromAi(AudioDelta("out1", Some("A"))),
              FromTwilio(Start("MZ2")),
              FromAi(SpeechStarted)];
            && Run(Init, es).next == State(Some("MZ2"), 0, Some("A"), [MarkName], None)
            && Run(Init, es).out == [SendMedia(Some("MZ1"), "out1"), SendMark("MZ1", MarkName)]
  {
  }

  /** Audio that arrives before the stream starts is forwarded with a null
      stream id and no marker; it sets the time origin, but with nothing
      queued a barge-in does nothing. */
  lemma DeltaBeforeStartIsUnmarked()
    ensures var es := [
              FromTwilio(Media(40, "in1", true)),
              FromAi(AudioDelta("out1", None)),
              FromAi(SpeechStarted)];
            && Run(Init, es).next == State(None, 40, None, [], Some(40))
            && Run(Init, es).out == [AppendAudio("in1"), SendMedia(None, "out1")]
  {
  }
}
