/** The producer tool's `run`: connect, create the session, the destination
    and the producer, set the delivery mode, run the send loop, send the
    control message, close the producer and then, whatever happened, the
    session and the connection. */
module ProducerRun {
  import opened JavaLang
  import opened Jms
  import opened Batching
  import opened ProducerConfig
  import opened ProducerSend

  /** Everything `run` does before the first send. The producer never starts
      its connection. */
  function Setup(c: Config): seq<Event>
  {
    [ConnectionCreated]
    + (if c.clientId.Some? then [ClientIdSet(c.clientId.value)] else [])
    + [SessionCreated(c.transacted, c.acknowledgeMode),
       DestinationResolved(Destination(c)),
       ProducerCreated,
       DeliveryModeSet(DeliveryModeFor(c.durable))]
  }

  /** One run of worker `w`: an exception from the loop is logged and skips
      the control message and the producer's close; the session and the
      connection are closed either way. */
  function Run(c: Config, clock: Clock, w: nat): Outcome
  {
    var loop := SendLoop(c, clock, w);
    if loop.failure.Some? then
      Outcome(Setup(c) + loop.events + [Raised(loop.failure.value)] + TEARDOWN, loop.failure)
    else
      Outcome(Setup(c) + loop.events + ControlStep(c) + [ProducerClosed] + TEARDOWN, None)
  }

  /** The send loop's turns, never negative. */
  function LoopTurns(c: Config): nat
  {
    if MessagesToSend(c) > 0 then MessagesToSend(c) else 0
  }

  lemma SetupSendsNothing(c: Config)
    ensures Quiet(Setup(c)) && SentMessages(Setup(c)) == [] && CommitCounts(Setup(c), 0) == []
  {
    NoSendsNoCommits(Setup(c), 0);
  }

  /** Every run starts with the setup, which sets the delivery mode the
      durable flag asks for, and ends by closing the session and then the
      connection, right after closing the producer when nothing failed and
      right after the exception otherwise. */
  lemma RunFrame(c: Config, clock: Clock, w: nat)
    ensures var t := Run(c, clock, w).events;
      && |t| >= |Setup(c)| + 3 && t[..|Setup(c)|] == Setup(c)
      && t[|Setup(c)| - 1] == DeliveryModeSet(if c.durable then Persistent else NonPersistent)
      && t[|t| - 2..] == TEARDOWN
      && t[|t| - 3] == if Run(c, clock, w).failure.None? then ProducerClosed else Raised(Run(c, clock, w).failure.value)
  {
    var loop := SendLoop(c, clock, w);
    var s := Setup(c);
    assert s[|s| - 1] == DeliveryModeSet(DeliveryModeFor(c.durable));
    if loop.failure.Some? {
      Framed(s, loop.events, Raised(loop.failure.value));
    } else {
      Framed(s, loop.events + ControlStep(c), ProducerClosed);
      assert s + (loop.events + ControlStep(c)) == s + loop.events + ControlStep(c);
    }
  }

  /** The frame of a trace made of a prefix, a middle, one last event and the
      teardown. */
  lemma Framed(s: seq<Event>, mid: seq<Event>, last: Event)
    requires |s| > 0
    ensures var t := s + mid + [last] + TEARDOWN;
      && |t| >= |s| + 3 && t[..|s|] == s && t[|s| - 1] == s[|s| - 1]
      && t[|t| - 2..] == TEARDOWN && t[|t| - 3] == last
  {
    var t := s + mid + [last] + TEARDOWN;
    assert t == s + (mid + [last] + TEARDOWN);
  }

  /** A run fails exactly when it is transacted with a batch size of zero and
      the loop runs at all; then it has sent the first message only, and
      committed nothing. */
  lemma RunFails(c: Config, clock: Clock, w: nat)
    ensures Run(c, clock, w).failure.Some? <==> CommitDividesByZero(c) && MessagesToSend(c) > 0
    ensures Run(c, clock, w).failure.Some? ==>
      && Run(c, clock, w).failure.value == Arithmetic
      && SentMessages(Run(c, clock, w).events) == [MessageFor(c, 0, clock(w, 0))]
      && CommitCounts(Run(c, clock, w).events, 0) == []
  {
    var loop := SendLoop(c, clock, w);
    if loop.failure.Some? {
      var m := MessageFor(c, 0, clock(w, 0));
      var tail: seq<Event> := [Raised(Arithmetic)] + TEARDOWN;
      assert Run(c, clock, w).events == Setup(c) + ([Sent(m)] + (Pacing(c.perMessageSleepMs) + tail));
      OneSend(m, Pacing(c.perMessageSleepMs) + tail, 0);
      SetupSendsNothing(c);
      SentMessagesAppend(Setup(c), [Sent(m)] + (Pacing(c.perMessageSleepMs) + tail));
      CommitCountsAppend(Setup(c), [Sent(m)] + (Pacing(c.perMessageSleepMs) + tail), 0);
    }
  }

  /** The events of a run that did not fail, in the pieces the projections
      are proved for. */
  lemma RunPieces(c: Config, clock: Clock, w: nat)
    requires Run(c, clock, w).failure.None?
    ensures !CommitDividesByZero(c) || LoopTurns(c) == 0
    ensures Run(c, clock, w).events == Setup(c) + SendLoop(c, clock, w).events + ControlStep(c) + ([ProducerClosed] + TEARDOWN)
    ensures !CommitDividesByZero(c) ==> SendLoop(c, clock, w).events == Sends(c, clock, w, LoopTurns(c))
    ensures LoopTurns(c) == 0 ==> SendLoop(c, clock, w).events == []
    ensures Quiet([ProducerClosed] + TEARDOWN)
  {
  }

  /** What the send loop of a run that does not fail sends and commits. */
  lemma LoopProjections(c: Config, clock: Clock, w: nat)
    requires SendLoop(c, clock, w).failure.None?
    ensures SentMessages(SendLoop(c, clock, w).events) == Messages(c, clock, w, LoopTurns(c))
    ensures CommitCounts(SendLoop(c, clock, w).events, 0) ==
      (if c.transacted && LoopTurns(c) > 0 then Boundaries(1, LoopTurns(c) + 1, c.batchSize) else [])
  {
    var n := LoopTurns(c);
    if n > 0 {
      assert SendLoop(c, clock, w).events == Sends(c, clock, w, n);
      SendsMessages(c, clock, w, n);
      SendsCommits(c, clock, w, n);
    }
  }

  /** A run that does not fail sends the loop's messages for indices 0, 1, …
      in order, then the control message when it is on. */
  lemma RunSends(c: Config, clock: Clock, w: nat)
    requires Run(c, clock, w).failure.None?
    ensures SentMessages(Run(c, clock, w).events) ==
      Messages(c, clock, w, LoopTurns(c)) + (if c.useFinalControlMessage then [ControlFor(c)] else [])
  {
    RunPieces(c, clock, w);
    LoopProjections(c, clock, w);
    SetupSendsNothing(c);
    ControlStepProjections(c, 0);
    SentMiddle(Setup(c), SendLoop(c, clock, w).events, ControlStep(c), [ProducerClosed] + TEARDOWN);
  }

  /** For any positive `numMessages` a run that does not fail sends exactly
      `numMessages` messages (see `TotalSendsRule`). */
  lemma RunSendCount(c: Config, clock: Clock, w: nat)
    requires Run(c, clock, w).failure.None?
    ensures |SentMessages(Run(c, clock, w).events)| == TotalSends(c)
  {
    RunSends(c, clock, w);
    MessagesIndex(c, clock, w, LoopTurns(c));
  }

  /** In a transacted run that does not fail, the session commits right
      after the sends numbered by the batch boundaries among 1 to the loop's
      count, and once more right after the control message, whatever the
      batch size; a run that is not transacted never commits. */
  lemma RunCommits(c: Config, clock: Clock, w: nat)
    requires Run(c, clock, w).failure.None?
    ensures CommitCounts(Run(c, clock, w).events, 0) ==
      (if c.transacted && LoopTurns(c) > 0 then Boundaries(1, LoopTurns(c) + 1, c.batchSize) else [])
      + (if c.transacted && c.useFinalControlMessage then [LoopTurns(c) + 1] else [])
  {
    var n := LoopTurns(c);
    var loop := SendLoop(c, clock, w).events;
    RunPieces(c, clock, w);
    LoopProjections(c, clock, w);
    SetupSendsNothing(c);
    CommitsMiddle(Setup(c), loop, ControlStep(c), [ProducerClosed] + TEARDOWN);
    assert |SentMessages(loop)| == n by {
      MessagesIndex(c, clock, w, n);
    }
    ControlStepProjections(c, n);
  }

  /** Every message a run sends has the configured shape: bytes exactly when
      a bytes length is configured, and the message group on text messages
      and the control message only. */
  lemma RunMessagesShaped(c: Config, clock: Clock, w: nat)
    ensures AllShaped(c, SentMessages(Run(c, clock, w).events))
  {
    MessagesShaped(c, 0, clock(w, 0));
    if Run(c, clock, w).failure.Some? {
      RunFails(c, clock, w);
    } else {
      RunSends(c, clock, w);
      MessagesAllShaped(c, clock, w, LoopTurns(c));
      AllShapedAppend(c, Messages(c, clock, w, LoopTurns(c)), if c.useFinalControlMessage then [ControlFor(c)] else []);
    }
  }
}
