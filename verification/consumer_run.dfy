/** The consumer tool's `run`: connect, create the session, the destination
    and the consumer, obtain messages by the chosen strategy, close the
    consumer and then, whatever happened, the session and the connection. */
module ConsumerRun {
  import opened JavaLang
  import opened Jms
  import opened Batching
  import opened ConsumerConfig
  import opened ConsumerHandling
  import opened ConsumerLoops

  /** What the provider hands the tool in one run: the results of `receive`
      for the polling loop, of `getEnumeration` for the browser, and the
      interleaving of deliveries and counter tests for the listener. */
  datatype Inputs = Inputs(receives: seq<Option<Message>>, enumerations: seq<Enumeration>, ticks: seq<Tick>)

  /** A run's trace and how it ended. */
  datatype RunOutcome = RunOutcome(events: seq<Event>, exit: Exit)

  /** Everything `run` does before it obtains the first message. */
  function Setup(c: Config): seq<Event>
  {
    [ConnectionCreated]
    + (if c.clientId.Some? then [ClientIdSet(c.clientId.value)] else [])
    + [ConnectionStarted,
       SessionCreated(c.transacted, c.acknowledgeMode),
       DestinationResolved(ChooseDestination(c.jndiLookupDestinations, c.useQueueDestinations,
                                             c.useTemporaryDestinations, c.destinationName)),
       ConsumerCreated(ChooseConsumer(c))]
  }

  /** The strategy's loop, started with its counter at zero. */
  function Obtain(c: Config, inputs: Inputs): LoopOutcome
  {
    match ChooseStrategy(c)
    case Listening => Then([ListenerRegistered], 0, Listen(c, inputs.ticks, 0))
    case Browsing => Browse(c, inputs.enumerations)
    case Polling(_) => Poll(c, inputs.receives, 0)
  }

  /** After the loop: a finished loop closes the consumer, which is null when
      a browser was created instead; an exception is logged; either way the
      session and the connection are closed. A run whose input ran out is
      still in its loop. */
  function Closing(exit: Exit, consumerExists: bool): seq<Event>
  {
    match exit
    case Starved => []
    case Aborted(f) => [Raised(f)] + TEARDOWN
    case Finished => (if consumerExists then [ConsumerClosed] else [Raised(NullPointer)]) + TEARDOWN
  }

  /** How the run ends once its loop has ended. */
  function FinalExit(exit: Exit, consumerExists: bool): Exit
  {
    if exit == Finished && !consumerExists then Aborted(NullPointer) else exit
  }

  /** One run of the tool. */
  function Run(c: Config, inputs: Inputs): RunOutcome
  {
    if DispatchesOnNull(c) then
      RunOutcome(Setup(c) + [Raised(NullPointer)] + TEARDOWN, Aborted(NullPointer))
    else
      RunOutcome(Setup(c) + Obtain(c, inputs).events + Closing(Obtain(c, inputs).exit, !ChooseConsumer(c).Browser?),
                 FinalExit(Obtain(c, inputs).exit, !ChooseConsumer(c).Browser?))
  }

  /** Every run starts with the setup; every run that leaves its loop ends by
      closing the session and then the connection, right after closing the
      consumer if it finished and right after the exception otherwise. */
  lemma RunFrame(c: Config, inputs: Inputs)
    ensures |Run(c, inputs).events| >= |Setup(c)| && Run(c, inputs).events[..|Setup(c)|] == Setup(c)
    ensures Run(c, inputs).exit != Starved ==>
      && |Run(c, inputs).events| >= |Setup(c)| + 3
      && Run(c, inputs).events[|Run(c, inputs).events| - 2..] == TEARDOWN
    ensures Run(c, inputs).exit == Finished ==> Run(c, inputs).events[|Run(c, inputs).events| - 3] == ConsumerClosed
    ensures Run(c, inputs).exit.Aborted? ==> Run(c, inputs).events[|Run(c, inputs).events| - 3] == Raised(Run(c, inputs).exit.failure)
  {
    if !DispatchesOnNull(c) {
      var o := Obtain(c, inputs);
      assert Run(c, inputs).events == Setup(c) + o.events + Closing(o.exit, !ChooseConsumer(c).Browser?);
    }
  }

  lemma SetupHandlesNothing(c: Config)
    ensures Handling(Setup(c)) == []
  {
    NoHandling(Setup(c));
  }

  /** A run handles what its loop handles: the setup and the closing steps
      acknowledge and commit nothing. */
  lemma RunHandling(c: Config, inputs: Inputs)
    requires !DispatchesOnNull(c)
    ensures Handling(Run(c, inputs).events) == Handling(Obtain(c, inputs).events)
  {
    var o := Obtain(c, inputs);
    var tail := Closing(o.exit, !ChooseConsumer(c).Browser?);
    SetupHandlesNothing(c);
    NoHandling(tail);
    HandlingAppend(Setup(c), o.events);
    HandlingAppend(Setup(c) + o.events, tail);
  }

  /** A strategy that needs the object the consumer table did not create
      fails at once, whatever the provider would have delivered. */
  lemma NullDispatchRun(c: Config, inputs1: Inputs, inputs2: Inputs)
    requires DispatchesOnNull(c)
    ensures Run(c, inputs1) == Run(c, inputs2)
    ensures Run(c, inputs1).exit == Aborted(NullPointer)
    ensures Handling(Run(c, inputs1).events) == []
  {
    NoHandling(Run(c, inputs1).events);
  }

  /** The browser strategy never ends cleanly: the `consumer` it would close
      is null, so the best it can do is handle its messages and fail. */
  lemma BrowsingNeverFinishes(c: Config, inputs: Inputs)
    requires ChooseStrategy(c).Browsing?
    ensures Run(c, inputs).exit != Finished
    ensures !DividesByZero(c) && c.receiveTimeoutMs >= 0 ==>
      Run(c, inputs).exit == Starved || Run(c, inputs).exit == Aborted(NullPointer)
  {
    if !DispatchesOnNull(c) && !DividesByZero(c) && c.receiveTimeoutMs >= 0 && inputs.enumerations != [] {
      BrowseFromCount(c, inputs.enumerations, 0);
    }
  }

  /** A polling run that finishes has handled exactly the first
      `numMessages` messages the provider returned, null results skipped. */
  lemma PollingRunHandling(c: Config, inputs: Inputs)
    requires ChooseStrategy(c).Polling? && !DividesByZero(c) && Run(c, inputs).exit == Finished
    ensures |NonNulls(inputs.receives)| >= Target(c)
    ensures Handling(Run(c, inputs).events) == HandleRun(c, 0, NonNulls(inputs.receives)[..Target(c)])
  {
    assert !DispatchesOnNull(c) && Obtain(c, inputs) == Poll(c, inputs.receives, 0);
    RunHandling(c, inputs);
    PollFinished(c, inputs.receives);
  }

  /** A polling run that finishes has handled, acknowledged and committed
      exactly as the batch rule says for the counts 1 to `numMessages`. */
  lemma PollingRunDelivers(c: Config, inputs: Inputs)
    requires ChooseStrategy(c).Polling? && !DividesByZero(c) && Run(c, inputs).exit == Finished
    ensures |NonNulls(inputs.receives)| >= Target(c)
    ensures HandledMessages(Run(c, inputs).events) == NonNulls(inputs.receives)[..Target(c)]
    ensures AckedCounts(Run(c, inputs).events) ==
      if c.acknowledgeMode == ClientAcknowledge then Boundaries(1, Target(c) + 1, c.batchSize) else []
    ensures CommitPoints(Run(c, inputs).events, 0) ==
      if c.transacted then Boundaries(1, Target(c) + 1, c.batchSize) else []
  {
    PollingRunHandling(c, inputs);
    var ms := NonNulls(inputs.receives)[..Target(c)];
    HandlingKeepsProjections(Run(c, inputs).events, 0);
    HandleRunCounts(c, 0, ms, 0);
    HandleRunAcks(c, 0, ms);
    HandleRunCommits(c, 0, ms, 0);
  }

  /** A listening run that finishes has handled the deliveries in the order
      they came, at least `numMessages` of them; deliveries between two
      tests of the counter can take it past `numMessages`. */
  lemma ListeningRunDelivers(c: Config, inputs: Inputs)
    requires ChooseStrategy(c).Listening? && !DividesByZero(c) && Run(c, inputs).exit == Finished
    ensures HandledMessages(Run(c, inputs).events) <= Arrivals(inputs.ticks)
    ensures |HandledMessages(Run(c, inputs).events)| >= c.numMessages
  {
    var o := Listen(c, inputs.ticks, 0);
    assert !DispatchesOnNull(c) && Obtain(c, inputs).events == [ListenerRegistered] + o.events;
    assert o.exit == Finished;
    RunHandling(c, inputs);
    SingleProjections(ListenerRegistered, 0);
    HandlingAppend([ListenerRegistered], o.events);
    assert Handling(Run(c, inputs).events) == Handling(o.events);
    ListenFinished(c, inputs.ticks);
    HandlingKeepsProjections(Run(c, inputs).events, 0);
  }
}
