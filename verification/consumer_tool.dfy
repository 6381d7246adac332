/** The consumer tool as the object `main` creates: its option fields, which
    `parseCommandLine` overwrites, and the methods that handle one message,
    run each strategy's loop and run the whole tool. Each method is proved
    equal to the function of the same behaviour in `ConsumerConfig`,
    `ConsumerHandling`, `ConsumerLoops` and `ConsumerRun`. */
module Consumer {
  import opened JavaLang
  import opened Jms
  import opened Cli
  import opened ConsumerConfig
  import opened ConsumerHandling
  import opened ConsumerLoops
  import opened ConsumerRun

  /** The inputs worker `t` of a multi-threaded start is given: none beyond
      the ones listed. */
  function WorkerInputs(workers: seq<Inputs>, t: nat): Inputs
  {
    if t < |workers| then workers[t] else Inputs([], [], [])
  }

  class ConsumerTool {
    /** The option fields `acknowledgeMode` … `batchSize`, held as one record;
        `parseCommandLine` is the only code that writes them. */
    var options: Config

    /** A new tool holds the field initialisers' values. */
    constructor()
      ensures options == DEFAULTS
    {
      options := DEFAULTS;
    }

    /** `parseCommandLine`: a line with an unknown option is refused, -h
        shows the usage and an acknowledge mode no constant names is refused,
        each before any field changes; then the options are applied to the
        fields one after the other, and an integer option `parseInt` refuses
        throws with the fields before it already overwritten. A refused line
        or -h changes no field; a line that parses leaves exactly the
        configuration `ParseOptions` describes, and a refused integer option
        leaves exactly the options read before it applied (`AppliedBefore`). */
    method ParseCommandLine(line: CommandLine) returns (outcome: ParseOutcome<Config>)
      modifies this
      ensures outcome == ParseOptions(old(options), line)
      ensures outcome.Configured? ==> options == outcome.config
      ensures outcome.HelpShown? || outcome.UsageError? ==> options == old(options)
      ensures outcome.NumberFormatError? ==>
        (FirstBadLetter(line, NUMBER_LETTERS).Some? &&
         options == AppliedBefore(old(options), line, FirstBadLetter(line, NUMBER_LETTERS).value))
    {
      if !(line.Keys <= OPTION_LETTERS) {
        return UsageError("unrecognized option");
      }
      if 'h' in line {
        return HelpShown;
      }
      if 'a' in line && ParseAckMode(line['a']).None? {
        return UsageError("Invalid value for acknowledge mode: " + line['a']);
      }
      outcome, options := ApplyOptions(options, line);
    }

    /** The assignments of `parseCommandLine` once the option letters and
        the acknowledge mode have been accepted: the options are applied to
        the fields `o` one after the other, and an integer option
        `parseInt` refuses throws with the fields before it already
        overwritten; `fields` are the fields as the method leaves them. */
    static method ApplyOptions(o: Config, line: CommandLine) returns (outcome: ParseOutcome<Config>, fields: Config)
      requires line.Keys <= OPTION_LETTERS && 'h' !in line
      requires 'a' in line ==> ParseAckMode(line['a']).Some?
      ensures outcome == ParseOptions(o, line)
      ensures outcome.Configured? || outcome.NumberFormatError?
      ensures outcome.Configured? ==> fields == outcome.config
      ensures outcome.NumberFormatError? ==>
        (FirstBadLetter(line, NUMBER_LETTERS).Some? &&
         fields == AppliedBefore(o, line, FirstBadLetter(line, NUMBER_LETTERS).value))
    {
      FirstBadNumberOrder(line);
      OutcomeByFirstBadLetter(o, line);
      var ackMode := AckOption(line, o.acknowledgeMode);
      var browser := FlagOption(line, 'b', o.useQueueBrowser);
      var client := OptionalText(line, 'c', o.clientId);
      var durableSub := FlagOption(line, 'd', o.durable);
      if BadNumber(line, 'e') {
        fields := o.(acknowledgeMode := ackMode, useQueueBrowser := browser, clientId := client,
                      durable := durableSub);
        assert FirstBadLetter(line, NUMBER_LETTERS) == Some('e');
        AppliedBeforeE(o, line);
        return NumberFormatError(line['e']), fields;
      }
      var sleepMs := IntOption(line, 'e', o.perMessageSleepMs);
      var factory := TextOption(line, 'f', o.connectionFactoryName);
      if BadNumber(line, 'g') {
        fields := o.(acknowledgeMode := ackMode, useQueueBrowser := browser, clientId := client,
                      durable := durableSub, perMessageSleepMs := sleepMs, connectionFactoryName := factory);
        assert FirstBadLetter(line, NUMBER_LETTERS) == Some('g');
        AppliedBeforeG(o, line);
        return NumberFormatError(line['g']), fields;
      }
      var threads := IntOption(line, 'g', o.numThreads);
      var jndi := FlagOption(line, 'j', o.jndiLookupDestinations);
      var sel := OptionalText(line, 'k', o.selector);
      if BadNumber(line, 'm') {
        fields := o.(acknowledgeMode := ackMode, useQueueBrowser := browser, clientId := client,
                      durable := durableSub, perMessageSleepMs := sleepMs, connectionFactoryName := factory,
                      numThreads := threads, jndiLookupDestinations := jndi, selector := sel);
        assert FirstBadLetter(line, NUMBER_LETTERS) == Some('m');
        AppliedBeforeM(o, line);
        return NumberFormatError(line['m']), fields;
      }
      var messages := IntOption(line, 'm', o.numMessages);
      var destination := TextOption(line, 'n', o.destinationName);
      var temporary := FlagOption(line, 'p', o.useTemporaryDestinations);
      var queue := FlagOption(line, 'q', o.useQueueDestinations);
      if BadNumber(line, 'r') {
        fields := o.(acknowledgeMode := ackMode, useQueueBrowser := browser, clientId := client,
                      durable := durableSub, perMessageSleepMs := sleepMs, connectionFactoryName := factory,
                      numThreads := threads, jndiLookupDestinations := jndi, selector := sel,
                      numMessages := messages, destinationName := destination,
                      useTemporaryDestinations := temporary, useQueueDestinations := queue);
        assert FirstBadLetter(line, NUMBER_LETTERS) == Some('r');
        AppliedBeforeR(o, line);
        return NumberFormatError(line['r']), fields;
      }
      var timeoutMs := IntOption(line, 'r', o.receiveTimeoutMs);
      var subscription := TextOption(line, 's', o.subscriptionName);
      var transactedSession := FlagOption(line, 't', o.transacted);
      var listener := FlagOption(line, 'y', o.useAsyncListener);
      if BadNumber(line, 'z') {
        fields := o.(acknowledgeMode := ackMode, useQueueBrowser := browser, clientId := client,
                      durable := durableSub, perMessageSleepMs := sleepMs, connectionFactoryName := factory,
                      numThreads := threads, jndiLookupDestinations := jndi, selector := sel,
                      numMessages := messages, destinationName := destination,
                      useTemporaryDestinations := temporary, useQueueDestinations := queue,
                      receiveTimeoutMs := timeoutMs, subscriptionName := subscription,
                      transacted := transactedSession, useAsyncListener := listener);
        assert FirstBadLetter(line, NUMBER_LETTERS) == Some('z');
        AppliedBeforeZ(o, line);
        return NumberFormatError(line['z']), fields;
      }
      var batch := IntOption(line, 'z', o.batchSize);
      fields := Config(ackMode, browser, client, durableSub, sleepMs, factory, threads, jndi, sel, messages,
                        destination, temporary, queue, timeoutMs, subscription, transactedSession, listener, batch);
      outcome := Configured(fields);
    }

    /** `handleMessage`: pace, then acknowledge and commit on a batch
        boundary. With a batch size of zero the boundary test throws an
        ArithmeticException, which `handleMessage` does not catch. */
    method HandleMessage(m: Message, count: int) returns (effects: seq<Event>, failure: Option<Failure>)
      ensures effects == HandleEffects(options, count, m)
      ensures failure.Some? <==> DividesByZero(options)
      ensures failure.Some? ==> failure.value == Arithmetic
    {
      effects := [Handled(count, m)];
      failure := None;
      if options.perMessageSleepMs > 0 {
        effects := effects + [Paced(options.perMessageSleepMs)];
      }
      if options.acknowledgeMode == ClientAcknowledge {
        if options.batchSize == 0 {
          failure := Some(Arithmetic);
          return;
        }
        if Rem(count, options.batchSize) == 0 {
          effects := effects + [Acknowledged(count)];
        }
      }
      if options.transacted {
        if options.batchSize == 0 {
          failure := Some(Arithmetic);
          return;
        }
        if Rem(count, options.batchSize) == 0 {
          effects := effects + [Committed];
        }
      }
    }

    /** One turn of the polling loop: receive, timed or not as the receive
        timeout says, and handle what arrived unless it is null. */
    method ReceiveAndHandle(r: Option<Message>, count: int) returns (step: seq<Event>, failure: Option<Failure>)
      ensures step == PollStep(options, r, count)
      ensures failure.Some? <==> r.Some? && DividesByZero(options)
      ensures failure.Some? ==> failure.value == Arithmetic
    {
      var form: ReceiveForm;
      if options.receiveTimeoutMs > -1 {
        form := Timed(options.receiveTimeoutMs);
      } else {
        form := Untimed;
      }
      step := [Received(form, r)];
      failure := None;
      if r.Some? {
        var effects;
        effects, failure := HandleMessage(r.value, count + 1);
        step := step + effects;
      }
    }

    /** The polling loop over the results `rs` the provider's `receive` calls
        return. */
    method PollLoop(rs: seq<Option<Message>>) returns (o: LoopOutcome)
      ensures o == Poll(options, rs, 0)
    {
      var c := options;
      var events: seq<Event> := [];
      var count := 0;
      var i := 0;
      assert rs[0..] == rs;
      while count < options.numMessages
        invariant 0 <= i <= |rs|
        invariant Then(events, i, Poll(c, rs[i..], count)) == Poll(c, rs, 0)
        decreases |rs| - i
      {
        if i == |rs| {
          assert rs[i..] == [];
          return LoopOutcome(events, count, i, Starved);
        }
        PollUnfold(c, rs, i, count);
        var r := rs[i];
        var step, failure := ReceiveAndHandle(r, count);
        if failure.Some? {
          return LoopOutcome(events + step, count + 1, i + 1, Aborted(failure.value));
        }
        ThenThen(events, i, step, 1, Poll(c, rs[i + 1..], NextCount(r, count)));
        events := events + step;
        count := NextCount(r, count);
        i := i + 1;
      }
      o := LoopOutcome(events, count, i, Finished);
    }

    /** The inner loop of the browser: walk one enumeration. */
    method WalkEnumeration(p: Enumeration, count0: int) returns (w: LoopOutcome)
      ensures w == Walk(options, p, count0)
    {
      var c := options;
      if p.None? {
        return LoopOutcome([], count0, 0, Finished);
      }
      var elems := p.value;
      var events: seq<Event> := [];
      var count := count0;
      var j := 0;
      assert elems[0..] == elems;
      while j < |elems|
        invariant 0 <= j <= |elems|
        invariant Then(events, 0, Walk(c, Some(elems[j..]), count)) == Walk(c, p, count0)
      {
        if elems[j].Some? {
          var effects, failure := HandleMessage(elems[j].value, count + 1);
          if failure.Some? {
            WalkAbort(c, elems, j, count);
            return LoopOutcome(events + effects, count + 1, 0, Aborted(failure.value));
          }
          WalkHandle(c, elems, j, count);
          ThenThen(events, 0, effects, 0, Walk(c, Some(elems[j + 1..]), count + 1));
          events := events + effects;
          count := count + 1;
        } else {
          WalkSkip(c, elems, j, count);
        }
        j := j + 1;
      }
      assert elems[j..] == [];
      w := LoopOutcome(events, count, 0, Finished);
    }

    /** The browser loop over the enumerations the provider's
        `getEnumeration` calls return. */
    method BrowseLoop(ps: seq<Enumeration>) returns (o: LoopOutcome)
      ensures o == Browse(options, ps)
    {
      var c := options;
      if ps == [] {
        return LoopOutcome([], 0, 0, Starved);
      }
      var events: seq<Event> := [Enumerated];
      var k := 0;
      var count := 0;
      assert ps[0..] == ps;
      while count < options.numMessages
        invariant 0 <= k < |ps|
        invariant Then(events, k + 1, BrowseFrom(c, ps[k..], count)) == Browse(c, ps)
        decreases |ps| - k
      {
        BrowseFromUnfold(c, ps, k, count);
        var w := WalkEnumeration(ps[k], count);
        if w.exit.Aborted? {
          return LoopOutcome(events + w.events, w.count, k + 1, w.exit);
        }
        if options.receiveTimeoutMs < 0 {
          return LoopOutcome(events + w.events, w.count, k + 1, Aborted(IllegalArgument));
        }
        var pass := w.events + [Waited(options.receiveTimeoutMs)];
        if k + 1 == |ps| {
          assert pass == Pass(c, ps[k], count, false);
          return LoopOutcome(events + pass, w.count, k + 1, Starved);
        }
        pass := pass + [Enumerated];
        assert pass == Pass(c, ps[k], count, true);
        ThenThen(events, k + 1, pass, 1, BrowseFrom(c, ps[k + 1..], w.count));
        events := events + pass;
        count := w.count;
        k := k + 1;
      }
      o := LoopOutcome(events, count, k + 1, Finished);
    }

    /** The listener's `onMessage`, once the shared counter has reached
        `count`: handle the message; an exception from the batch test
        propagates to the client. */
    method OnMessage(m: Message, count: int) returns (step: seq<Event>)
      ensures step == ConsumerLoops.OnMessage(options, count, m)
    {
      var failure;
      step, failure := HandleMessage(m, count);
      if failure.Some? {
        step := step + [Raised(failure.value)];
      } else {
        assert step + [] == step;
      }
    }

    /** One event of the listener strategy that does not end it: the
        waiting thread's sleep after a test that found the counter short, or
        the listener's handling of a delivery. */
    method ListenTurn(t: Tick, count: int) returns (step: seq<Event>)
      ensures step == ListenStep(options, t, count)
    {
      if t.Check? {
        step := [Waited(LISTENER_WAIT_MS)];
      } else {
        step := OnMessage(t.message, count + 1);
      }
    }

    /** The listener and the wait loop, over one interleaving of deliveries
        and counter tests. */
    method ListenLoop(ts: seq<Tick>) returns (o: LoopOutcome)
      ensures o == Listen(options, ts, 0)
    {
      var c := options;
      var received := 0;
      var events: seq<Event> := [];
      var i := 0;
      assert ts[0..] == ts;
      while i < |ts|
        invariant 0 <= i <= |ts|
        invariant Then(events, i, Listen(c, ts[i..], received)) == Listen(c, ts, 0)
        decreases |ts| - i
      {
        ListenUnfold(c, ts, i, received);
        var t := ts[i];
        if t.Check? && received >= options.numMessages {
          return LoopOutcome(events, received, i + 1, Finished);
        }
        var step := ListenTurn(t, received);
        ThenThen(events, i, step, 1, Listen(c, ts[i + 1..], NextListenCount(t, received)));
        events := events + step;
        received := NextListenCount(t, received);
        i := i + 1;
      }
      assert ts[i..] == [];
      o := LoopOutcome(events, received, i, Starved);
    }

    /** `run`: one whole run of the tool. */
    method Run(inputs: Inputs) returns (r: RunOutcome)
      ensures r == ConsumerRun.Run(options, inputs)
    {
      var c := options;
      var events: seq<Event> := [ConnectionCreated];
      if options.clientId.Some? {
        events := events + [ClientIdSet(options.clientId.value)];
      }
      events := events + [ConnectionStarted, SessionCreated(options.transacted, options.acknowledgeMode)];
      var destination := ChooseDestination(options.jndiLookupDestinations, options.useQueueDestinations,
                                           options.useTemporaryDestinations, options.destinationName);
      var kind := ChooseConsumer(c);
      events := events + [DestinationResolved(destination), ConsumerCreated(kind)];
      assert events == Setup(c);
      var consumerExists := !kind.Browser?;
      var loop: LoopOutcome;
      if options.useAsyncListener {
        if !consumerExists {
          return RunOutcome(events + [Raised(NullPointer)] + TEARDOWN, Aborted(NullPointer));
        }
        var listened := ListenLoop(inputs.ticks);
        loop := Then([ListenerRegistered], 0, listened);
      } else if options.useQueueBrowser {
        if consumerExists {
          return RunOutcome(events + [Raised(NullPointer)] + TEARDOWN, Aborted(NullPointer));
        }
        loop := BrowseLoop(inputs.enumerations);
      } else {
        loop := PollLoop(inputs.receives);
      }
      assert loop == Obtain(c, inputs);
      events := events + loop.events;
      match loop.exit
      case Starved =>
        r := RunOutcome(events, Starved);
      case Aborted(f) =>
        r := RunOutcome(events + [Raised(f)] + TEARDOWN, loop.exit);
      case Finished =>
        if consumerExists {
          r := RunOutcome(events + [ConsumerClosed] + TEARDOWN, Finished);
        } else {
          r := RunOutcome(events + [Raised(NullPointer)] + TEARDOWN, Aborted(NullPointer));
        }
    }

    /** `main`: parse the command line, then run the tool once, or once on
        each of `numThreads` pool threads; `workers[t]` is what the provider
        gives run `t`. */
    method Start(line: CommandLine, workers: seq<Inputs>) returns (status: Option<int>, runs: seq<RunOutcome>)
      modifies this
      ensures status == ExitStatus(ParseOptions(old(options), line))
      ensures status.Some? ==> runs == []
      ensures status.None? ==> options == ParseOptions(old(options), line).config
      ensures status.None? ==> |runs| == WorkerCount(options.numThreads)
      ensures forall t :: 0 <= t < |runs| ==> runs[t] == ConsumerRun.Run(options, WorkerInputs(workers, t))
    {
      var outcome := ParseCommandLine(line);
      status := ExitStatus(outcome);
      runs := [];
      if status.Some? {
        return;
      }
      runs := RunWorkers(workers);
    }

    /** The runs `main` starts once the options are set: one, or one on each
        of `numThreads` pool threads, run `t` given the inputs `workers[t]`. */
    method RunWorkers(workers: seq<Inputs>) returns (runs: seq<RunOutcome>)
      ensures |runs| == WorkerCount(options.numThreads)
      ensures forall t :: 0 <= t < |runs| ==> runs[t] == ConsumerRun.Run(options, WorkerInputs(workers, t))
    {
      runs := [];
      var n := WorkerCount(options.numThreads);
      var t := 0;
      while t < n
        invariant 0 <= t <= n && |runs| == t
        invariant forall u :: 0 <= u < t ==> runs[u] == ConsumerRun.Run(options, WorkerInputs(workers, u))
      {
        var r := Run(WorkerInputs(workers, t));
        runs := runs + [r];
        t := t + 1;
      }
    }
  }
}
