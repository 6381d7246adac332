/** The producer tool as the object `main` creates: its option fields, which
    `parseCommandLine` overwrites, and `run`, split into the methods that
    build one message, run one turn of the send loop, the whole loop and the
    control message. Each method is proved equal to the function of the same
    behaviour in `ProducerConfig`, `ProducerSend` and `ProducerRun`, whose
    properties are proved there. */
module Producer {
  import opened JavaLang
  import opened Jms
  import opened Cli
  import opened ProducerConfig
  import opened ProducerSend
  import opened ProducerRun

  class ProducerTool {
    /** The option fields `acknowledgeMode` … `batchSize`, held as one record;
        `parseCommandLine` is the only code that writes them. */
    var options: Config

    /** A new tool holds the field initialisers' values. */
    constructor()
      ensures options == DEFAULTS
    {
      options := DEFAULTS;
    }

    /** `parseCommandLine`: a line with an unknown option is refused, -h
        shows the usage and an acknowledge mode no constant names is refused,
        each before any field changes; then the options are applied to the
        fields one after the other, and an integer option `parseInt` refuses
        throws with the fields before it already overwritten. A refused line
        or -h changes no field; a line that parses leaves exactly the
        configuration `ParseOptions` describes, and a refused integer option
        leaves exactly the options read before it applied (`AppliedBefore`). */
    method ParseCommandLine(line: CommandLine) returns (outcome: ParseOutcome<Config>)
      modifies this
      ensures outcome == ParseOptions(old(options), line)
      ensures outcome.Configured? ==> options == outcome.config
      ensures outcome.HelpShown? || outcome.UsageError? ==> options == old(options)
      ensures outcome.NumberFormatError? ==>
        (FirstBadLetter(line, NUMBER_LETTERS).Some? &&
         options == AppliedBefore(old(options), line, FirstBadLetter(line, NUMBER_LETTERS).value))
    {
      if !(line.Keys <= OPTION_LETTERS) {
        return UsageError("unrecognized option");
      }
      if 'h' in line {
        return HelpShown;
      }
      if 'a' in line && ParseAckMode(line['a']).None? {
        return UsageError("Invalid value for acknowledge mode: " + line['a']);
      }
      outcome, options := ApplyOptions(options, line);
    }

    /** The assignments of `parseCommandLine` once the option letters and
        the acknowledge mode have been accepted: the options are applied to
        the fields `o` one after the other, and an integer option
        `parseInt` refuses throws with the fields before it already
        overwritten; `fields` are the fields as the method leaves them. */
    static method ApplyOptions(o: Config, line: CommandLine) returns (outcome: ParseOutcome<Config>, fields: Config)
      requires line.Keys <= OPTION_LETTERS && 'h' !in line
      requires 'a' in line ==> ParseAckMode(line['a']).Some?
      ensures outcome == ParseOptions(o, line)
      ensures outcome.Configured? || outcome.NumberFormatError?
      ensures outcome.Configured? ==> fields == outcome.config
      ensures outcome.NumberFormatError? ==>
        (FirstBadLetter(line, NUMBER_LETTERS).Some? &&
         fields == AppliedBefore(o, line, FirstBadLetter(line, NUMBER_LETTERS).value))
    {
      FirstBadNumberOrder(line);
      OutcomeByFirstBadLetter(o, line);
      var ackMode := AckOption(line, o.acknowledgeMode);
      var client := OptionalText(line, 'c', o.clientId);
      var durableDelivery := FlagOption(line, 'd', o.durable);
      if BadNumber(line, 'e') {
        fields := o.(acknowledgeMode := ackMode, clientId := client, durable := durableDelivery);
        assert FirstBadLetter(line, NUMBER_LETTERS) == Some('e');
        AppliedBeforeE(o, line);
        return NumberFormatError(line['e']), fields;
      }
      var sleepMs := IntOption(line, 'e', o.perMessageSleepMs);
      var factory := TextOption(line, 'f', o.connectionFactoryName);
      if BadNumber(line, 'g') {
        fields := o.(acknowledgeMode := ackMode, clientId := client, durable := durableDelivery,
                      perMessageSleepMs := sleepMs, connectionFactoryName := factory);
        assert FirstBadLetter(line, NUMBER_LETTERS) == Some('g');
        AppliedBeforeG(o, line);
        return NumberFormatError(line['g']), fields;
      }
      var threads := IntOption(line, 'g', o.numThreads);
      var jndi := FlagOption(line, 'j', o.jndiLookupDestinations);
      if BadNumber(line, 'l') {
        fields := o.(acknowledgeMode := ackMode, clientId := client, durable := durableDelivery,
                      perMessageSleepMs := sleepMs, connectionFactoryName := factory,
                      numThreads := threads, jndiLookupDestinations := jndi);
        assert FirstBadLetter(line, NUMBER_LETTERS) == Some('l');
        AppliedBeforeL(o, line);
        return NumberFormatError(line['l']), fields;
      }
      var length := IntOption(line, 'l', o.bytesLength);
      if BadNumber(line, 'm') {
        fields := o.(acknowledgeMode := ackMode, clientId := client, durable := durableDelivery,
                      perMessageSleepMs := sleepMs, connectionFactoryName := factory,
                      numThreads := threads, jndiLookupDestinations := jndi, bytesLength := length);
        assert FirstBadLetter(line, NUMBER_LETTERS) == Some('m');
        AppliedBeforeM(o, line);
        return NumberFormatError(line['m']), fields;
      }
      var messages := IntOption(line, 'm', o.numMessages);
      var destination := TextOption(line, 'n', o.destinationName);
      var control := FlagOption(line, 'o', o.useFinalControlMessage);
      var temporary := FlagOption(line, 'p', o.useTemporaryDestinations);
      var queue := FlagOption(line, 'q', o.useQueueDestinations);
      var transactedSession := FlagOption(line, 't', o.transacted);
      var group := OptionalText(line, 'x', o.messageGroupId);
      if BadNumber(line, 'z') {
        fields := o.(acknowledgeMode := ackMode, clientId := client, durable := durableDelivery,
                      perMessageSleepMs := sleepMs, connectionFactoryName := factory,
                      numThreads := threads, jndiLookupDestinations := jndi, bytesLength := length,
                      numMessages := messages, destinationName := destination,
                      useFinalControlMessage := control, useTemporaryDestinations := temporary,
                      useQueueDestinations := queue, transacted := transactedSession,
                      messageGroupId := group);
        assert FirstBadLetter(line, NUMBER_LETTERS) == Some('z');
        AppliedBeforeZ(o, line);
        return NumberFormatError(line['z']), fields;
      }
      var batch := IntOption(line, 'z', o.batchSize);
      fields := Config(ackMode, client, durableDelivery, sleepMs, factory, threads, jndi, length, messages,
                        destination, control, temporary, queue, transactedSession, group, batch);
      outcome := Configured(fields);
    }

    /** The message of loop turn `i`, its text stamped with `date`: the
        text's UTF-8 bytes written to a bytes message, then a zeroed array
        as long as the shortfall when the text is shorter than the bytes
        length; or a text message carrying the message group when one is set. */
    method CreateMessage(i: int, date: string) returns (m: Message)
      ensures m == MessageFor(options, i, date)
    {
      var text := "Message " + Show(i) + " at " + date;
      if options.bytesLength > -1 {
        var bytes := Utf8(text);
        var body := bytes;
        if |bytes| < options.bytesLength {
          body := body + Zeros(options.bytesLength - |bytes|);
        }
        m := BytesMessage(body, map[]);
      } else {
        var properties: Properties := map[];
        if options.messageGroupId.Some? {
          properties := properties[GROUP_ID_PROPERTY := options.messageGroupId.value];
        }
        m := TextMessage(text, properties);
      }
    }

    /** One turn of the send loop: send message `i`, sleep, and, in a
        transacted session, commit when `i + 1` is on a batch boundary. With
        a batch size of zero the boundary test throws ArithmeticException
        after the send and the sleep. */
    method SendTurn(i: int, date: string) returns (step: seq<Event>, failure: Option<Failure>)
      ensures failure.Some? <==> CommitDividesByZero(options)
      ensures failure.Some? ==> failure.value == Arithmetic && step == [Sent(MessageFor(options, i, date))] + Pacing(options.perMessageSleepMs)
      ensures failure.None? ==> step == SendStep(options, i, date)
    {
      var m := CreateMessage(i, date);
      step := [Sent(m)];
      failure := None;
      if options.perMessageSleepMs > 0 {
        step := step + [Paced(options.perMessageSleepMs)];
      }
      assert step == [Sent(m)] + Pacing(options.perMessageSleepMs);
      if options.transacted {
        if options.batchSize == 0 {
          failure := Some(Arithmetic);
          return;
        }
        if Rem(i + 1, options.batchSize) == 0 {
          step := step + [Committed];
        }
      }
    }

    /** The send loop of worker `w`: `numMessages` turns, one fewer when the
        control message is on, the subtraction wrapping as an `int` does. */
    method SendAll(clock: Clock, w: nat) returns (o: Outcome)
      ensures o == SendLoop(options, clock, w)
    {
      var c := options;
      var toSend := if options.useFinalControlMessage then Wrap32(options.numMessages - 1) else options.numMessages;
      assert toSend == MessagesToSend(c);
      var events: seq<Event> := [];
      var i := 0;
      while i < toSend
        invariant 0 <= i && (if toSend > 0 then i <= toSend else i == 0)
        invariant !CommitDividesByZero(c) ==> events == Sends(c, clock, w, i)
        invariant CommitDividesByZero(c) ==> i == 0 && events == []
        decreases toSend - i
      {
        var step, failure := SendTurn(i, clock(w, i));
        if failure.Some? {
          assert events + step == step;
          return Outcome(events + step, failure);
        }
        SendsUnfold(c, clock, w, i);
        events := events + step;
        i := i + 1;
      }
      o := Outcome(events, None);
    }

    /** After the loop: when the control message is on, send an empty
        message carrying the message group, and commit in a transacted
        session whatever the batch size. */
    method SendControl() returns (step: seq<Event>)
      ensures step == ControlStep(options)
    {
      step := [];
      if options.useFinalControlMessage {
        var properties: Properties := map[];
        if options.messageGroupId.Some? {
          properties := properties[GROUP_ID_PROPERTY := options.messageGroupId.value];
        }
        step := [Sent(ControlMessage(properties))];
        if options.transacted {
          step := step + [Committed];
        }
      }
    }

    /** `run` on worker `w`: connect, set the client id when one is given,
        create the session, resolve the destination, create the producer and
        set its delivery mode; then the loop, the control message and the
        producer's close. An exception from the loop is logged and skips the
        rest; the session and the connection are closed either way. */
    method Run(clock: Clock, w: nat) returns (r: Outcome)
      ensures r == ProducerRun.Run(options, clock, w)
    {
      var events: seq<Event> := [ConnectionCreated];
      if options.clientId.Some? {
        events := events + [ClientIdSet(options.clientId.value)];
      }
      events := events + [SessionCreated(options.transacted, options.acknowledgeMode)];
      var destination := ChooseDestination(options.jndiLookupDestinations, options.useQueueDestinations,
                                           options.useTemporaryDestinations, options.destinationName);
      events := events + [DestinationResolved(destination), ProducerCreated];
      if options.durable {
        events := events + [DeliveryModeSet(Persistent)];
      } else {
        events := events + [DeliveryModeSet(NonPersistent)];
      }
      assert events == Setup(options);
      var loop := SendAll(clock, w);
      if loop.failure.Some? {
        return Outcome(events + loop.events + [Raised(loop.failure.value)] + TEARDOWN, loop.failure);
      }
      var control := SendControl();
      r := Outcome(events + loop.events + control + [ProducerClosed] + TEARDOWN, None);
    }

    /** `main`: parse the command line, then run the tool once, or once on
        each of `numThreads` pool threads, run `t` as worker `t`. */
    method Start(line: CommandLine, clock: Clock) returns (status: Option<int>, runs: seq<Outcome>)
      modifies this
      ensures status == ExitStatus(ParseOptions(old(options), line))
      ensures status.Some? ==> runs == []
      ensures status.None? ==> options == ParseOptions(old(options), line).config
      ensures status.None? ==> |runs| == WorkerCount(options.numThreads)
      ensures forall t :: 0 <= t < |runs| ==> runs[t] == ProducerRun.Run(options, clock, t)
    {
      var outcome := ParseCommandLine(line);
      status := ExitStatus(outcome);
      runs := [];
      if status.Some? {
        return;
      }
      runs := RunWorkers(clock);
    }

    /** The runs `main` starts once the options are set: one, or one on each
        of `numThreads` pool threads, run `t` as worker `t`. */
    method RunWorkers(clock: Clock) returns (runs: seq<Outcome>)
      ensures |runs| == WorkerCount(options.numThreads)
      ensures forall t :: 0 <= t < |runs| ==> runs[t] == ProducerRun.Run(options, clock, t)
    {
      runs := [];
      var n := WorkerCount(options.numThreads);
      var t := 0;
      while t < n
        invariant 0 <= t <= n && |runs| == t
        invariant forall u :: 0 <= u < t ==> runs[u] == ProducerRun.Run(options, clock, u)
      {
        var r := Run(clock, t);
        runs := runs + [r];
        t := t + 1;
      }
    }
  }
}
