/** The producer tool's configuration: its defaults, what the command line does
    to them, and the decision tables that turn it into a destination, a
    delivery mode, a number of messages and the shape of each message. */
module ProducerConfig {
  import opened JavaLang
  import opened Jms
  import opened Cli

  datatype Config = Config(
    acknowledgeMode: AckMode,          // -a
    clientId: Option<string>,          // -c
    durable: bool,                     // -d
    perMessageSleepMs: Int32,          // -e
    connectionFactoryName: string,     // -f
    numThreads: Int32,                 // -g
    jndiLookupDestinations: bool,      // -j
    bytesLength: Int32,                // -l
    numMessages: Int32,                // -m
    destinationName: string,           // -n
    useFinalControlMessage: bool,      // -o
    useTemporaryDestinations: bool,    // -p
    useQueueDestinations: bool,        // -q
    transacted: bool,                  // -t
    messageGroupId: Option<string>,    // -x
    batchSize: Int32)                  // -z

  const DEFAULTS: Config := Config(
    AutoAcknowledge, None, false, 0, "connectionFactory", 1, false, -1, 1,
    "DESTINATION.123", false, false, true, false, None, 1)

  const OPTION_LETTERS: set<char> :=
    {'a', 'c', 'd', 'e', 'f', 'g', 'h', 'j', 'l', 'm', 'n', 'o', 'p', 'q', 't', 'x', 'z'}

  /** The integer options, in the order they are read. */
  const NUMBER_LETTERS: seq<char> := ['e', 'g', 'l', 'm', 'z']

  /** What `parseCommandLine` makes of `line`, starting from the fields `base`:
      an option the parser does not know is a usage error; -h shows help; an
      acknowledge mode outside the four names is a usage error; an integer
      option that is not a number escapes as NumberFormatException; otherwise
      each option present overrides its field and the flags switch theirs on. */
  function ParseOptions(base: Config, line: CommandLine): (r: ParseOutcome<Config>)
  {
    if !(line.Keys <= OPTION_LETTERS) then UsageError("unrecognized option")
    else if 'h' in line then HelpShown
    else if 'a' in line && ParseAckMode(line['a']).None? then
      UsageError("Invalid value for acknowledge mode: " + line['a'])
    else if FirstBadNumber(line, NUMBER_LETTERS).Some? then
      NumberFormatError(FirstBadNumber(line, NUMBER_LETTERS).value)
    else Configured(Applied(base, line))
  }

  /** The fields once every option of `line` has been applied to `base`. */
  function Applied(base: Config, line: CommandLine): Config
  {
    Config(
      acknowledgeMode := AckOption(line, base.acknowledgeMode),
      clientId := OptionalText(line, 'c', base.clientId),
      durable := FlagOption(line, 'd', base.durable),
      perMessageSleepMs := IntOption(line, 'e', base.perMessageSleepMs),
      connectionFactoryName := TextOption(line, 'f', base.connectionFactoryName),
      numThreads := IntOption(line, 'g', base.numThreads),
      jndiLookupDestinations := FlagOption(line, 'j', base.jndiLookupDestinations),
      bytesLength := IntOption(line, 'l', base.bytesLength),
      numMessages := IntOption(line, 'm', base.numMessages),
      destinationName := TextOption(line, 'n', base.destinationName),
      useFinalControlMessage := FlagOption(line, 'o', base.useFinalControlMessage),
      useTemporaryDestinations := FlagOption(line, 'p', base.useTemporaryDestinations),
      useQueueDestinations := FlagOption(line, 'q', base.useQueueDestinations),
      transacted := FlagOption(line, 't', base.transacted),
      messageGroupId := OptionalText(line, 'x', base.messageGroupId),
      batchSize := IntOption(line, 'z', base.batchSize))
  }

  /** The integer options are tried in the order e, g, l, m, z. */
  lemma FirstBadNumberOrder(line: CommandLine)
    ensures FirstBadLetter(line, NUMBER_LETTERS) ==
      if BadNumber(line, 'e') then Some('e')
      else if BadNumber(line, 'g') then Some('g')
      else if BadNumber(line, 'l') then Some('l')
      else if BadNumber(line, 'm') then Some('m')
      else if BadNumber(line, 'z') then Some('z')
      else None
    ensures FirstBadNumber(line, NUMBER_LETTERS) ==
      if BadNumber(line, 'e') then Some(line['e'])
      else if BadNumber(line, 'g') then Some(line['g'])
      else if BadNumber(line, 'l') then Some(line['l'])
      else if BadNumber(line, 'm') then Some(line['m'])
      else if BadNumber(line, 'z') then Some(line['z'])
      else None
  {
    assert FirstBadLetter(line, ['z']) == if BadNumber(line, 'z') then Some('z') else FirstBadLetter(line, ['z'][1..]);
    assert ['z'][1..] == [];
    assert FirstBadLetter(line, ['m', 'z']) == if BadNumber(line, 'm') then Some('m') else FirstBadLetter(line, ['m', 'z'][1..]);
    assert ['m', 'z'][1..] == ['z'];
    assert FirstBadLetter(line, ['l', 'm', 'z']) == if BadNumber(line, 'l') then Some('l') else FirstBadLetter(line, ['l', 'm', 'z'][1..]);
    assert ['l', 'm', 'z'][1..] == ['m', 'z'];
    assert FirstBadLetter(line, ['g', 'l', 'm', 'z']) == if BadNumber(line, 'g') then Some('g') else FirstBadLetter(line, ['g', 'l', 'm', 'z'][1..]);
    assert ['g', 'l', 'm', 'z'][1..] == ['l', 'm', 'z'];
    assert FirstBadLetter(line, NUMBER_LETTERS)
      == if BadNumber(line, 'e') then Some('e') else FirstBadLetter(line, NUMBER_LETTERS[1..]);
    assert NUMBER_LETTERS[1..] == ['g', 'l', 'm', 'z'];
  }

  /** Once the letters and the acknowledge mode are accepted, the outcome
      is decided by the first integer option `parseInt` refuses. */
  lemma OutcomeByFirstBadLetter(base: Config, line: CommandLine)
    requires line.Keys <= OPTION_LETTERS && 'h' !in line
    requires 'a' in line ==> ParseAckMode(line['a']).Some?
    ensures ParseOptions(base, line) ==
      match FirstBadLetter(line, NUMBER_LETTERS)
      case Some(bad) => NumberFormatError(line[bad])
      case None => Configured(Applied(base, line))
  {
  }

  /** The fields `parseCommandLine` leaves behind when integer option `bad`
      throws: the options read before it, which are those with a letter
      earlier in the alphabet, are applied to `base`; the others are not. */
  function AppliedBefore(base: Config, line: CommandLine, bad: char): Config
  {
    Config(
      acknowledgeMode := if 'a' < bad then AckOption(line, base.acknowledgeMode) else base.acknowledgeMode,
      clientId := if 'c' < bad then OptionalText(line, 'c', base.clientId) else base.clientId,
      durable := if 'd' < bad then FlagOption(line, 'd', base.durable) else base.durable,
      perMessageSleepMs := if 'e' < bad then IntOption(line, 'e', base.perMessageSleepMs) else base.perMessageSleepMs,
      connectionFactoryName := if 'f' < bad then TextOption(line, 'f', base.connectionFactoryName) else base.connectionFactoryName,
      numThreads := if 'g' < bad then IntOption(line, 'g', base.numThreads) else base.numThreads,
      jndiLookupDestinations := if 'j' < bad then FlagOption(line, 'j', base.jndiLookupDestinations) else base.jndiLookupDestinations,
      bytesLength := if 'l' < bad then IntOption(line, 'l', base.bytesLength) else base.bytesLength,
      numMessages := if 'm' < bad then IntOption(line, 'm', base.numMessages) else base.numMessages,
      destinationName := if 'n' < bad then TextOption(line, 'n', base.destinationName) else base.destinationName,
      useFinalControlMessage := if 'o' < bad then FlagOption(line, 'o', base.useFinalControlMessage) else base.useFinalControlMessage,
      useTemporaryDestinations := if 'p' < bad then FlagOption(line, 'p', base.useTemporaryDestinations) else base.useTemporaryDestinations,
      useQueueDestinations := if 'q' < bad then FlagOption(line, 'q', base.useQueueDestinations) else base.useQueueDestinations,
      transacted := if 't' < bad then FlagOption(line, 't', base.transacted) else base.transacted,
      messageGroupId := if 'x' < bad then OptionalText(line, 'x', base.messageGroupId) else base.messageGroupId,
      batchSize := if 'z' < bad then IntOption(line, 'z', base.batchSize) else base.batchSize)
  }

  /** The fields left behind when `-e` is the first integer option
      `parseInt` refuses. */
  lemma AppliedBeforeE(base: Config, line: CommandLine)
    ensures AppliedBefore(base, line, 'e') ==
      base.(acknowledgeMode := AckOption(line, base.acknowledgeMode),
        clientId := OptionalText(line, 'c', base.clientId), durable := FlagOption(line, 'd', base.durable))
  {
  }

  /** The fields left behind when `-g` is the first integer option
      `parseInt` refuses. */
  lemma AppliedBeforeG(base: Config, line: CommandLine)
    ensures AppliedBefore(base, line, 'g') ==
      base.(acknowledgeMode := AckOption(line, base.acknowledgeMode),
        clientId := OptionalText(line, 'c', base.clientId), durable := FlagOption(line, 'd', base.durable),
        perMessageSleepMs := IntOption(line, 'e', base.perMessageSleepMs),
        connectionFactoryName := TextOption(line, 'f', base.connectionFactoryName))
  {
  }

  /** The fields left behind when `-l` is the first integer option
      `parseInt` refuses. */
  lemma AppliedBeforeL(base: Config, line: CommandLine)
    ensures AppliedBefore(base, line, 'l') ==
      base.(acknowledgeMode := AckOption(line, base.acknowledgeMode),
        clientId := OptionalText(line, 'c', base.clientId), durable := FlagOption(line, 'd', base.durable),
        perMessageSleepMs := IntOption(line, 'e', base.perMessageSleepMs),
        connectionFactoryName := TextOption(line, 'f', base.connectionFactoryName),
        numThreads := IntOption(line, 'g', base.numThreads),
        jndiLookupDestinations := FlagOption(line, 'j', base.jndiLookupDestinations))
  {
  }

  /** The fields left behind when `-m` is the first integer option
      `parseInt` refuses. */
  lemma AppliedBeforeM(base: Config, line: CommandLine)
    ensures AppliedBefore(base, line, 'm') ==
      base.(acknowledgeMode := AckOption(line, base.acknowledgeMode),
        clientId := OptionalText(line, 'c', base.clientId), durable := FlagOption(line, 'd', base.durable),
        perMessageSleepMs := IntOption(line, 'e', base.perMessageSleepMs),
        connectionFactoryName := TextOption(line, 'f', base.connectionFactoryName),
        numThreads := IntOption(line, 'g', base.numThreads),
        jndiLookupDestinations := FlagOption(line, 'j', base.jndiLookupDestinations),
        bytesLength := IntOption(line, 'l', base.bytesLength))
  {
  }

  /** The fields left behind when `-z` is the first integer option
      `parseInt` refuses. */
  lemma AppliedBeforeZ(base: Config, line: CommandLine)
    ensures AppliedBefore(base, line, 'z') ==
      base.(acknowledgeMode := AckOption(line, base.acknowledgeMode),
        clientId := OptionalText(line, 'c', base.clientId), durable := FlagOption(line, 'd', base.durable),
        perMessageSleepMs := IntOption(line, 'e', base.perMessageSleepMs),
        connectionFactoryName := TextOption(line, 'f', base.connectionFactoryName),
        numThreads := IntOption(line, 'g', base.numThreads),
        jndiLookupDestinations := FlagOption(line, 'j', base.jndiLookupDestinations),
        bytesLength := IntOption(line, 'l', base.bytesLength),
        numMessages := IntOption(line, 'm', base.numMessages),
        destinationName := TextOption(line, 'n', base.destinationName),
        useFinalControlMessage := FlagOption(line, 'o', base.useFinalControlMessage),
        useTemporaryDestinations := FlagOption(line, 'p', base.useTemporaryDestinations),
        useQueueDestinations := FlagOption(line, 'q', base.useQueueDestinations),
        transacted := FlagOption(line, 't', base.transacted),
        messageGroupId := OptionalText(line, 'x', base.messageGroupId))
  {
  }

  /** Applying the options read before a letter past all of them is
      applying the whole line. */
  lemma AppliedBeforeAll(base: Config, line: CommandLine)
    ensures AppliedBefore(base, line, '{') == Applied(base, line)
  {
  }

  /** When an integer option is refused, the exception reports that option's
      text; every field whose option is read before it holds its new value,
      and the refused option's field and every later one keep their old
      values. */
  lemma FailedParseFields(base: Config, line: CommandLine)
    requires ParseOptions(base, line).NumberFormatError?
    ensures FirstBadLetter(line, NUMBER_LETTERS).Some?
    ensures var bad := FirstBadLetter(line, NUMBER_LETTERS).value;
      var c := AppliedBefore(base, line, bad);
      && ParseOptions(base, line).text == line[bad]
      && (('a' < bad ==> c.acknowledgeMode == Applied(base, line).acknowledgeMode) && (bad <= 'a' ==> c.acknowledgeMode == base.acknowledgeMode))
      && (('c' < bad ==> c.clientId == Applied(base, line).clientId) && (bad <= 'c' ==> c.clientId == base.clientId))
      && (('d' < bad ==> c.durable == Applied(base, line).durable) && (bad <= 'd' ==> c.durable == base.durable))
      && (('e' < bad ==> c.perMessageSleepMs == Applied(base, line).perMessageSleepMs) && (bad <= 'e' ==> c.perMessageSleepMs == base.perMessageSleepMs))
      && (('f' < bad ==> c.connectionFactoryName == Applied(base, line).connectionFactoryName) && (bad <= 'f' ==> c.connectionFactoryName == base.connectionFactoryName))
      && (('g' < bad ==> c.numThreads == Applied(base, line).numThreads) && (bad <= 'g' ==> c.numThreads == base.numThreads))
      && (('j' < bad ==> c.jndiLookupDestinations == Applied(base, line).jndiLookupDestinations) && (bad <= 'j' ==> c.jndiLookupDestinations == base.jndiLookupDestinations))
      && (('l' < bad ==> c.bytesLength == Applied(base, line).bytesLength) && (bad <= 'l' ==> c.bytesLength == base.bytesLength))
      && (('m' < bad ==> c.numMessages == Applied(base, line).numMessages) && (bad <= 'm' ==> c.numMessages == base.numMessages))
      && (('n' < bad ==> c.destinationName == Applied(base, line).destinationName) && (bad <= 'n' ==> c.destinationName == base.destinationName))
      && (('o' < bad ==> c.useFinalControlMessage == Applied(base, line).useFinalControlMessage) && (bad <= 'o' ==> c.useFinalControlMessage == base.useFinalControlMessage))
      && (('p' < bad ==> c.useTemporaryDestinations == Applied(base, line).useTemporaryDestinations) && (bad <= 'p' ==> c.useTemporaryDestinations == base.useTemporaryDestinations))
      && (('q' < bad ==> c.useQueueDestinations == Applied(base, line).useQueueDestinations) && (bad <= 'q' ==> c.useQueueDestinations == base.useQueueDestinations))
      && (('t' < bad ==> c.transacted == Applied(base, line).transacted) && (bad <= 't' ==> c.transacted == base.transacted))
      && (('x' < bad ==> c.messageGroupId == Applied(base, line).messageGroupId) && (bad <= 'x' ==> c.messageGroupId == base.messageGroupId))
      && (('z' < bad ==> c.batchSize == Applied(base, line).batchSize) && (bad <= 'z' ==> c.batchSize == base.batchSize))
  {
    FirstBadNumberOrder(line);
    AppliedBeforeSplit(base, line, FirstBadLetter(line, NUMBER_LETTERS).value);
  }

  /** Every field whose option comes before `bad` in the alphabet holds its
      applied value in `AppliedBefore`; every other one keeps its old value. */
  lemma AppliedBeforeSplit(base: Config, line: CommandLine, bad: char)
    ensures var c := AppliedBefore(base, line, bad);
      (('a' < bad ==> c.acknowledgeMode == Applied(base, line).acknowledgeMode) && (bad <= 'a' ==> c.acknowledgeMode == base.acknowledgeMode))
      && (('c' < bad ==> c.clientId == Applied(base, line).clientId) && (bad <= 'c' ==> c.clientId == base.clientId))
      && (('d' < bad ==> c.durable == Applied(base, line).durable) && (bad <= 'd' ==> c.durable == base.durable))
      && (('e' < bad ==> c.perMessageSleepMs == Applied(base, line).perMessageSleepMs) && (bad <= 'e' ==> c.perMessageSleepMs == base.perMessageSleepMs))
      && (('f' < bad ==> c.connectionFactoryName == Applied(base, line).connectionFactoryName) && (bad <= 'f' ==> c.connectionFactoryName == base.connectionFactoryName))
      && (('g' < bad ==> c.numThreads == Applied(base, line).numThreads) && (bad <= 'g' ==> c.numThreads == base.numThreads))
      && (('j' < bad ==> c.jndiLookupDestinations == Applied(base, line).jndiLookupDestinations) && (bad <= 'j' ==> c.jndiLookupDestinations == base.jndiLookupDestinations))
      && (('l' < bad ==> c.bytesLength == Applied(base, line).bytesLength) && (bad <= 'l' ==> c.bytesLength == base.bytesLength))
      && (('m' < bad ==> c.numMessages == Applied(base, line).numMessages) && (bad <= 'm' ==> c.numMessages == base.numMessages))
      && (('n' < bad ==> c.destinationName == Applied(base, line).destinationName) && (bad <= 'n' ==> c.destinationName == base.destinationName))
      && (('o' < bad ==> c.useFinalControlMessage == Applied(base, line).useFinalControlMessage) && (bad <= 'o' ==> c.useFinalControlMessage == base.useFinalControlMessage))
      && (('p' < bad ==> c.useTemporaryDestinations == Applied(base, line).useTemporaryDestinations) && (bad <= 'p' ==> c.useTemporaryDestinations == base.useTemporaryDestinations))
      && (('q' < bad ==> c.useQueueDestinations == Applied(base, line).useQueueDestinations) && (bad <= 'q' ==> c.useQueueDestinations == base.useQueueDestinations))
      && (('t' < bad ==> c.transacted == Applied(base, line).transacted) && (bad <= 't' ==> c.transacted == base.transacted))
      && (('x' < bad ==> c.messageGroupId == Applied(base, line).messageGroupId) && (bad <= 'x' ==> c.messageGroupId == base.messageGroupId))
      && (('z' < bad ==> c.batchSize == Applied(base, line).batchSize) && (bad <= 'z' ==> c.batchSize == base.batchSize))
  {
  }

  /** An option that is not given leaves its field as it was. */
  lemma UnsetOptionsKeepFields(base: Config, line: CommandLine)
    requires ParseOptions(base, line).Configured?
    ensures var c := ParseOptions(base, line).config;
      && ('a' !in line ==> c.acknowledgeMode == base.acknowledgeMode)
      && ('c' !in line ==> c.clientId == base.clientId)
      && ('d' !in line ==> c.durable == base.durable)
      && ('e' !in line ==> c.perMessageSleepMs == base.perMessageSleepMs)
      && ('f' !in line ==> c.connectionFactoryName == base.connectionFactoryName)
      && ('g' !in line ==> c.numThreads == base.numThreads)
      && ('j' !in line ==> c.jndiLookupDestinations == base.jndiLookupDestinations)
      && ('l' !in line ==> c.bytesLength == base.bytesLength)
      && ('m' !in line ==> c.numMessages == base.numMessages)
      && ('n' !in line ==> c.destinationName == base.destinationName)
      && ('o' !in line ==> c.useFinalControlMessage == base.useFinalControlMessage)
      && ('p' !in line ==> c.useTemporaryDestinations == base.useTemporaryDestinations)
      && ('q' !in line ==> c.useQueueDestinations == base.useQueueDestinations)
      && ('t' !in line ==> c.transacted == base.transacted)
      && ('x' !in line ==> c.messageGroupId == base.messageGroupId)
      && ('z' !in line ==> c.batchSize == base.batchSize)
  {
  }

  /** The flags only ever switch a field on; in particular the queue flag,
      already on by default, cannot be switched off, so every configuration
      parsed from the defaults uses queues. */
  lemma FlagsOnlyEnable(base: Config, line: CommandLine)
    requires ParseOptions(base, line).Configured?
    ensures var c := ParseOptions(base, line).config;
      && (base.durable ==> c.durable)
      && (base.jndiLookupDestinations ==> c.jndiLookupDestinations)
      && (base.useFinalControlMessage ==> c.useFinalControlMessage)
      && (base.useTemporaryDestinations ==> c.useTemporaryDestinations)
      && (base.useQueueDestinations ==> c.useQueueDestinations)
      && (base.transacted ==> c.transacted)
      && ('o' in line ==> c.useFinalControlMessage) && ('t' in line ==> c.transacted)
  {
  }

  /** The acknowledge-mode option: accepted exactly when it names one of the
      four modes ignoring case, and then that mode is the one configured. */
  lemma AckModeOption(base: Config, line: CommandLine)
    requires line.Keys <= OPTION_LETTERS && 'h' !in line && 'a' in line
    ensures ParseOptions(base, line).UsageError? <==> forall m: AckMode :: !EqualsIgnoreCase(line['a'], AckModeName(m))
    ensures ParseOptions(base, line).Configured? ==>
      EqualsIgnoreCase(line['a'], AckModeName(ParseOptions(base, line).config.acknowledgeMode))
  {
    var p := ParseAckMode(line['a']);
    if p.Some? {
      assert EqualsIgnoreCase(line['a'], AckModeName(p.value));
    }
  }

  /** Help wins over every value, but not over an option the parser refuses. */
  lemma HelpOption(base: Config, line: CommandLine)
    requires 'h' in line
    ensures ParseOptions(base, line) == if line.Keys <= OPTION_LETTERS then HelpShown else UsageError("unrecognized option")
  {
  }

  /** With no options the tool runs on its defaults. */
  lemma EmptyLineKeepsDefaults()
    ensures ParseOptions(DEFAULTS, map[]) == Configured(DEFAULTS)
  {
    assert FirstBadNumber(map[], NUMBER_LETTERS) == None;
  }

  // ----- Decision tables -----

  /** The destination `run` obtains. */
  function Destination(c: Config): DestinationChoice
  {
    ChooseDestination(c.jndiLookupDestinations, c.useQueueDestinations, c.useTemporaryDestinations, c.destinationName)
  }

  /** From the defaults, every command line that parses sends to a queue
      unless the destination is looked up: -q cannot turn queues off, so the
      topic branches of the destination table are never taken. */
  lemma ProducerNeverUsesTopics(line: CommandLine)
    requires ParseOptions(DEFAULTS, line).Configured?
    ensures var d := Destination(ParseOptions(DEFAULTS, line).config);
      d.LookedUp? || IsQueue(d)
  {
  }

  /** Persistent delivery exactly for a durable producer. */
  function DeliveryModeFor(durable: bool): (m: DeliveryMode)
    ensures m == Persistent <==> durable
  {
    if durable then Persistent else NonPersistent
  }

  /** How many times the send loop runs: one fewer than `numMessages` when the
      final control message is on, in 32-bit arithmetic, so that
      `Integer.MIN_VALUE` wraps round to `Integer.MAX_VALUE`. */
  function MessagesToSend(c: Config): Int32
  {
    if c.useFinalControlMessage then Wrap32(c.numMessages - 1) else c.numMessages
  }

  /** The number of messages a run sends when nothing goes wrong: the loop's,
      and the control message after it. */
  function TotalSends(c: Config): nat
  {
    (if MessagesToSend(c) > 0 then MessagesToSend(c) else 0) + (if c.useFinalControlMessage then 1 else 0)
  }

  /** For any positive `numMessages` the producer sends exactly that many
      messages, the control message, when on, being the last of them; with
      `numMessages` zero the control message still goes out; with
      `Integer.MIN_VALUE` the subtraction wraps and the loop runs
      `Integer.MAX_VALUE` times. */
  lemma TotalSendsRule(c: Config)
    ensures c.numMessages >= 1 ==> TotalSends(c) == c.numMessages
    ensures c.numMessages <= 0 && c.numMessages != INT_MIN ==> TotalSends(c) == (if c.useFinalControlMessage then 1 else 0)
    ensures c.numMessages == INT_MIN && c.useFinalControlMessage ==> TotalSends(c) == INT_MAX + 1
  {
    if c.useFinalControlMessage {
      if c.numMessages == INT_MIN {
        assert Wrap32(c.numMessages - 1) == INT_MAX;
      } else {
        assert Wrap32(c.numMessages - 1) == c.numMessages - 1;
      }
    }
  }

  /** The string properties every text message and the control message
      carry: the message group, when one is configured. */
  function GroupProperties(c: Config): (p: Properties)
    ensures GROUP_ID_PROPERTY in p <==> c.messageGroupId.Some?
    ensures c.messageGroupId.Some? ==> p[GROUP_ID_PROPERTY] == c.messageGroupId.value
    ensures |p.Keys| <= 1
  {
    if c.messageGroupId.Some? then map[GROUP_ID_PROPERTY := c.messageGroupId.value] else map[]
  }
}
