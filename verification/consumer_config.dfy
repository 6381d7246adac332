/** The consumer tool's configuration: its defaults, what the command line does
    to them, and the decision tables that turn it into a destination, a kind
    of consumer and a way of obtaining messages. */
module ConsumerConfig {
  import opened JavaLang
  import opened Jms
  import opened Cli

  datatype Config = Config(
    acknowledgeMode: AckMode,          // -a
    useQueueBrowser: bool,             // -b
    clientId: Option<string>,          // -c
    durable: bool,                     // -d
    perMessageSleepMs: Int32,          // -e
    connectionFactoryName: string,     // -f
    numThreads: Int32,                 // -g
    jndiLookupDestinations: bool,      // -j
    selector: Option<string>,          // -k
    numMessages: Int32,                // -m
    destinationName: string,           // -n
    useTemporaryDestinations: bool,    // -p
    useQueueDestinations: bool,        // -q
    receiveTimeoutMs: Int32,           // -r
    subscriptionName: string,          // -s
    transacted: bool,                  // -t
    useAsyncListener: bool,            // -y
    batchSize: Int32)                  // -z

  const DEFAULTS: Config := Config(
    AutoAcknowledge, false, None, false, 0, "connectionFactory", 1, false, None, 1,
    "DESTINATION.123", false, false, 5000, "Subscription123", false, false, 1)

  const OPTION_LETTERS: set<char> :=
    {'a', 'b', 'c', 'd', 'e', 'f', 'g', 'h', 'j', 'k', 'm', 'n', 'p', 'q', 'r', 's', 't', 'y', 'z'}

  /** The integer options, in the order they are read. */
  const NUMBER_LETTERS: seq<char> := ['e', 'g', 'm', 'r', 'z']

  /** What `parseCommandLine` makes of `line`, starting from the fields `base`:
      an option the parser does not know is a usage error; -h shows help; an
      acknowledge mode outside the four names is a usage error; an integer
      option that is not a number escapes as NumberFormatException; otherwise
      each option present overrides its field and the flags switch theirs on. */
  function ParseOptions(base: Config, line: CommandLine): (r: ParseOutcome<Config>)
  {
    if !(line.Keys <= OPTION_LETTERS) then UsageError("unrecognized option")
    else if 'h' in line then HelpShown
    else if 'a' in line && ParseAckMode(line['a']).None? then
      UsageError("Invalid value for acknowledge mode: " + line['a'])
    else if FirstBadNumber(line, NUMBER_LETTERS).Some? then
      NumberFormatError(FirstBadNumber(line, NUMBER_LETTERS).value)
    else Configured(Applied(base, line))
  }

  /** The fields once every option of `line` has been applied to `base`. */
  function Applied(base: Config, line: CommandLine): Config
  {
    Config(
      acknowledgeMode := AckOption(line, base.acknowledgeMode),
      useQueueBrowser := FlagOption(line, 'b', base.useQueueBrowser),
      clientId := OptionalText(line, 'c', base.clientId),
      durable := FlagOption(line, 'd', base.durable),
      perMessageSleepMs := IntOption(line, 'e', base.perMessageSleepMs),
      connectionFactoryName := TextOption(line, 'f', base.connectionFactoryName),
      numThreads := IntOption(line, 'g', base.numThreads),
      jndiLookupDestinations := FlagOption(line, 'j', base.jndiLookupDestinations),
      selector := OptionalText(line, 'k', base.selector),
      numMessages := IntOption(line, 'm', base.numMessages),
      destinationName := TextOption(line, 'n', base.destinationName),
      useTemporaryDestinations := FlagOption(line, 'p', base.useTemporaryDestinations),
      useQueueDestinations := FlagOption(line, 'q', base.useQueueDestinations),
      receiveTimeoutMs := IntOption(line, 'r', base.receiveTimeoutMs),
      subscriptionName := TextOption(line, 's', base.subscriptionName),
      transacted := FlagOption(line, 't', base.transacted),
      useAsyncListener := FlagOption(line, 'y', base.useAsyncListener),
      batchSize := IntOption(line, 'z', base.batchSize))
  }

  /** The integer options are tried in the order e, g, m, r, z. */
  lemma FirstBadNumberOrder(line: CommandLine)
    ensures FirstBadLetter(line, NUMBER_LETTERS) ==
      if BadNumber(line, 'e') then Some('e')
      else if BadNumber(line, 'g') then Some('g')
      else if BadNumber(line, 'm') then Some('m')
      else if BadNumber(line, 'r') then Some('r')
      else if BadNumber(line, 'z') then Some('z')
      else None
    ensures FirstBadNumber(line, NUMBER_LETTERS) ==
      if BadNumber(line, 'e') then Some(line['e'])
      else if BadNumber(line, 'g') then Some(line['g'])
      else if BadNumber(line, 'm') then Some(line['m'])
      else if BadNumber(line, 'r') then Some(line['r'])
      else if BadNumber(line, 'z') then Some(line['z'])
      else None
  {
    assert FirstBadLetter(line, ['z']) == if BadNumber(line, 'z') then Some('z') else FirstBadLetter(line, ['z'][1..]);
    assert ['z'][1..] == [];
    assert FirstBadLetter(line, ['r', 'z']) == if BadNumber(line, 'r') then Some('r') else FirstBadLetter(line, ['r', 'z'][1..]);
    assert ['r', 'z'][1..] == ['z'];
    assert FirstBadLetter(line, ['m', 'r', 'z']) == if BadNumber(line, 'm') then Some('m') else FirstBadLetter(line, ['m', 'r', 'z'][1..]);
    assert ['m', 'r', 'z'][1..] == ['r', 'z'];
    assert FirstBadLetter(line, ['g', 'm', 'r', 'z']) == if BadNumber(line, 'g') then Some('g') else FirstBadLetter(line, ['g', 'm', 'r', 'z'][1..]);
    assert ['g', 'm', 'r', 'z'][1..] == ['m', 'r', 'z'];
    assert FirstBadLetter(line, NUMBER_LETTERS)
      == if BadNumber(line, 'e') then Some('e') else FirstBadLetter(line, NUMBER_LETTERS[1..]);
    assert NUMBER_LETTERS[1..] == ['g', 'm', 'r', 'z'];
  }

  /** Once the letters and the acknowledge mode are accepted, the outcome
      is decided by the first integer option `parseInt` refuses. */
  lemma OutcomeByFirstBadLetter(base: Config, line: CommandLine)
    requires line.Keys <= OPTION_LETTERS && 'h' !in line
    requires 'a' in line ==> ParseAckMode(line['a']).Some?
    ensures ParseOptions(base, line) ==
      match FirstBadLetter(line, NUMBER_LETTERS)
      case Some(bad) => NumberFormatError(line[bad])
      case None => Configured(Applied(base, line))
  {
  }

  /** The fields `parseCommandLine` leaves behind when integer option `bad`
      throws: the options read before it, which are those with a letter
      earlier in the alphabet, are applied to `base`; the others are not. */
  function AppliedBefore(base: Config, line: CommandLine, bad: char): Config
  {
    Config(
      acknowledgeMode := if 'a' < bad then AckOption(line, base.acknowledgeMode) else base.acknowledgeMode,
      useQueueBrowser := if 'b' < bad then FlagOption(line, 'b', base.useQueueBrowser) else base.useQueueBrowser,
      clientId := if 'c' < bad then OptionalText(line, 'c', base.clientId) else base.clientId,
      durable := if 'd' < bad then FlagOption(line, 'd', base.durable) else base.durable,
      perMessageSleepMs := if 'e' < bad then IntOption(line, 'e', base.perMessageSleepMs) else base.perMessageSleepMs,
      connectionFactoryName := if 'f' < bad then TextOption(line, 'f', base.connectionFactoryName) else base.connectionFactoryName,
      numThreads := if 'g' < bad then IntOption(line, 'g', base.numThreads) else base.numThreads,
      jndiLookupDestinations := if 'j' < bad then FlagOption(line, 'j', base.jndiLookupDestinations) else base.jndiLookupDestinations,
      selector := if 'k' < bad then OptionalText(line, 'k', base.selector) else base.selector,
      numMessages := if 'm' < bad then IntOption(line, 'm', base.numMessages) else base.numMessages,
      destinationName := if 'n' < bad then TextOption(line, 'n', base.destinationName) else base.destinationName,
      useTemporaryDestinations := if 'p' < bad then FlagOption(line, 'p', base.useTemporaryDestinations) else base.useTemporaryDestinations,
      useQueueDestinations := if 'q' < bad then FlagOption(line, 'q', base.useQueueDestinations) else base.useQueueDestinations,
      receiveTimeoutMs := if 'r' < bad then IntOption(line, 'r', base.receiveTimeoutMs) else base.receiveTimeoutMs,
      subscriptionName := if 's' < bad then TextOption(line, 's', base.subscriptionName) else base.subscriptionName,
      transacted := if 't' < bad then FlagOption(line, 't', base.transacted) else base.transacted,
      useAsyncListener := if 'y' < bad then FlagOption(line, 'y', base.useAsyncListener) else base.useAsyncListener,
      batchSize := if 'z' < bad then IntOption(line, 'z', base.batchSize) else base.batchSize)
  }

  /** The fields left behind when `-e` is the first integer option
      `parseInt` refuses. */
  lemma AppliedBeforeE(base: Config, line: CommandLine)
    ensures AppliedBefore(base, line, 'e') ==
      base.(acknowledgeMode := AckOption(line, base.acknowledgeMode),
        useQueueBrowser := FlagOption(line, 'b', base.useQueueBrowser),
        clientId := OptionalText(line, 'c', base.clientId), durable := FlagOption(line, 'd', base.durable))
  {
  }

  /** The fields left behind when `-g` is the first integer option
      `parseInt` refuses. */
  lemma AppliedBeforeG(base: Config, line: CommandLine)
    ensures AppliedBefore(base, line, 'g') ==
      base.(acknowledgeMode := AckOption(line, base.acknowledgeMode),
        useQueueBrowser := FlagOption(line, 'b', base.useQueueBrowser),
        clientId := OptionalText(line, 'c', base.clientId), durable := FlagOption(line, 'd', base.durable),
        perMessageSleepMs := IntOption(line, 'e', base.perMessageSleepMs),
        connectionFactoryName := TextOption(line, 'f', base.connectionFactoryName))
  {
  }

  /** The fields left behind when `-m` is the first integer option
      `parseInt` refuses. */
  lemma AppliedBeforeM(base: Config, line: CommandLine)
    ensures AppliedBefore(base, line, 'm') ==
      base.(acknowledgeMode := AckOption(line, base.acknowledgeMode),
        useQueueBrowser := FlagOption(line, 'b', base.useQueueBrowser),
        clientId := OptionalText(line, 'c', base.clientId), durable := FlagOption(line, 'd', base.durable),
        perMessageSleepMs := IntOption(line, 'e', base.perMessageSleepMs),
        connectionFactoryName := TextOption(line, 'f', base.connectionFactoryName),
        numThreads := IntOption(line, 'g', base.numThreads),
        jndiLookupDestinations := FlagOption(line, 'j', base.jndiLookupDestinations),
        selector := OptionalText(line, 'k', base.selector))
  {
  }

  /** The fields left behind when `-r` is the first integer option
      `parseInt` refuses. */
  lemma AppliedBeforeR(base: Config, line: CommandLine)
    ensures AppliedBefore(base, line, 'r') ==
      base.(acknowledgeMode := AckOption(line, base.acknowledgeMode),
        useQueueBrowser := FlagOption(line, 'b', base.useQueueBrowser),
        clientId := OptionalText(line, 'c', base.clientId), durable := FlagOption(line, 'd', base.durable),
        perMessageSleepMs := IntOption(line, 'e', base.perMessageSleepMs),
        connectionFactoryName := TextOption(line, 'f', base.connectionFactoryName),
        numThreads := IntOption(line, 'g', base.numThreads),
        jndiLookupDestinations := FlagOption(line, 'j', base.jndiLookupDestinations),
        selector := OptionalText(line, 'k', base.selector),
        numMessages := IntOption(line, 'm', base.numMessages),
        destinationName := TextOption(line, 'n', base.destinationName),
        useTemporaryDestinations := FlagOption(line, 'p', base.useTemporaryDestinations),
        useQueueDestinations := FlagOption(line, 'q', base.useQueueDestinations))
  {
  }

  /** The fields left behind when `-z` is the first integer option
      `parseInt` refuses. */
  lemma AppliedBeforeZ(base: Config, line: CommandLine)
    ensures AppliedBefore(base, line, 'z') ==
      base.(acknowledgeMode := AckOption(line, base.acknowledgeMode),
        useQueueBrowser := FlagOption(line, 'b', base.useQueueBrowser),
        clientId := OptionalText(line, 'c', base.clientId), durable := FlagOption(line, 'd', base.durable),
        perMessageSleepMs := IntOption(line, 'e', base.perMessageSleepMs),
        connectionFactoryName := TextOption(line, 'f', base.connectionFactoryName),
        numThreads := IntOption(line, 'g', base.numThreads),
        jndiLookupDestinations := FlagOption(line, 'j', base.jndiLookupDestinations),
        selector := OptionalText(line, 'k', base.selector),
        numMessages := IntOption(line, 'm', base.numMessages),
        destinationName := TextOption(line, 'n', base.destinationName),
        useTemporaryDestinations := FlagOption(line, 'p', base.useTemporaryDestinations),
        useQueueDestinations := FlagOption(line, 'q', base.useQueueDestinations),
        receiveTimeoutMs := IntOption(line, 'r', base.receiveTimeoutMs),
        subscriptionName := TextOption(line, 's', base.subscriptionName),
        transacted := FlagOption(line, 't', base.transacted),
        useAsyncListener := FlagOption(line, 'y', base.useAsyncListener))
  {
  }

  /** Applying the options read before a letter past all of them is
      applying the whole line. */
  lemma AppliedBeforeAll(base: Config, line: CommandLine)
    ensures AppliedBefore(base, line, '{') == Applied(base, line)
  {
  }

  /** When an integer option is refused, the exception reports that option's
      text; every field whose option is read before it holds its new value,
      and the refused option's field and every later one keep their old
      values. */
  lemma FailedParseFields(base: Config, line: CommandLine)
    requires ParseOptions(base, line).NumberFormatError?
    ensures FirstBadLetter(line, NUMBER_LETTERS).Some?
    ensures var bad := FirstBadLetter(line, NUMBER_LETTERS).value;
      var c := AppliedBefore(base, line, bad);
      && ParseOptions(base, line).text == line[bad]
      && (('a' < bad ==> c.acknowledgeMode == Applied(base, line).acknowledgeMode) && (bad <= 'a' ==> c.acknowledgeMode == base.acknowledgeMode))
      && (('b' < bad ==> c.useQueueBrowser == Applied(base, line).useQueueBrowser) && (bad <= 'b' ==> c.useQueueBrowser == base.useQueueBrowser))
      && (('c' < bad ==> c.clientId == Applied(base, line).clientId) && (bad <= 'c' ==> c.clientId == base.clientId))
      && (('d' < bad ==> c.durable == Applied(base, line).durable) && (bad <= 'd' ==> c.durable == base.durable))
      && (('e' < bad ==> c.perMessageSleepMs == Applied(base, line).perMessageSleepMs) && (bad <= 'e' ==> c.perMessageSleepMs == base.perMessageSleepMs))
      && (('f' < bad ==> c.connectionFactoryName == Applied(base, line).connectionFactoryName) && (bad <= 'f' ==> c.connectionFactoryName == base.connectionFactoryName))
      && (('g' < bad ==> c.numThreads == Applied(base, line).numThreads) && (bad <= 'g' ==> c.numThreads == base.numThreads))
      && (('j' < bad ==> c.jndiLookupDestinations == Applied(base, line).jndiLookupDestinations) && (bad <= 'j' ==> c.jndiLookupDestinations == base.jndiLookupDestinations))
      && (('k' < bad ==> c.selector == Applied(base, line).selector) && (bad <= 'k' ==> c.selector == base.selector))
      && (('m' < bad ==> c.numMessages == Applied(base, line).numMessages) && (bad <= 'm' ==> c.numMessages == base.numMessages))
      && (('n' < bad ==> c.destinationName == Applied(base, line).destinationName) && (bad <= 'n' ==> c.destinationName == base.destinationName))
      && (('p' < bad ==> c.useTemporaryDestinations == Applied(base, line).useTemporaryDestinations) && (bad <= 'p' ==> c.useTemporaryDestinations == base.useTemporaryDestinations))
      && (('q' < bad ==> c.useQueueDestinations == Applied(base, line).useQueueDestinations) && (bad <= 'q' ==> c.useQueueDestinations == base.useQueueDestinations))
      && (('r' < bad ==> c.receiveTimeoutMs == Applied(base, line).receiveTimeoutMs) && (bad <= 'r' ==> c.receiveTimeoutMs == base.receiveTimeoutMs))
      && (('s' < bad ==> c.subscriptionName == Applied(base, line).subscriptionName) && (bad <= 's' ==> c.subscriptionName == base.subscriptionName))
      && (('t' < bad ==> c.transacted == Applied(base, line).transacted) && (bad <= 't' ==> c.transacted == base.transacted))
      && (('y' < bad ==> c.useAsyncListener == Applied(base, line).useAsyncListener) && (bad <= 'y' ==> c.useAsyncListener == base.useAsyncListener))
      && (('z' < bad ==> c.batchSize == Applied(base, line).batchSize) && (bad <= 'z' ==> c.batchSize == base.batchSize))
  {
    FirstBadNumberOrder(line);
    AppliedBeforeSplit(base, line, FirstBadLetter(line, NUMBER_LETTERS).value);
  }

  /** Every field whose option comes before `bad` in the alphabet holds its
      applied value in `AppliedBefore`; every other one keeps its old value. */
  lemma AppliedBeforeSplit(base: Config, line: CommandLine, bad: char)
    ensures var c := AppliedBefore(base, line, bad);
      (('a' < bad ==> c.acknowledgeMode == Applied(base, line).acknowledgeMode) && (bad <= 'a' ==> c.acknowledgeMode == base.acknowledgeMode))
      && (('b' < bad ==> c.useQueueBrowser == Applied(base, line).useQueueBrowser) && (bad <= 'b' ==> c.useQueueBrowser == base.useQueueBrowser))
      && (('c' < bad ==> c.clientId == Applied(base, line).clientId) && (bad <= 'c' ==> c.clientId == base.clientId))
      && (('d' < bad ==> c.durable == Applied(base, line).durable) && (bad <= 'd' ==> c.durable == base.durable))
      && (('e' < bad ==> c.perMessageSleepMs == Applied(base, line).perMessageSleepMs) && (bad <= 'e' ==> c.perMessageSleepMs == base.perMessageSleepMs))
      && (('f' < bad ==> c.connectionFactoryName == Applied(base, line).connectionFactoryName) && (bad <= 'f' ==> c.connectionFactoryName == base.connectionFactoryName))
      && (('g' < bad ==> c.numThreads == Applied(base, line).numThreads) && (bad <= 'g' ==> c.numThreads == base.numThreads))
      && (('j' < bad ==> c.jndiLookupDestinations == Applied(base, line).jndiLookupDestinations) && (bad <= 'j' ==> c.jndiLookupDestinations == base.jndiLookupDestinations))
      && (('k' < bad ==> c.selector == Applied(base, line).selector) && (bad <= 'k' ==> c.selector == base.selector))
      && (('m' < bad ==> c.numMessages == Applied(base, line).numMessages) && (bad <= 'm' ==> c.numMessages == base.numMessages))
      && (('n' < bad ==> c.destinationName == Applied(base, line).destinationName) && (bad <= 'n' ==> c.destinationName == base.destinationName))
      && (('p' < bad ==> c.useTemporaryDestinations == Applied(base, line).useTemporaryDestinations) && (bad <= 'p' ==> c.useTemporaryDestinations == base.useTemporaryDestinations))
      && (('q' < bad ==> c.useQueueDestinations == Applied(base, line).useQueueDestinations) && (bad <= 'q' ==> c.useQueueDestinations == base.useQueueDestinations))
      && (('r' < bad ==> c.receiveTimeoutMs == Applied(base, line).receiveTimeoutMs) && (bad <= 'r' ==> c.receiveTimeoutMs == base.receiveTimeoutMs))
      && (('s' < bad ==> c.subscriptionName == Applied(base, line).subscriptionName) && (bad <= 's' ==> c.subscriptionName == base.subscriptionName))
      && (('t' < bad ==> c.transacted == Applied(base, line).transacted) && (bad <= 't' ==> c.transacted == base.transacted))
      && (('y' < bad ==> c.useAsyncListener == Applied(base, line).useAsyncListener) && (bad <= 'y' ==> c.useAsyncListener == base.useAsyncListener))
      && (('z' < bad ==> c.batchSize == Applied(base, line).batchSize) && (bad <= 'z' ==> c.batchSize == base.batchSize))
  {
  }

  /** An option that is not given leaves its field as it was. */
  lemma UnsetOptionsKeepFields(base: Config, line: CommandLine)
    requires ParseOptions(base, line).Configured?
    ensures var c := ParseOptions(base, line).config;
      && ('a' !in line ==> c.acknowledgeMode == base.acknowledgeMode)
      && ('b' !in line ==> c.useQueueBrowser == base.useQueueBrowser)
      && ('c' !in line ==> c.clientId == base.clientId)
      && ('d' !in line ==> c.durable == base.durable)
      && ('e' !in line ==> c.perMessageSleepMs == base.perMessageSleepMs)
      && ('f' !in line ==> c.connectionFactoryName == base.connectionFactoryName)
      && ('g' !in line ==> c.numThreads == base.numThreads)
      && ('j' !in line ==> c.jndiLookupDestinations == base.jndiLookupDestinations)
      && ('k' !in line ==> c.selector == base.selector)
      && ('m' !in line ==> c.numMessages == base.numMessages)
      && ('n' !in line ==> c.destinationName == base.destinationName)
      && ('p' !in line ==> c.useTemporaryDestinations == base.useTemporaryDestinations)
      && ('q' !in line ==> c.useQueueDestinations == base.useQueueDestinations)
      && ('r' !in line ==> c.receiveTimeoutMs == base.receiveTimeoutMs)
      && ('s' !in line ==> c.subscriptionName == base.subscriptionName)
      && ('t' !in line ==> c.transacted == base.transacted)
      && ('y' !in line ==> c.useAsyncListener == base.useAsyncListener)
      && ('z' !in line ==> c.batchSize == base.batchSize)
  {
  }

  /** The flags only ever switch a field on. */
  lemma FlagsOnlyEnable(base: Config, line: CommandLine)
    requires ParseOptions(base, line).Configured?
    ensures var c := ParseOptions(base, line).config;
      && (base.useQueueBrowser ==> c.useQueueBrowser)
      && (base.durable ==> c.durable)
      && (base.jndiLookupDestinations ==> c.jndiLookupDestinations)
      && (base.useTemporaryDestinations ==> c.useTemporaryDestinations)
      && (base.useQueueDestinations ==> c.useQueueDestinations)
      && (base.transacted ==> c.transacted)
      && (base.useAsyncListener ==> c.useAsyncListener)
      && ('q' in line ==> c.useQueueDestinations) && ('t' in line ==> c.transacted)
  {
  }

  /** The acknowledge-mode option: accepted exactly when it names one of the
      four modes ignoring case, and then that mode is the one configured. */
  lemma AckModeOption(base: Config, line: CommandLine)
    requires line.Keys <= OPTION_LETTERS && 'h' !in line && 'a' in line
    ensures ParseOptions(base, line).UsageError? <==> forall m: AckMode :: !EqualsIgnoreCase(line['a'], AckModeName(m))
    ensures ParseOptions(base, line).Configured? ==>
      EqualsIgnoreCase(line['a'], AckModeName(ParseOptions(base, line).config.acknowledgeMode))
  {
    var p := ParseAckMode(line['a']);
    if p.Some? {
      assert EqualsIgnoreCase(line['a'], AckModeName(p.value));
    }
  }

  /** Help wins over every value, but not over an option the parser refuses. */
  lemma HelpOption(base: Config, line: CommandLine)
    requires 'h' in line
    ensures ParseOptions(base, line) == if line.Keys <= OPTION_LETTERS then HelpShown else UsageError("unrecognized option")
  {
  }

  /** With no options the tool runs on its defaults. */
  lemma EmptyLineKeepsDefaults()
    ensures ParseOptions(DEFAULTS, map[]) == Configured(DEFAULTS)
  {
    assert FirstBadNumber(map[], NUMBER_LETTERS) == None;
  }

  // ----- Decision tables -----

  /** The consumer table: a topic gets a durable subscriber exactly when
      `durable` is set, a queue gets a browser exactly when the browser flag is
      set, everything else a plain consumer; the selector is passed whenever it
      is set, and a durable subscriber uses the configured subscription name.
      The queue flag decides, whatever a JNDI lookup returned. */
  function ChooseConsumer(c: Config): (k: ConsumerKind)
    ensures k.DurableSubscriber? <==> !c.useQueueDestinations && c.durable
    ensures k.Browser? <==> c.useQueueDestinations && c.useQueueBrowser
    ensures k.selector == c.selector
    ensures k.DurableSubscriber? ==> k.subscription == c.subscriptionName
  {
    if !c.useQueueDestinations then
      if c.durable then DurableSubscriber(c.subscriptionName, c.selector) else PlainConsumer(c.selector)
    else
      if c.useQueueBrowser then Browser(c.selector) else PlainConsumer(c.selector)
  }

  /** `durable` does not matter for queues, nor the browser flag for topics. */
  lemma ChooseConsumerIgnoresFlags(c: Config)
    ensures c.useQueueDestinations ==> ChooseConsumer(c.(durable := !c.durable)) == ChooseConsumer(c)
    ensures !c.useQueueDestinations ==> ChooseConsumer(c.(useQueueBrowser := !c.useQueueBrowser)) == ChooseConsumer(c)
  {
  }

  /** A durable topic consumer with a selector is a durable subscriber that
      carries the selector, not a plain consumer. */
  lemma DurableTopicWithSelector(c: Config, sel: string)
    requires c.durable && !c.useQueueDestinations && c.selector == Some(sel)
    ensures ChooseConsumer(c) == DurableSubscriber(c.subscriptionName, Some(sel))
  {
  }

  /** How the polling loop calls receive: timed for any timeout above -1
      (0 included), untimed otherwise. */
  function ReceiveFormFor(receiveTimeoutMs: Int32): (f: ReceiveForm)
    ensures f.Timed? <==> receiveTimeoutMs >= 0
    ensures f.Timed? ==> f.timeoutMs == receiveTimeoutMs
  {
    if receiveTimeoutMs > -1 then Timed(receiveTimeoutMs) else Untimed
  }

  datatype Strategy = Listening | Browsing | Polling(form: ReceiveForm)

  /** The listener takes precedence over the browser, and the browser over polling. */
  function ChooseStrategy(c: Config): (s: Strategy)
    ensures s.Listening? <==> c.useAsyncListener
    ensures s.Browsing? <==> !c.useAsyncListener && c.useQueueBrowser
    ensures s.Polling? ==> s.form == ReceiveFormFor(c.receiveTimeoutMs)
  {
    if c.useAsyncListener then Listening
    else if c.useQueueBrowser then Browsing
    else Polling(ReceiveFormFor(c.receiveTimeoutMs))
  }

  /** The strategy needs an object the consumer table did not create: a
      listener on a queue browser, or a browser pass on a topic. */
  predicate DispatchesOnNull(c: Config)
  {
    var s := ChooseStrategy(c);
    var k := ChooseConsumer(c);
    (s.Listening? && k.Browser?) || (s.Browsing? && !k.Browser?)
  }

  /** The browser flag leads to a null dereference exactly when the queue flag
      and the listener flag agree. */
  lemma DispatchesOnNullExactly(c: Config)
    ensures DispatchesOnNull(c) <==> c.useQueueBrowser && (c.useQueueDestinations == c.useAsyncListener)
  {
  }
}
