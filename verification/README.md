# jms-tools: the consumer and producer tools

This project models the two command-line JMS clients of jms-tools. It covers
`ConsumerTool` and `ProducerTool` under `utility/src/main/java/tools/`.

Each tool does the same four things:

- it reads its option fields from a command line;
- it opens a connection and a session;
- it picks a destination;
- it then consumes or produces `numMessages` messages, on one thread or on
  each of `numThreads` pool threads.

The consumer has three ways to obtain messages:

- a polling `receive` loop, timed or untimed;
- repeated passes of a queue browser over `getEnumeration()`;
- an asynchronous `MessageListener`, with a wait loop that watches a shared
  counter.

Each message goes through `handleMessage`. That method sleeps, acknowledges
under client acknowledgement and commits in a transacted session, each on
the boundaries of `batchSize`. The producer sends text or padded bytes
messages. It commits on batch boundaries and can finish with an empty
control message.

Everything the tools do against the messaging provider is recorded as a
trace of `Jms.Event`s: connection, session, destination, consumer or
producer, receive, send, handle, sleep, acknowledge, commit, exception and
close. What the provider returns is an input of the model:

- the results of `receive`;
- the enumerations a browser returns;
- the schedule of deliveries and counter tests for a listener.

The modules follow the structure of the program:

- `JavaLang`: the Java semantics the tools rely on. This is 32-bit `int`,
  the truncating `%`, `Integer.parseInt` and `toString`, `equalsIgnoreCase`
  and UTF-8 `getBytes`.
- `Jms`: the JMS vocabulary shared by both tools. This covers the
  acknowledge modes, the destination table, messages and the trace events.
- `Batching`: the batch-boundary test and the boundaries it selects.
- `Cli`: the parsed command line, taken as a map from option letter to
  value, and the exit status `main` ends with.
- `ConsumerConfig`, `ConsumerHandling`, `ConsumerLoops` and `ConsumerRun`:
  the consumer tool as functions, with the lemmas about them.
- `Consumer.ConsumerTool`: the consumer as a class whose option fields
  `parseCommandLine` overwrites. Its methods `run`, `handleMessage` and the
  loops are written imperatively. Each is proved equal to the function
  above that describes it.
- `ProducerConfig`, `ProducerSend` and `ProducerRun`: the producer tool as
  functions and lemmas.
- `Producer.ProducerTool`: the producer as a class, proved in the same way.

## Model

| member | source | states |
|---|---|---|
| JavaLang.Wrap32 | utility/src/main/java/tools/ProducerTool.java:116 | `int` subtraction wraps: the result is congruent to the exact value modulo 2^32 and equals it when that fits an `int` |
| JavaLang.RemProperties | utility/src/main/java/tools/ConsumerTool.java:228-237 | Java's `%` is below the divisor in magnitude, has the dividend's sign, agrees with the Euclidean remainder for a non-negative dividend and tests zero the same for `b` and `-b` |
| JavaLang.ShowNat | utility/src/main/java/tools/ProducerTool.java:119 | the decimal form of a number is a non-empty string of digits |
| JavaLang.ParseInt | utility/src/main/java/tools/ConsumerTool.java:406-408 | `parseInt` accepts exactly an optional sign followed by at least one digit whose value fits an `int`, and returns that value |
| JavaLang.ParseIntExamples | utility/src/main/java/tools/ConsumerTool.java:406-408 | `+5`, `007` and `-0` parse to 5, 7 and 0 |
| JavaLang.ParseIntRefusals | utility/src/main/java/tools/ConsumerTool.java:406-408 | `1x`, a lone `-` and `3000000000` are refused |
| JavaLang.ParseIntOfShow | utility/src/main/java/tools/ProducerTool.java:119 | parsing the decimal form of any `int` gives the same `int` back |
| JavaLang.Utf8Char | utility/src/main/java/tools/ProducerTool.java:121 | one character encodes to one to four octets, and to one exactly when it is ASCII |
| JavaLang.Utf8Length | utility/src/main/java/tools/ProducerTool.java:121 | a string encodes to between one and four octets per character, and to exactly one per character when it is ASCII |
| Jms.ParseAckMode | utility/src/main/java/tools/ConsumerTool.java:379-392 | an acknowledge-mode string is accepted exactly when it equals one of the four mode names ignoring case, and then it yields that mode |
| Jms.AckModeNamesUnambiguous | utility/src/main/java/tools/ConsumerTool.java:381-388 | no string matches two different mode names ignoring case, so the order of the tests does not matter |
| Jms.ParseAckModeOfName | utility/src/main/java/tools/ProducerTool.java:302-315 | every spelling of a mode's name in any case parses to that mode |
| Jms.AckModeExamples | utility/src/main/java/tools/ProducerTool.java:302-315 | `CLIENT_ACKNOWLEDGE`, `client_acknowledge` and `Session_Transacted` are accepted |
| Jms.AckModeRefusals | utility/src/main/java/tools/ProducerTool.java:302-315 | the abbreviations `CLIENT` and `AUTO` are refused |
| Jms.ChooseDestination | utility/src/main/java/tools/ConsumerTool.java:92-109 | a JNDI lookup wins over the flags; otherwise the queue flag picks queue or topic and the temporary flag picks temporary or named; only a temporary destination ignores the name |
| Jms.ChooseDestinationOneToOne | utility/src/main/java/tools/ProducerTool.java:89-106 | without JNDI, different flag pairs give different destinations |
| Jms.Pacing | utility/src/main/java/tools/ConsumerTool.java:221-227 | the per-message sleep of both tools (also ProducerTool.java:138-140) happens exactly when the sleep time is positive, and at most once per message |
| Batching.AtBoundaryIsDivisibility | utility/src/main/java/tools/ConsumerTool.java:229 | for a non-negative count, the boundary test `count % batchSize == 0` holds exactly when the batch size divides the count |
| Batching.BoundariesMembers | utility/src/main/java/tools/ProducerTool.java:141-145 | the boundaries between two counts are exactly the counts in that range on a boundary |
| Batching.BoundariesIncreasing | utility/src/main/java/tools/ProducerTool.java:141-145 | the boundaries come in strictly increasing order |
| Batching.BoundaryCount | utility/src/main/java/tools/ConsumerTool.java:228-232 | among the counts 1 to n, exactly n / b are boundaries for a batch size b of at least 1 |
| Cli.ExitStatus | utility/src/main/java/tools/ConsumerTool.java:370-377 | -h exits with status 0, a refused line with -1, an unparsable number escapes `main` (status 1), and a line that parses does not exit; only those three outcomes exit |
| Cli.FirstBadNumber | utility/src/main/java/tools/ConsumerTool.java:406-460 | the first integer option, in reading order, whose value `parseInt` refuses |
| Cli.WorkerCount | utility/src/main/java/tools/ConsumerTool.java:63-72 | `main` runs the tool once for a thread count of 1 or less, and once per thread otherwise; at least once in every case |
| ConsumerConfig.FirstBadNumberOrder | utility/src/main/java/tools/ConsumerTool.java:406-460 | the consumer reads its integer options in the order e, g, m, r, z |
| ConsumerConfig.FailedParseFields | utility/src/main/java/tools/ConsumerTool.java:379-460 | when `parseInt` throws, the fields of the options read before the refused one hold their new values, the refused field and those after it keep their old ones |
| ConsumerConfig.AppliedBeforeSplit | utility/src/main/java/tools/ConsumerTool.java:379-460 | stopping the option reads at a letter leaves, field by field, the new value for every option read before it and the old value for that option and every later one |
| ConsumerConfig.UnsetOptionsKeepFields | utility/src/main/java/tools/ConsumerTool.java:394-460 | every field whose option is absent keeps its value |
| ConsumerConfig.FlagsOnlyEnable | utility/src/main/java/tools/ConsumerTool.java:394-455 | the flags only switch fields on, and -q and -t always leave theirs on |
| ConsumerConfig.AckModeOption | utility/src/main/java/tools/ConsumerTool.java:379-392 | a line with -a is refused exactly when the value names no mode, and otherwise configures the mode it names |
| ConsumerConfig.HelpOption | utility/src/main/java/tools/ConsumerTool.java:370-377 | -h wins over every value unless the parser refuses an option |
| ConsumerConfig.EmptyLineKeepsDefaults | utility/src/main/java/tools/ConsumerTool.java:35-52 | with no options the tool runs on the field initialisers |
| ConsumerConfig.ChooseConsumer | utility/src/main/java/tools/ConsumerTool.java:111-141 | a topic gets a durable subscriber exactly when durable, a queue gets a browser exactly with -b, everything else a plain consumer; the selector and the subscription name are passed through |
| ConsumerConfig.ChooseConsumerIgnoresFlags | utility/src/main/java/tools/ConsumerTool.java:111-141 | `durable` has no effect on queues, and the browser flag none on topics |
| ConsumerConfig.DurableTopicWithSelector | utility/src/main/java/tools/ConsumerTool.java:113-119 | a durable topic consumer with a selector is a durable subscriber that carries the selector |
| ConsumerConfig.ReceiveFormFor | utility/src/main/java/tools/ConsumerTool.java:179-183 | `receive` is timed exactly for a timeout above -1, zero included, and then with that timeout |
| ConsumerConfig.ChooseStrategy | utility/src/main/java/tools/ConsumerTool.java:143-190 | the listener takes precedence over the browser, and the browser over polling |
| ConsumerConfig.DispatchesOnNullExactly | utility/src/main/java/tools/ConsumerTool.java:143-173 | the strategy uses an object that was never created (a listener on a browser, or a browser on a topic) exactly when -b is set and the queue and listener flags agree |
| ConsumerHandling.HandleEffectsRule | utility/src/main/java/tools/ConsumerTool.java:212-241 | `handleMessage` sleeps exactly when the sleep is positive; it acknowledges exactly under client acknowledgement on a boundary, and commits exactly when transacted on a boundary |
| ConsumerHandling.HandleEffectsOrder | utility/src/main/java/tools/ConsumerTool.java:221-237 | within one call the sleep comes before the acknowledgement, and that before the commit |
| ConsumerHandling.DefaultBatchFinalisesEveryMessage | utility/src/main/java/tools/ConsumerTool.java:52 | with the default batch size 1, every message is acknowledged under client acknowledgement and committed when transacted |
| ConsumerHandling.HandleEffectsHandled | utility/src/main/java/tools/ConsumerTool.java:212-220 | one call handles exactly its own message at its own count |
| ConsumerHandling.HandleEffectsFinalised | utility/src/main/java/tools/ConsumerTool.java:228-237 | one call acknowledges and commits at most its own count |
| ConsumerHandling.HandleRunAppend | utility/src/main/java/tools/ConsumerTool.java:185-188 | two runs of `handleMessage` calls, the second counted on from the first, are one run |
| ConsumerHandling.HandleRunCounts | utility/src/main/java/tools/ConsumerTool.java:185-188 | a run of calls handles the messages in order with the counts count+1, count+2, … |
| ConsumerHandling.HandleRunAcks | utility/src/main/java/tools/ConsumerTool.java:228-232 | under client acknowledgement the acknowledged counts are exactly the boundaries among the handled counts; otherwise none are |
| ConsumerHandling.HandleRunCommits | utility/src/main/java/tools/ConsumerTool.java:233-237 | in a transacted session the session commits right after each boundary count and after no other; otherwise never |
| ConsumerHandling.AcknowledgementCount | utility/src/main/java/tools/ConsumerTool.java:228-232 | with batch size b, handling n messages acknowledges n / b of them |
| ConsumerHandling.HandlingKeepsProjections | utility/src/main/java/tools/ConsumerTool.java:212-241 | the handled messages, acknowledgements and commits of a trace come from its handling events alone |
| ConsumerLoops.PollCount | utility/src/main/java/tools/ConsumerTool.java:174-190 | the polling counter grows by one per message and not for a null result; the loop ends right after the message that takes the counter to `numMessages`, or else when the input runs out |
| ConsumerLoops.PollReceipts | utility/src/main/java/tools/ConsumerTool.java:177-183 | the polling loop records every receive result it takes, in order, in the form the timeout selects |
| ConsumerLoops.PollHandling | utility/src/main/java/tools/ConsumerTool.java:185-188 | the polling loop handles exactly the non-null results, in order, with consecutive counts |
| ConsumerLoops.PollFinished | utility/src/main/java/tools/ConsumerTool.java:174-190 | a polling loop that finishes has handled exactly the first `numMessages` messages returned |
| ConsumerLoops.BrowseFromCount | utility/src/main/java/tools/ConsumerTool.java:158-173 | each walked pass handles every message of its enumeration and is followed by one sleep; the counter is the number of messages walked; the loop finishes only once the counter reaches `numMessages` |
| ConsumerLoops.BrowseFromHandling | utility/src/main/java/tools/ConsumerTool.java:162-169 | the browser handles the walked passes in order, with consecutive counts |
| ConsumerLoops.BrowseFromWaits | utility/src/main/java/tools/ConsumerTool.java:171 | the browser sleeps once after each pass it walks |
| ConsumerLoops.NegativeTimeoutStopsBrowsing | utility/src/main/java/tools/ConsumerTool.java:171 | with a negative timeout, the sleep after the first pass throws IllegalArgumentException |
| ConsumerLoops.ListenCount | utility/src/main/java/tools/ConsumerTool.java:150-157 | the listener's counter grows by one per delivery; the wait loop ends at a test that finds it at `numMessages` or beyond, or else when the schedule runs out |
| ConsumerLoops.ListenStopsAtFirstCheck | utility/src/main/java/tools/ConsumerTool.java:155-157 | every counter test before the last found the counter below `numMessages` |
| ConsumerLoops.ListenHandling | utility/src/main/java/tools/ConsumerTool.java:150-157 | the listener handles exactly the deliveries, in order, with consecutive counts |
| ConsumerLoops.ListenWaits | utility/src/main/java/tools/ConsumerTool.java:155-157 | the wait loop sleeps once per test of the counter it takes, except the final test that ends it |
| ConsumerLoops.ListenFinished | utility/src/main/java/tools/ConsumerTool.java:150-157 | a finished listener has handled a prefix of the deliveries, at least `numMessages` long |
| ConsumerRun.RunFrame | utility/src/main/java/tools/ConsumerTool.java:82-209 | every run starts with the setup; a run that leaves its loop ends by closing the session and then the connection, right after closing the consumer or right after the exception |
| ConsumerRun.RunHandling | utility/src/main/java/tools/ConsumerTool.java:191-209 | the setup and the closing steps handle, acknowledge and commit nothing beyond what the loop does |
| ConsumerRun.NullDispatchRun | utility/src/main/java/tools/ConsumerTool.java:143-173 | a run that needs the object never created fails with NullPointerException whatever the provider delivers |
| ConsumerRun.BrowsingNeverFinishes | utility/src/main/java/tools/ConsumerTool.java:191 | a browsing run never ends cleanly, because the consumer it closes is null |
| ConsumerRun.PollingRunHandling | utility/src/main/java/tools/ConsumerTool.java:174-191 | a polling run that finishes has handled exactly the first `numMessages` messages returned |
| ConsumerRun.PollingRunDelivers | utility/src/main/java/tools/ConsumerTool.java:174-237 | a polling run that finishes acknowledges and commits exactly at the boundaries among 1 to `numMessages` |
| ConsumerRun.ListeningRunDelivers | utility/src/main/java/tools/ConsumerTool.java:143-157 | a listening run that finishes has handled the deliveries in order, at least `numMessages` of them |
| Consumer.ConsumerTool.constructor | utility/src/main/java/tools/ConsumerTool.java:35-52 | a new tool holds the field initialisers |
| Consumer.ConsumerTool.ParseCommandLine | utility/src/main/java/tools/ConsumerTool.java:243-468 | the outcome is the one the parse table gives; a line that parses leaves exactly its configuration, and -h or a refused line changes no field; when `parseInt` throws, exactly the options read before the refused one have been applied |
| Consumer.ConsumerTool.ApplyOptions | utility/src/main/java/tools/ConsumerTool.java:379-460 | the option assignments give the parse table's outcome, and leave the options read before a refused integer applied and no others |
| Consumer.ConsumerTool.HandleMessage | utility/src/main/java/tools/ConsumerTool.java:212-241 | one call produces the effects of the handling rule, and throws ArithmeticException exactly when the batch size is zero and a batch test is reached |
| Consumer.ConsumerTool.ReceiveAndHandle | utility/src/main/java/tools/ConsumerTool.java:177-188 | one polling turn: the receive, then the handling of a non-null result |
| Consumer.ConsumerTool.PollLoop | utility/src/main/java/tools/ConsumerTool.java:174-190 | the polling loop computes the polling trace, counter and exit |
| Consumer.ConsumerTool.WalkEnumeration | utility/src/main/java/tools/ConsumerTool.java:162-170 | the inner loop over one enumeration computes the walk |
| Consumer.ConsumerTool.BrowseLoop | utility/src/main/java/tools/ConsumerTool.java:158-173 | the browser loop computes the browsing trace, counter and exit |
| Consumer.ConsumerTool.OnMessage | utility/src/main/java/tools/ConsumerTool.java:152 | `onMessage` handles a delivery at the already-raised count; with a zero batch size the batch test raises ArithmeticException |
| Consumer.ConsumerTool.ListenTurn | utility/src/main/java/tools/ConsumerTool.java:150-157 | one step of the listener schedule: a delivery or a test of the counter |
| Consumer.ConsumerTool.ListenLoop | utility/src/main/java/tools/ConsumerTool.java:143-157 | the listener strategy computes the listening trace, counter and exit |
| Consumer.ConsumerTool.Run | utility/src/main/java/tools/ConsumerTool.java:82-210 | `run` produces the trace of one run |
| Consumer.ConsumerTool.Start | utility/src/main/java/tools/ConsumerTool.java:57-73 | `main` exits with the status of the parse, or runs the tool on the parsed options once per worker |
| Consumer.ConsumerTool.RunWorkers | utility/src/main/java/tools/ConsumerTool.java:63-72 | one run per worker, each on its own inputs |
| ProducerConfig.FirstBadNumberOrder | utility/src/main/java/tools/ProducerTool.java:317-375 | the producer reads its integer options in the order e, g, l, m, z |
| ProducerConfig.FailedParseFields | utility/src/main/java/tools/ProducerTool.java:302-375 | when `parseInt` throws, the fields of the options read before the refused one hold their new values, the refused field and those after it keep their old ones |
| ProducerConfig.AppliedBeforeSplit | utility/src/main/java/tools/ProducerTool.java:302-375 | stopping the option reads at a letter leaves, field by field, the new value for every option read before it and the old value for that option and every later one |
| ProducerConfig.UnsetOptionsKeepFields | utility/src/main/java/tools/ProducerTool.java:317-375 | every field whose option is absent keeps its value |
| ProducerConfig.FlagsOnlyEnable | utility/src/main/java/tools/ProducerTool.java:317-375 | the flags only switch fields on, and -o and -t always leave theirs on |
| ProducerConfig.AckModeOption | utility/src/main/java/tools/ProducerTool.java:302-315 | a line with -a is refused exactly when the value names no mode, and otherwise configures the mode it names |
| ProducerConfig.HelpOption | utility/src/main/java/tools/ProducerTool.java:295-300 | -h wins over every value unless the parser refuses an option |
| ProducerConfig.EmptyLineKeepsDefaults | utility/src/main/java/tools/ProducerTool.java:35-50 | with no options the tool runs on the field initialisers |
| ProducerConfig.ProducerNeverUsesTopics | utility/src/main/java/tools/ProducerTool.java:47 | starting from the defaults, no command line reaches a topic without JNDI, because -q cannot turn queues off |
| ProducerConfig.DeliveryModeFor | utility/src/main/java/tools/ProducerTool.java:109-114 | delivery is persistent exactly for a durable producer |
| ProducerConfig.TotalSendsRule | utility/src/main/java/tools/ProducerTool.java:116-156 | a positive `numMessages` sends exactly that many messages, the control message included; zero sends only the control message; `Integer.MIN_VALUE` wraps to `Integer.MAX_VALUE` loop turns |
| ProducerConfig.GroupProperties | utility/src/main/java/tools/ProducerTool.java:132-134 | the message group property is present exactly when a group is configured, and carries it |
| ProducerSend.PaddedLayout | utility/src/main/java/tools/ProducerTool.java:120-128 | the bytes body is as long as the larger of the text's bytes and `bytesLength`, starts with the text's bytes and ends in zeros |
| ProducerSend.MessageFor | utility/src/main/java/tools/ProducerTool.java:119-136 | a message is a bytes message exactly when a bytes length is configured; a text message carries "Message i at date" and the group |
| ProducerSend.MessagesShaped | utility/src/main/java/tools/ProducerTool.java:119-136 | every loop message and the control message have the configured shape |
| ProducerSend.SendsCount | utility/src/main/java/tools/ProducerTool.java:118-146 | n turns of the send loop send n messages |
| ProducerSend.MessagesIndex | utility/src/main/java/tools/ProducerTool.java:118-119 | the loop's i-th message is message i, stamped by worker w's clock |
| ProducerSend.SendsMessages | utility/src/main/java/tools/ProducerTool.java:118-146 | the loop sends messages 0, 1, … in order |
| ProducerSend.SendsCommits | utility/src/main/java/tools/ProducerTool.java:141-145 | a transacted loop commits right after the sends numbered by the boundaries among 1 to n, and a loop that is not transacted never commits |
| ProducerSend.ControlStepProjections | utility/src/main/java/tools/ProducerTool.java:147-156 | the control message is sent only when it is on, and committed in a transacted session whatever the batch size |
| ProducerRun.RunFrame | utility/src/main/java/tools/ProducerTool.java:80-176 | every run starts with the setup and its delivery mode, and ends by closing the session and the connection, right after the producer's close or right after the exception |
| ProducerRun.RunFails | utility/src/main/java/tools/ProducerTool.java:141-145 | a run fails exactly when it is transacted with batch size zero and the loop runs; it has then sent the first message only and committed nothing |
| ProducerRun.LoopProjections | utility/src/main/java/tools/ProducerTool.java:118-146 | what a loop that does not fail sends and commits |
| ProducerRun.RunSends | utility/src/main/java/tools/ProducerTool.java:116-157 | a run that does not fail sends the loop's messages in order, then the control message when it is on |
| ProducerRun.RunSendCount | utility/src/main/java/tools/ProducerTool.java:116-156 | a run that does not fail sends exactly the number of messages given by the send-count rule |
| ProducerRun.RunCommits | utility/src/main/java/tools/ProducerTool.java:141-156 | a transacted run commits after each boundary send and after the control message; a run that is not transacted never commits |
| ProducerRun.RunMessagesShaped | utility/src/main/java/tools/ProducerTool.java:119-152 | every message a run sends has the configured shape |
| Producer.ProducerTool.constructor | utility/src/main/java/tools/ProducerTool.java:35-50 | a new tool holds the field initialisers |
| Producer.ProducerTool.ParseCommandLine | utility/src/main/java/tools/ProducerTool.java:178-383 | the outcome is the one the parse table gives; a line that parses leaves exactly its configuration, and -h or a refused line changes no field; when `parseInt` throws, exactly the options read before the refused one have been applied |
| Producer.ProducerTool.ApplyOptions | utility/src/main/java/tools/ProducerTool.java:302-375 | the option assignments give the parse table's outcome, and leave the options read before a refused integer applied and no others |
| Producer.ProducerTool.CreateMessage | utility/src/main/java/tools/ProducerTool.java:119-136 | builds the message the message table describes |
| Producer.ProducerTool.SendTurn | utility/src/main/java/tools/ProducerTool.java:119-145 | one loop turn; it throws ArithmeticException exactly with a zero batch size in a transacted session, after the send and the sleep |
| Producer.ProducerTool.SendAll | utility/src/main/java/tools/ProducerTool.java:116-146 | the send loop computes the loop's trace and failure |
| Producer.ProducerTool.SendControl | utility/src/main/java/tools/ProducerTool.java:147-156 | the control step |
| Producer.ProducerTool.Run | utility/src/main/java/tools/ProducerTool.java:80-176 | `run` produces the trace of one run |
| Producer.ProducerTool.Start | utility/src/main/java/tools/ProducerTool.java:55-71 | `main` exits with the status of the parse, or runs the tool on the parsed options once per worker |
| Producer.ProducerTool.RunWorkers | utility/src/main/java/tools/ProducerTool.java:61-70 | one run per worker, worker t stamping its messages with its own clock |

## Left out

- JNDI: `setupContextAndConnectionFactory`, the `InitialContext` and the
  factory and destination lookups are external. A looked-up destination is
  recorded by name only, and a failed lookup is not modelled.
- Provider failures: every provider call succeeds. A `JMSException` from
  the provider is not modelled. The only exceptions modelled are the ones
  the tools' own code raises:
  - NullPointerException, when calling the consumer or browser that was
    never created;
  - IllegalArgumentException, from `Thread.sleep` with a negative time;
  - ArithmeticException, from a batch test with a batch size of zero.
- Destination casts: the consumer casts its destination to `Topic` for a
  durable subscriber (ConsumerTool.java:116, 118) and to `Queue` for a
  browser (ConsumerTool.java:130, 132), and casts the JNDI lookup result
  to `Destination` (ConsumerTool.java:94). With a looked-up destination of
  the other kind, or a lookup result that is no destination, these throw
  ClassCastException. The model records looked-up destinations by name
  only, so it always proceeds past these casts.
- Threads: the pool runs the workers sequentially. The model has one
  trace per worker, and the interleaving of threads and any shared provider
  state are not captured.
- Listener race: the listener's `incrementAndGet` followed by `get` is
  modelled as one atomic step in a sequential schedule of ticks. A read
  that sees another delivery's increment is not captured.
- Input ends early: the provider's inputs are finite. A loop that runs out
  of input ends `Starved`, standing for a tool that would still be
  waiting. Blocking and timing are not modelled.
- Sleeps and the clock: each `Thread.sleep` is a Paced or Waited event,
  and interrupts are not modelled. `new Date()` is a `Clock` parameter
  from worker and message index to the text of the date.
- Logging and output: the SLF4J logging, the `HelpFormatter` output and
  the text of `Date.toString` are left out.
- Command-line parsing: Apache Commons CLI is taken to deliver a map from
  option letter to value. Repeated options and the parser's own error
  messages are not modelled. Any option outside the tool's set is a usage
  error.
- Consumer counters: the counters in the browser and listener loops are
  unbounded integers, so their wrap past `Integer.MAX_VALUE` is not
  modelled. The polling and producer loops stop before it.
- JavaLang.UpperCase and JavaLang.LowerCase keep only the case mappings
  whose result is an ASCII letter. That makes `equalsIgnoreCase` exact
  against the mode names, which are all ASCII capitals and underscores,
  but not for arbitrary pairs of strings.
- JavaLang.ParseInt accepts ASCII digits only. Java also accepts other
  Unicode decimal digits.
- Java `Message` objects: a message is a value holding its text or body and
  its string properties. Headers, and the message objects' identity, are
  not modelled.
- The Spring samples and the rest of the repository are not part of this
  model.

## Notes on the source

- The usage text of `-a` in both tools lists three modes. Both tools also
  accept `SESSION_TRANSACTED`, and the model follows the code.
- `batchSize` is never checked against zero. With zero, the first batch
  test throws ArithmeticException:
  - in the consumer, uncaught from `handleMessage`;
  - in the producer, after the first send.
  
  The model keeps this as the exception path, not as a precondition.
