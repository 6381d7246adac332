/** The vocabulary both tools share with the JMS client: acknowledge modes,
    delivery modes, messages, the destination decision table, and the events
    of the client trace that stands for the calls a tool makes. */
module Jms {
  import opened JavaLang

  // ----- Acknowledge modes -----

  datatype AckMode = AutoAcknowledge | ClientAcknowledge | DupsOkAcknowledge | SessionTransacted

  /** The spelling of each mode that the `-a` option accepts. */
  function AckModeName(m: AckMode): string
  {
    match m
    case AutoAcknowledge => "AUTO_ACKNOWLEDGE"
    case ClientAcknowledge => "CLIENT_ACKNOWLEDGE"
    case DupsOkAcknowledge => "DUPS_OK_ACKNOWLEDGE"
    case SessionTransacted => "SESSION_TRANSACTED"
  }

  /** The `-a` value: one of the four names, compared ignoring case; anything
      else is refused (None). */
  function ParseAckMode(s: string): (r: Option<AckMode>)
    ensures r.Some? ==> EqualsIgnoreCase(s, AckModeName(r.value))
    ensures r.None? ==> forall m: AckMode :: !EqualsIgnoreCase(s, AckModeName(m))
  {
    if EqualsIgnoreCase(s, "AUTO_ACKNOWLEDGE") then Some(AutoAcknowledge)
    else if EqualsIgnoreCase(s, "CLIENT_ACKNOWLEDGE") then Some(ClientAcknowledge)
    else if EqualsIgnoreCase(s, "DUPS_OK_ACKNOWLEDGE") then Some(DupsOkAcknowledge)
    else if EqualsIgnoreCase(s, "SESSION_TRANSACTED") then Some(SessionTransacted)
    else
      None
  }

  /** No string matches two of the names, so the order of the tests in the
      if-chain does not matter. */
  lemma AckModeNamesUnambiguous(s: string)
    ensures forall m1: AckMode, m2: AckMode ::
      EqualsIgnoreCase(s, AckModeName(m1)) && EqualsIgnoreCase(s, AckModeName(m2)) ==> m1 == m2
  {
    // only CLIENT_ACKNOWLEDGE and SESSION_TRANSACTED share a length, and no
    // character matches both of their first letters
    if |s| > 0 {
      assert !(CharEqualsIgnoreCase(s[0], 'C') && CharEqualsIgnoreCase(s[0], 'S'));
    }
  }

  /** The option value accepts each mode's own name, in any mix of case. */
  lemma ParseAckModeOfName(m: AckMode, s: string)
    requires EqualsIgnoreCase(s, AckModeName(m))
    ensures ParseAckMode(s) == Some(m)
  {
    var r := ParseAckMode(s);
    if r.Some? {
      AckModeNamesUnambiguous(s);
    }
  }

  lemma AckModeExamples()
    ensures ParseAckMode("CLIENT_ACKNOWLEDGE") == Some(ClientAcknowledge)
    ensures ParseAckMode("client_acknowledge") == Some(ClientAcknowledge)
    ensures ParseAckMode("Session_Transacted") == Some(SessionTransacted)
  {
    ParseAckModeOfName(ClientAcknowledge, "CLIENT_ACKNOWLEDGE");
    ParseAckModeOfName(ClientAcknowledge, "client_acknowledge");
    ParseAckModeOfName(SessionTransacted, "Session_Transacted");
  }

  /** Abbreviations of the names are refused. */
  lemma AckModeRefusals()
    ensures ParseAckMode("CLIENT") == None
    ensures ParseAckMode("AUTO") == None
  {
  }

  // ----- Producer delivery mode -----

  datatype DeliveryMode = NonPersistent | Persistent

  // ----- Messages -----

  /** String properties set on a message. */
  type Properties = map<string, string>

  /** The property that names a message group. */
  const GROUP_ID_PROPERTY: string := "JMSXGroupID"

  datatype Message =
    | TextMessage(text: string, properties: Properties)
    | BytesMessage(body: seq<Octet>, properties: Properties)
    | ControlMessage(properties: Properties)   // a message with no body

  // ----- Destinations -----

  /** How a tool obtains its destination. */
  datatype DestinationChoice =
    | LookedUp(jndiName: string)
    | TemporaryQueue
    | NamedQueue(queueName: string)
    | TemporaryTopic
    | NamedTopic(topicName: string)

  predicate IsQueue(d: DestinationChoice) { d.TemporaryQueue? || d.NamedQueue? }

  predicate IsTemporary(d: DestinationChoice) { d.TemporaryQueue? || d.TemporaryTopic? }

  /** The name a destination is obtained by, if any. */
  function NameOf(d: DestinationChoice): Option<string>
  {
    match d
    case LookedUp(n) => Some(n)
    case NamedQueue(n) => Some(n)
    case NamedTopic(n) => Some(n)
    case _ => None
  }

  /** The destination table of both tools: a JNDI lookup overrides the queue
      and temporary flags; otherwise the flags pick one of four constructions,
      and only the temporary ones ignore the configured name. */
  function ChooseDestination(jndiLookup: bool, useQueue: bool, temporary: bool, name: string): (d: DestinationChoice)
    ensures d.LookedUp? <==> jndiLookup
    ensures !jndiLookup ==> (IsQueue(d) <==> useQueue) && (IsTemporary(d) <==> temporary)
    ensures NameOf(d) == if !jndiLookup && temporary then None else Some(name)
  {
    if jndiLookup then LookedUp(name)
    else if useQueue then (if temporary then TemporaryQueue else NamedQueue(name))
    else if temporary then TemporaryTopic
    else NamedTopic(name)
  }

  /** Without JNDI, the four flag combinations give four different destinations. */
  lemma ChooseDestinationOneToOne(q1: bool, t1: bool, q2: bool, t2: bool, name: string)
    requires ChooseDestination(false, q1, t1, name) == ChooseDestination(false, q2, t2, name)
    ensures q1 == q2 && t1 == t2
  {
  }

  // ----- The client trace -----

  /** The exceptions the tools' own code can raise in a run. */
  datatype Failure =
    | NullPointer        // a call on the consumer or browser the tool did not create
    | IllegalArgument    // Thread.sleep with a negative time
    | Arithmetic         // a batch-boundary test with a batch size of zero

  datatype ReceiveForm = Untimed | Timed(timeoutMs: Int32)

  /** One call a tool makes on the messaging client (or on Thread.sleep), with
      what it returned where the tool looks at it. */
  datatype Event =
    | ConnectionCreated
    | ClientIdSet(id: string)
    | ConnectionStarted
    | SessionCreated(transacted: bool, ackMode: AckMode)
    | DestinationResolved(destination: DestinationChoice)
    | ConsumerCreated(consumer: ConsumerKind)
    | ProducerCreated
    | DeliveryModeSet(mode: DeliveryMode)
    | ListenerRegistered
    | Received(form: ReceiveForm, result: Option<Message>)
    | Enumerated
    | Waited(ms: int)                    // the sleep between polls or browser passes
    | Handled(count: int, message: Message)
    | Paced(ms: int)                     // the per-message sleep
    | Acknowledged(count: int)
    | Committed
    | Sent(message: Message)
    | Raised(failure: Failure)
    | ConsumerClosed
    | ProducerClosed
    | SessionClosed
    | ConnectionClosed

  /** The `finally` block of both tools' `run`: the session, then the
      connection, each closed once it was created. */
  const TEARDOWN: seq<Event> := [SessionClosed, ConnectionClosed]

  /** The per-message `Thread.sleep(sleepTime)` both tools make after a
      message when the sleep time is positive. */
  function Pacing(sleepMs: int): (r: seq<Event>)
    ensures |r| <= 1
    ensures r != [] <==> sleepMs > 0
  {
    if sleepMs > 0 then [Paced(sleepMs)] else []
  }

  /** What the consumer tool creates on its destination. */
  datatype ConsumerKind =
    | DurableSubscriber(subscription: string, selector: Option<string>)
    | PlainConsumer(selector: Option<string>)
    | Browser(selector: Option<string>)
}
