/** The producer's send loop: the message it builds for each index, the
    per-message sleep, the commits on batch boundaries, and what the loop and
    the final control message add up to. */
module ProducerSend {
  import opened JavaLang
  import opened Jms
  import opened Batching
  import opened ProducerConfig

  /** The text `new Date()` renders when worker `w` builds message `i`; the
      clock is not part of the model, so it is a parameter. */
  type Clock = (nat, int) -> string

  /** The text of message `i`, stamped with `date`. */
  function MessageText(i: int, date: string): string
  {
    "Message " + Show(i) + " at " + date
  }

  /** A freshly allocated byte array of length `n`. */
  function Zeros(n: nat): seq<Octet>
  {
    seq(n, _ => 0)
  }

  /** The body of a bytes message: the text's bytes, then zero bytes up to
      `length` when the text is shorter. */
  function Padded(bytes: seq<Octet>, length: int): seq<Octet>
  {
    if |bytes| < length then bytes + Zeros(length - |bytes|) else bytes
  }

  /** The body is `length` long, or the text's length when that is longer (a
      longer text is never cut); it starts with the text's bytes and every
      byte after them is zero. */
  lemma PaddedLayout(bytes: seq<Octet>, length: int)
    ensures var r := Padded(bytes, length);
      && |r| == (if |bytes| < length then length else |bytes|)
      && r[..|bytes|] == bytes
      && forall k :: |bytes| <= k < |r| ==> r[k] == 0
  {
    if |bytes| < length {
      assert Padded(bytes, length)[..|bytes|] == bytes;
    }
  }

  /** The message the loop sends at index `i`: a bytes message when a bytes
      length is configured, with no properties; a text message otherwise,
      carrying the message group when one is set. */
  function MessageFor(c: Config, i: int, date: string): (m: Message)
    ensures m.BytesMessage? <==> c.bytesLength > -1
    ensures m.TextMessage? <==> c.bytesLength <= -1
  {
    var text := MessageText(i, date);
    if c.bytesLength > -1 then BytesMessage(Padded(Utf8(text), c.bytesLength), map[])
    else TextMessage(text, GroupProperties(c))
  }

  /** The final control message: no body, the message group when one is set. */
  function ControlFor(c: Config): Message
  {
    ControlMessage(GroupProperties(c))
  }

  /** The shape every message a producer with configuration `c` sends has. */
  predicate Shaped(c: Config, m: Message)
  {
    match m
    case BytesMessage(_, p) => c.bytesLength > -1 && p == map[]
    case TextMessage(_, p) => c.bytesLength <= -1 && p == GroupProperties(c)
    case ControlMessage(p) => p == GroupProperties(c)
  }

  /** Bytes messages never carry the group; text messages and the control
      message carry it exactly when it is set. Bytes are sent exactly when a
      bytes length above -1 is configured, and their body is the UTF-8 text
      padded with zeros to that length. */
  lemma MessagesShaped(c: Config, i: int, date: string)
    ensures Shaped(c, MessageFor(c, i, date)) && Shaped(c, ControlFor(c))
    ensures var m := MessageFor(c, i, date);
      m.BytesMessage? ==> m.body == Padded(Utf8(MessageText(i, date)), c.bytesLength)
    ensures var m := MessageFor(c, i, date);
      m.TextMessage? ==> m.text == MessageText(i, date)
  {
  }

  /** A transacted producer with a batch size of zero: `(i + 1) % batchSize`
      throws ArithmeticException after the first send. */
  predicate CommitDividesByZero(c: Config)
  {
    c.transacted && c.batchSize == 0
  }

  /** Whether the commit test after message `i` succeeds: transacted, and
      `i + 1` on a batch boundary. */
  predicate CommitsAfter(c: Config, i: int)
    requires !CommitDividesByZero(c)
  {
    c.transacted && AtBoundary(i + 1, c.batchSize)
  }

  /** One turn of the send loop: send message `i`, sleep, and commit on a
      batch boundary. */
  function SendStep(c: Config, i: int, date: string): seq<Event>
    requires !CommitDividesByZero(c)
  {
    [Sent(MessageFor(c, i, date))] + Pacing(c.perMessageSleepMs) + (if CommitsAfter(c, i) then [Committed] else [])
  }

  /** The first `n` turns of the send loop of worker `w`. */
  function Sends(c: Config, clock: Clock, w: nat, n: int): seq<Event>
    requires !CommitDividesByZero(c)
    decreases n
  {
    if n <= 0 then [] else Sends(c, clock, w, n - 1) + SendStep(c, n - 1, clock(w, n - 1))
  }

  /** One more turn appends that turn's step. */
  lemma SendsUnfold(c: Config, clock: Clock, w: nat, i: nat)
    requires !CommitDividesByZero(c)
    ensures Sends(c, clock, w, i + 1) == Sends(c, clock, w, i) + SendStep(c, i, clock(w, i))
  {
  }

  /** What a stretch of the producer's calls did, and the exception that
      ended it, if one did. */
  datatype Outcome = Outcome(events: seq<Event>, failure: Option<Failure>)

  /** The send loop of worker `w`: `MessagesToSend` turns, unless the first
      commit test divides by zero, which ends the loop right after the first
      message's send and sleep. */
  function SendLoop(c: Config, clock: Clock, w: nat): Outcome
  {
    var n := MessagesToSend(c);
    if n <= 0 then Outcome([], None)
    else if CommitDividesByZero(c) then Outcome([Sent(MessageFor(c, 0, clock(w, 0)))] + Pacing(c.perMessageSleepMs), Some(Arithmetic))
    else Outcome(Sends(c, clock, w, n), None)
  }

  /** After the loop: the control message, when on, and in a transacted
      session a commit after it whatever the batch size. */
  function ControlStep(c: Config): seq<Event>
  {
    if c.useFinalControlMessage then [Sent(ControlFor(c))] + (if c.transacted then [Committed] else []) else []
  }

  // ----- Projections of a trace -----

  /** The messages sent, in order. */
  function SentMessages(t: seq<Event>): seq<Message>
  {
    if t == [] then [] else (if t[0].Sent? then [t[0].message] else []) + SentMessages(t[1..])
  }

  /** For each commit, how many messages had been sent before it, counting
      from `sent`. */
  function CommitCounts(t: seq<Event>, sent: int): seq<int>
  {
    if t == [] then []
    else if t[0].Sent? then CommitCounts(t[1..], sent + 1)
    else (if t[0].Committed? then [sent] else []) + CommitCounts(t[1..], sent)
  }

  lemma {:induction false} SentMessagesAppend(a: seq<Event>, b: seq<Event>)
    ensures SentMessages(a + b) == SentMessages(a) + SentMessages(b)
    decreases |a|
  {
    if a == [] {
      assert a + b == b;
    } else {
      assert (a + b)[0] == a[0] && (a + b)[1..] == a[1..] + b;
      SentMessagesAppend(a[1..], b);
    }
  }

  lemma {:induction false} CommitCountsAppend(a: seq<Event>, b: seq<Event>, sent: int)
    ensures CommitCounts(a + b, sent) == CommitCounts(a, sent) + CommitCounts(b, sent + |SentMessages(a)|)
    decreases |a|
  {
    if a == [] {
      assert a + b == b;
    } else {
      assert (a + b)[0] == a[0] && (a + b)[1..] == a[1..] + b;
      CommitCountsAppend(a[1..], b, if a[0].Sent? then sent + 1 else sent);
    }
  }

  /** A stretch of events with no send and no commit in it. */
  predicate Quiet(t: seq<Event>)
  {
    forall k :: 0 <= k < |t| ==> !t[k].Sent? && !t[k].Committed?
  }

  lemma {:induction false} NoSendsNoCommits(t: seq<Event>, sent: int)
    requires Quiet(t)
    ensures SentMessages(t) == [] && CommitCounts(t, sent) == []
    decreases |t|
  {
    if t != [] {
      assert forall k :: 0 <= k < |t[1..]| ==> t[1..][k] == t[k + 1];
      NoSendsNoCommits(t[1..], sent);
    }
  }

  /** Events that neither send nor commit change neither projection, after a
      trace or before it. */
  lemma QuietTail(t: seq<Event>, e: seq<Event>, sent: int)
    requires Quiet(e)
    ensures SentMessages(t + e) == SentMessages(t) && CommitCounts(t + e, sent) == CommitCounts(t, sent)
  {
    NoSendsNoCommits(e, sent + |SentMessages(t)|);
    SentMessagesAppend(t, e);
    CommitCountsAppend(t, e, sent);
  }

  lemma QuietHead(a: seq<Event>, t: seq<Event>, sent: int)
    requires Quiet(a)
    ensures SentMessages(a + t) == SentMessages(t) && CommitCounts(a + t, sent) == CommitCounts(t, sent)
  {
    NoSendsNoCommits(a, sent);
    SentMessagesAppend(a, t);
    CommitCountsAppend(a, t, sent);
  }

  /** The sends of a trace made of four pieces whose first and last piece
      neither send nor commit. */
  lemma SentMiddle(a: seq<Event>, b: seq<Event>, d: seq<Event>, e: seq<Event>)
    requires Quiet(a) && Quiet(e)
    ensures SentMessages(a + b + d + e) == SentMessages(b) + SentMessages(d)
  {
    QuietTail(a + b + d, e, 0);
    SentMessagesAppend(a + b, d);
    QuietHead(a, b, 0);
  }

  /** The commits of the same four pieces. */
  lemma CommitsMiddle(a: seq<Event>, b: seq<Event>, d: seq<Event>, e: seq<Event>)
    requires Quiet(a) && Quiet(e)
    ensures CommitCounts(a + b + d + e, 0) == CommitCounts(b, 0) + CommitCounts(d, |SentMessages(b)|)
  {
    QuietTail(a + b + d, e, 0);
    CommitCountsAppend(a + b, d, 0);
    QuietHead(a, b, 0);
  }

  /** A trace of one send followed by events that send nothing. */
  lemma OneSend(m: Message, rest: seq<Event>, sent: int)
    requires Quiet(rest)
    ensures SentMessages([Sent(m)] + rest) == [m]
    ensures CommitCounts([Sent(m)] + rest, sent) == []
  {
    var t := [Sent(m)] + rest;
    assert t[0] == Sent(m) && t[1..] == rest;
    NoSendsNoCommits(rest, sent + 1);
  }

  /** One turn of the loop sends its message, and commits at most once, right
      after it, exactly when the commit test succeeds. */
  lemma SendStepProjections(c: Config, i: int, date: string, sent: int)
    requires !CommitDividesByZero(c)
    ensures SentMessages(SendStep(c, i, date)) == [MessageFor(c, i, date)]
    ensures CommitCounts(SendStep(c, i, date), sent) == if CommitsAfter(c, i) then [sent + 1] else []
  {
    SendThenCommit(MessageFor(c, i, date), Pacing(c.perMessageSleepMs), CommitsAfter(c, i), sent);
  }

  /** A send, events that neither send nor commit, and possibly a commit. */
  lemma SendThenCommit(m: Message, quiet: seq<Event>, commits: bool, sent: int)
    requires Quiet(quiet)
    ensures var t := [Sent(m)] + quiet + (if commits then [Committed] else []);
      SentMessages(t) == [m] && CommitCounts(t, sent) == if commits then [sent + 1] else []
  {
    var commit: seq<Event> := if commits then [Committed] else [];
    OneSend(m, quiet, sent);
    SentMessagesAppend([Sent(m)] + quiet, commit);
    CommitCountsAppend([Sent(m)] + quiet, commit, sent);
    if commits {
      assert commit[1..] == [];
    }
  }

  /** The first `n` turns send `n` messages. */
  lemma {:induction false} SendsCount(c: Config, clock: Clock, w: nat, n: int)
    requires !CommitDividesByZero(c)
    ensures |SentMessages(Sends(c, clock, w, n))| == if n > 0 then n else 0
    decreases n
  {
    if n > 0 {
      var before := Sends(c, clock, w, n - 1);
      var step := SendStep(c, n - 1, clock(w, n - 1));
      SendsCount(c, clock, w, n - 1);
      SendStepProjections(c, n - 1, clock(w, n - 1), 0);
      SentMessagesAppend(before, step);
    }
  }

  /** The messages for indices 0 to n - 1 of worker `w`, in order. */
  function Messages(c: Config, clock: Clock, w: nat, n: int): seq<Message>
    decreases n
  {
    if n <= 0 then [] else Messages(c, clock, w, n - 1) + [MessageFor(c, n - 1, clock(w, n - 1))]
  }

  /** Message `i` of the list is the one built for index `i`. */
  lemma {:induction false} MessagesIndex(c: Config, clock: Clock, w: nat, n: int)
    ensures |Messages(c, clock, w, n)| == if n > 0 then n else 0
    ensures forall i :: 0 <= i < n ==> Messages(c, clock, w, n)[i] == MessageFor(c, i, clock(w, i))
    decreases n
  {
    if n > 0 {
      MessagesIndex(c, clock, w, n - 1);
      var before := Messages(c, clock, w, n - 1);
      assert Messages(c, clock, w, n) == before + [MessageFor(c, n - 1, clock(w, n - 1))];
      forall i | 0 <= i < n
        ensures Messages(c, clock, w, n)[i] == MessageFor(c, i, clock(w, i))
      {
        if i < n - 1 {
          assert Messages(c, clock, w, n)[i] == before[i];
        }
      }
    }
  }

  /** Every message of a list has the shape configuration `c` gives. */
  predicate AllShaped(c: Config, ms: seq<Message>)
  {
    forall i :: 0 <= i < |ms| ==> Shaped(c, ms[i])
  }

  lemma AllShapedAppend(c: Config, xs: seq<Message>, ys: seq<Message>)
    requires AllShaped(c, xs) && AllShaped(c, ys)
    ensures AllShaped(c, xs + ys)
  {
    assert forall i :: |xs| <= i < |xs + ys| ==> (xs + ys)[i] == ys[i - |xs|];
  }

  /** The loop's messages all have the configured shape. */
  lemma MessagesAllShaped(c: Config, clock: Clock, w: nat, n: int)
    ensures AllShaped(c, Messages(c, clock, w, n))
  {
    MessagesIndex(c, clock, w, n);
    forall i | 0 <= i < |Messages(c, clock, w, n)|
      ensures Shaped(c, Messages(c, clock, w, n)[i])
    {
      MessagesShaped(c, i, clock(w, i));
    }
  }

  /** The first `n` turns send the messages for indices 0 to n - 1, in order. */
  lemma {:induction false} SendsMessages(c: Config, clock: Clock, w: nat, n: int)
    requires !CommitDividesByZero(c)
    ensures SentMessages(Sends(c, clock, w, n)) == Messages(c, clock, w, n)
    decreases n
  {
    if n > 0 {
      var before := Sends(c, clock, w, n - 1);
      var step := SendStep(c, n - 1, clock(w, n - 1));
      SendsMessages(c, clock, w, n - 1);
      SendStepProjections(c, n - 1, clock(w, n - 1), 0);
      SentMessagesAppend(before, step);
    }
  }

  /** In a transacted session the first `n` turns commit right after the
      sends numbered by the batch boundaries among 1..n, and after no other;
      otherwise they never commit. */
  lemma {:induction false} SendsCommits(c: Config, clock: Clock, w: nat, n: int)
    requires !CommitDividesByZero(c) && n >= 0
    ensures CommitCounts(Sends(c, clock, w, n), 0) == if c.transacted then Boundaries(1, n + 1, c.batchSize) else []
    decreases n
  {
    if n > 0 {
      var before := Sends(c, clock, w, n - 1);
      var step := SendStep(c, n - 1, clock(w, n - 1));
      SendsCommits(c, clock, w, n - 1);
      SendsCount(c, clock, w, n - 1);
      SendStepProjections(c, n - 1, clock(w, n - 1), n - 1);
      assert Sends(c, clock, w, n) == before + step;
      CommitCountsAppend(before, step, 0);
      assert CommitCounts(Sends(c, clock, w, n), 0) == CommitCounts(before, 0) + CommitCounts(step, n - 1);
      if c.transacted {
        BoundariesSplit(1, n, n + 1, c.batchSize);
        assert Boundaries(n, n + 1, c.batchSize) == if AtBoundary(n, c.batchSize) then [n] else [];
        assert CommitCounts(step, n - 1) == Boundaries(n, n + 1, c.batchSize);
      }
    }
  }

  /** The control step sends the control message alone, and commits right
      after it in a transacted session. */
  lemma ControlStepProjections(c: Config, sent: int)
    ensures SentMessages(ControlStep(c)) == if c.useFinalControlMessage then [ControlFor(c)] else []
    ensures CommitCounts(ControlStep(c), sent) ==
      if c.useFinalControlMessage && c.transacted then [sent + 1] else []
  {
    if c.useFinalControlMessage {
      SendThenCommit(ControlFor(c), [], c.transacted, sent);
      assert [Sent(ControlFor(c))] + [] == [Sent(ControlFor(c))];
    }
  }
}
