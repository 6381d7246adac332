/** `handleMessage`: what the consumer does with each message it counts, and
    what a run of such calls adds up to. */
module ConsumerHandling {
  import opened JavaLang
  import opened Jms
  import opened Batching
  import opened ConsumerConfig

  /** `handleMessage` reaches `count % batchSize` with a zero batch size: the
      test is made under client acknowledgement and again in a transacted
      session, and with no batch size it raises ArithmeticException, which the
      method does not catch. */
  predicate DividesByZero(c: Config)
  {
    c.batchSize == 0 && (c.acknowledgeMode == ClientAcknowledge || c.transacted)
  }

  /** The events `handleMessage` itself produces. */
  predicate IsHandlingEvent(e: Event)
  {
    e.Handled? || e.Paced? || e.Acknowledged? || e.Committed?
  }

  /** One call of `handleMessage` with running count `count`: the message is
      handled, the per-message sleep follows when it is positive, then the
      message is acknowledged under client acknowledgement and the session
      committed when transacted, each only on a batch boundary. The two tests
      are independent, so both can fire. A zero batch size stops the call
      at the first of the two tests it reaches. */
  function HandleEffects(c: Config, count: int, m: Message): (r: seq<Event>)
  {
    [Handled(count, m)] + (if DividesByZero(c) then Pacing(c.perMessageSleepMs) else Finish(c, count))
  }

  /** What `handleMessage` does after logging the message, when both batch
      tests can be evaluated. */
  function Finish(c: Config, count: int): seq<Event>
    requires !DividesByZero(c)
  {
    Pacing(c.perMessageSleepMs) + AckStep(c, count) + CommitStep(c, count)
  }

  /** The acknowledge and commit rule: the message is acknowledged exactly
      under client acknowledgement on a batch boundary, the session committed
      exactly when transacted on a batch boundary, independently of each other;
      the per-message sleep happens exactly when it is positive. */
  lemma HandleEffectsRule(c: Config, count: int, m: Message)
    ensures Paced(c.perMessageSleepMs) in HandleEffects(c, count, m) <==> c.perMessageSleepMs > 0
    ensures Acknowledged(count) in HandleEffects(c, count, m) <==>
      c.acknowledgeMode == ClientAcknowledge && c.batchSize != 0 && Rem(count, c.batchSize) == 0
    ensures Committed in HandleEffects(c, count, m) <==>
      c.transacted && c.batchSize != 0 && Rem(count, c.batchSize) == 0
  {
    var r := HandleEffects(c, count, m);
    if DividesByZero(c) {
      assert r == [Handled(count, m)] + Pacing(c.perMessageSleepMs);
    } else {
      assert r == [Handled(count, m)] + Pacing(c.perMessageSleepMs) + AckStep(c, count) + CommitStep(c, count);
    }
  }

  /** Within one call the sleep comes first, then the acknowledgement, then
      the commit. */
  lemma HandleEffectsOrder(c: Config, count: int, m: Message)
    ensures var r := HandleEffects(c, count, m);
      forall i, j :: 0 <= i < j < |r| ==>
        !(r[i].Committed? && (r[j].Acknowledged? || r[j].Paced?)) && !(r[i].Acknowledged? && r[j].Paced?)
  {
    var r := HandleEffects(c, count, m);
    if !DividesByZero(c) {
      var p, a, k := Pacing(c.perMessageSleepMs), AckStep(c, count), CommitStep(c, count);
      assert r == [Handled(count, m)] + p + a + k;
      assert forall i :: 0 <= i < |r| && r[i].Committed? ==> i == |r| - 1;
      assert forall i :: 0 <= i < |r| && r[i].Paced? ==> i == 1;
    }
  }

  /** With the default batch size of 1 every handled message is finalised:
      acknowledged under client acknowledgement, committed when transacted. */
  lemma DefaultBatchFinalisesEveryMessage(c: Config, count: int, m: Message)
    requires c.batchSize == 1
    ensures Acknowledged(count) in HandleEffects(c, count, m) <==> c.acknowledgeMode == ClientAcknowledge
    ensures Committed in HandleEffects(c, count, m) <==> c.transacted
  {
  }

  // ----- Projections of a trace -----

  /** The handling events of a trace, in order. */
  function Handling(t: seq<Event>): (r: seq<Event>)
    ensures |r| <= |t|
    ensures forall e :: e in r ==> IsHandlingEvent(e)
  {
    if t == [] then [] else (if IsHandlingEvent(t[0]) then [t[0]] else []) + Handling(t[1..])
  }

  /** The counts `handleMessage` was called with, in order. */
  function HandledCounts(t: seq<Event>): seq<int>
  {
    if t == [] then [] else (if t[0].Handled? then [t[0].count] else []) + HandledCounts(t[1..])
  }

  /** The messages `handleMessage` was called with, in order. */
  function HandledMessages(t: seq<Event>): seq<Message>
  {
    if t == [] then [] else (if t[0].Handled? then [t[0].message] else []) + HandledMessages(t[1..])
  }

  /** The counts at which a message was acknowledged, in order. */
  function AckedCounts(t: seq<Event>): seq<int>
  {
    if t == [] then [] else (if t[0].Acknowledged? then [t[0].count] else []) + AckedCounts(t[1..])
  }

  /** The count of the most recent handled message, `last` before the first. */
  function LastHandled(t: seq<Event>, last: int): int
  {
    if t == [] then last else LastHandled(t[1..], if t[0].Handled? then t[0].count else last)
  }

  /** For each commit, the count of the message handled most recently before
      it (`last` if none was). */
  function CommitPoints(t: seq<Event>, last: int): seq<int>
  {
    if t == [] then []
    else if t[0].Handled? then CommitPoints(t[1..], t[0].count)
    else (if t[0].Committed? then [last] else []) + CommitPoints(t[1..], last)
  }

  // Every projection distributes over concatenation.

  lemma {:induction false} HandlingAppend(a: seq<Event>, b: seq<Event>)
    ensures Handling(a + b) == Handling(a) + Handling(b)
    decreases |a|
  {
    if a == [] {
      assert a + b == b;
    } else {
      assert (a + b)[0] == a[0] && (a + b)[1..] == a[1..] + b;
      HandlingAppend(a[1..], b);
    }
  }

  lemma {:induction false} HandledCountsAppend(a: seq<Event>, b: seq<Event>)
    ensures HandledCounts(a + b) == HandledCounts(a) + HandledCounts(b)
    decreases |a|
  {
    if a == [] {
      assert a + b == b;
    } else {
      assert (a + b)[0] == a[0] && (a + b)[1..] == a[1..] + b;
      HandledCountsAppend(a[1..], b);
    }
  }

  lemma {:induction false} HandledMessagesAppend(a: seq<Event>, b: seq<Event>)
    ensures HandledMessages(a + b) == HandledMessages(a) + HandledMessages(b)
    decreases |a|
  {
    if a == [] {
      assert a + b == b;
    } else {
      assert (a + b)[0] == a[0] && (a + b)[1..] == a[1..] + b;
      HandledMessagesAppend(a[1..], b);
    }
  }

  lemma {:induction false} AckedAppend(a: seq<Event>, b: seq<Event>)
    ensures AckedCounts(a + b) == AckedCounts(a) + AckedCounts(b)
    decreases |a|
  {
    if a == [] {
      assert a + b == b;
    } else {
      assert (a + b)[0] == a[0] && (a + b)[1..] == a[1..] + b;
      AckedAppend(a[1..], b);
    }
  }

  lemma {:induction false} CommitPointsAppend(a: seq<Event>, b: seq<Event>, last: int)
    ensures LastHandled(a + b, last) == LastHandled(b, LastHandled(a, last))
    ensures CommitPoints(a + b, last) == CommitPoints(a, last) + CommitPoints(b, LastHandled(a, last))
    decreases |a|
  {
    if a == [] {
      assert a + b == b;
    } else {
      assert (a + b)[0] == a[0] && (a + b)[1..] == a[1..] + b;
      CommitPointsAppend(a[1..], b, if a[0].Handled? then a[0].count else last);
    }
  }

  lemma ProjectionsAppend(a: seq<Event>, b: seq<Event>, last: int)
    ensures Handling(a + b) == Handling(a) + Handling(b)
    ensures HandledCounts(a + b) == HandledCounts(a) + HandledCounts(b)
    ensures HandledMessages(a + b) == HandledMessages(a) + HandledMessages(b)
    ensures AckedCounts(a + b) == AckedCounts(a) + AckedCounts(b)
    ensures LastHandled(a + b, last) == LastHandled(b, LastHandled(a, last))
    ensures CommitPoints(a + b, last) == CommitPoints(a, last) + CommitPoints(b, LastHandled(a, last))
  {
    HandlingAppend(a, b);
    HandledCountsAppend(a, b);
    HandledMessagesAppend(a, b);
    AckedAppend(a, b);
    CommitPointsAppend(a, b, last);
  }

  /** The projections of a trace of one event. */
  lemma SingleProjections(e: Event, last: int)
    ensures Handling([e]) == if IsHandlingEvent(e) then [e] else []
    ensures HandledCounts([e]) == if e.Handled? then [e.count] else []
    ensures HandledMessages([e]) == if e.Handled? then [e.message] else []
    ensures AckedCounts([e]) == if e.Acknowledged? then [e.count] else []
    ensures LastHandled([e], last) == if e.Handled? then e.count else last
    ensures CommitPoints([e], last) == if e.Committed? then [last] else []
  {
    assert [e][1..] == [];
  }

  /** A trace with no handled message leaves the handled projections as they were. */
  lemma {:induction false} NoHandledProjections(t: seq<Event>, last: int)
    requires forall e :: e in t ==> !e.Handled?
    ensures HandledCounts(t) == [] && HandledMessages(t) == [] && LastHandled(t, last) == last
    decreases |t|
  {
    if t != [] {
      assert forall e :: e in t[1..] ==> e in t;
      NoHandledProjections(t[1..], last);
    }
  }

  function AckStep(c: Config, count: int): seq<Event>
    requires !DividesByZero(c)
  {
    if c.acknowledgeMode == ClientAcknowledge && AtBoundary(count, c.batchSize) then [Acknowledged(count)] else []
  }

  function CommitStep(c: Config, count: int): seq<Event>
    requires !DividesByZero(c)
  {
    if c.transacted && AtBoundary(count, c.batchSize) then [Committed] else []
  }

  lemma FinishMembers(c: Config, count: int)
    requires !DividesByZero(c)
    ensures forall e :: e in Finish(c, count) ==> !e.Handled? && IsHandlingEvent(e)
  {
  }

  lemma FinishAcked(c: Config, count: int)
    requires !DividesByZero(c)
    ensures AckedCounts(Finish(c, count)) == (if c.acknowledgeMode == ClientAcknowledge && AtBoundary(count, c.batchSize) then [count] else [])
  {
    var pace, ack, commit := Pacing(c.perMessageSleepMs), AckStep(c, count), CommitStep(c, count);
    assert Finish(c, count) == pace + ack + commit;
    AckedAppend(pace, ack);
    AckedAppend(pace + ack, commit);
    assert AckedCounts(pace) == [] by { if pace != [] { assert pace[1..] == []; } }
    assert AckedCounts(commit) == [] by { if commit != [] { assert commit[1..] == []; } }
    assert AckedCounts(ack) == (if ack == [] then [] else [count]) by { if ack != [] { assert ack[1..] == []; } }
  }

  lemma FinishCommits(c: Config, count: int)
    requires !DividesByZero(c)
    ensures CommitPoints(Finish(c, count), count) == (if c.transacted && AtBoundary(count, c.batchSize) then [count] else [])
  {
    var pace, ack, commit := Pacing(c.perMessageSleepMs), AckStep(c, count), CommitStep(c, count);
    assert Finish(c, count) == pace + ack + commit;
    CommitPointsAppend(pace, ack, count);
    CommitPointsAppend(pace + ack, commit, count);
    assert CommitPoints(pace, count) == [] && LastHandled(pace, count) == count by { if pace != [] { assert pace[1..] == []; } }
    assert CommitPoints(ack, count) == [] && LastHandled(ack, count) == count by { if ack != [] { assert ack[1..] == []; } }
    assert CommitPoints(commit, count) == (if commit == [] then [] else [count]) by { if commit != [] { assert commit[1..] == []; } }
    assert LastHandled(pace + ack, count) == count by { CommitPointsAppend(pace, ack, count); }
  }

  lemma FinishHandling(c: Config, count: int)
    requires !DividesByZero(c)
    ensures Handling(Finish(c, count)) == Finish(c, count)
  {
    var pace, ack, commit := Pacing(c.perMessageSleepMs), AckStep(c, count), CommitStep(c, count);
    assert Finish(c, count) == pace + ack + commit;
    HandlingAppend(pace, ack);
    HandlingAppend(pace + ack, commit);
    assert Handling(pace) == pace by { if pace != [] { assert pace[1..] == []; } }
    assert Handling(ack) == ack by { if ack != [] { assert ack[1..] == []; } }
    assert Handling(commit) == commit by { if commit != [] { assert commit[1..] == []; } }
  }

  lemma FinishProjections(c: Config, count: int)
    requires !DividesByZero(c)
    ensures forall e :: e in Finish(c, count) ==> !e.Handled? && IsHandlingEvent(e)
    ensures AckedCounts(Finish(c, count)) == (if c.acknowledgeMode == ClientAcknowledge && AtBoundary(count, c.batchSize) then [count] else [])
    ensures CommitPoints(Finish(c, count), count) == (if c.transacted && AtBoundary(count, c.batchSize) then [count] else [])
    ensures Handling(Finish(c, count)) == Finish(c, count)
  {
    FinishMembers(c, count);
    FinishAcked(c, count);
    FinishCommits(c, count);
    FinishHandling(c, count);
  }

  /** One call of `handleMessage` handles exactly its own message. */
  lemma HandleEffectsHandled(c: Config, count: int, m: Message, last: int)
    requires !DividesByZero(c)
    ensures var r := HandleEffects(c, count, m);
      && Handling(r) == r
      && HandledCounts(r) == [count]
      && HandledMessages(r) == [m]
      && LastHandled(r, last) == count
  {
    var r := HandleEffects(c, count, m);
    var f := Finish(c, count);
    assert r == [Handled(count, m)] + f;
    assert r[0] == Handled(count, m) && r[1..] == f;
    FinishProjections(c, count);
    NoHandledProjections(f, count);
  }

  /** One call of `handleMessage` acknowledges and commits at most its own count. */
  lemma HandleEffectsFinalised(c: Config, count: int, m: Message, last: int)
    requires !DividesByZero(c)
    ensures var r := HandleEffects(c, count, m);
      && AckedCounts(r) == (if c.acknowledgeMode == ClientAcknowledge && AtBoundary(count, c.batchSize) then [count] else [])
      && CommitPoints(r, last) == (if c.transacted && AtBoundary(count, c.batchSize) then [count] else [])
  {
    var r := HandleEffects(c, count, m);
    var f := Finish(c, count);
    assert r == [Handled(count, m)] + f;
    assert r[0] == Handled(count, m) && r[1..] == f;
    FinishProjections(c, count);
  }

  // ----- A run of handled messages -----

  /** The consecutive calls of `handleMessage` for the messages `ms`, the
      first of them counted as `count + 1`. */
  function HandleRun(c: Config, count: int, ms: seq<Message>): (r: seq<Event>)
    decreases |ms|
  {
    if ms == [] then [] else HandleEffects(c, count + 1, ms[0]) + HandleRun(c, count + 1, ms[1..])
  }

  /** `HandleRun` with one message in front. */
  lemma HandleRunCons(c: Config, count: int, m: Message, ms: seq<Message>)
    ensures HandleRun(c, count, [m] + ms) == HandleEffects(c, count + 1, m) + HandleRun(c, count + 1, ms)
  {
    assert ([m] + ms)[1..] == ms;
  }

  /** The handling of two runs of messages, one after the other, is the
      handling of the whole run, the second counted on from where the first
      ended. */
  lemma {:induction false} HandleRunAppend(c: Config, count: int, ms1: seq<Message>, mid: int, ms2: seq<Message>)
    requires mid == count + |ms1|
    ensures HandleRun(c, count, ms1) + HandleRun(c, mid, ms2) == HandleRun(c, count, ms1 + ms2)
    decreases |ms1|
  {
    if ms1 == [] {
      assert ms1 + ms2 == ms2;
    } else {
      var m, rest := ms1[0], ms1[1..];
      var h := HandleEffects(c, count + 1, m);
      assert HandleRun(c, count, ms1) == h + HandleRun(c, count + 1, rest) by {
        assert ms1 == [m] + rest;
        HandleRunCons(c, count, m, rest);
      }
      assert HandleRun(c, count, ms1 + ms2) == h + HandleRun(c, count + 1, rest + ms2) by {
        assert ms1 + ms2 == [m] + (rest + ms2);
        HandleRunCons(c, count, m, rest + ms2);
      }
      HandleRunAppend(c, count + 1, rest, mid, ms2);
    }
  }

  /** A run of `handleMessage` calls produces handling events only. */
  lemma {:induction false} HandleRunHandling(c: Config, count: int, ms: seq<Message>)
    requires !DividesByZero(c)
    ensures Handling(HandleRun(c, count, ms)) == HandleRun(c, count, ms)
    decreases |ms|
  {
    if ms != [] {
      var h := HandleEffects(c, count + 1, ms[0]);
      var rest := HandleRun(c, count + 1, ms[1..]);
      assert HandleRun(c, count, ms) == h + rest;
      HandleEffectsHandled(c, count + 1, ms[0], count);
      HandleRunHandling(c, count + 1, ms[1..]);
      HandlingAppend(h, rest);
    }
  }

  /** A run of `handleMessage` calls handles the messages in the order they came. */
  lemma {:induction false} HandleRunMessages(c: Config, count: int, ms: seq<Message>)
    requires !DividesByZero(c)
    ensures HandledMessages(HandleRun(c, count, ms)) == ms
    decreases |ms|
  {
    if ms != [] {
      var h := HandleEffects(c, count + 1, ms[0]);
      var rest := HandleRun(c, count + 1, ms[1..]);
      assert HandleRun(c, count, ms) == h + rest;
      HandleEffectsHandled(c, count + 1, ms[0], count);
      HandleRunMessages(c, count + 1, ms[1..]);
      HandledMessagesAppend(h, rest);
      assert ms == [ms[0]] + ms[1..];
    }
  }

  /** A run of `handleMessage` calls sees the counts count+1, count+2, ... in order. */
  lemma {:induction false} HandleRunCountsInOrder(c: Config, count: int, ms: seq<Message>)
    requires !DividesByZero(c)
    ensures |HandledCounts(HandleRun(c, count, ms))| == |ms|
    ensures forall i :: 0 <= i < |ms| ==> HandledCounts(HandleRun(c, count, ms))[i] == count + 1 + i
    decreases |ms|
  {
    if ms != [] {
      var h := HandleEffects(c, count + 1, ms[0]);
      var rest := HandleRun(c, count + 1, ms[1..]);
      assert HandleRun(c, count, ms) == h + rest;
      HandleEffectsHandled(c, count + 1, ms[0], count);
      HandleRunCountsInOrder(c, count + 1, ms[1..]);
      HandledCountsAppend(h, rest);
      var hc := HandledCounts(HandleRun(c, count, ms));
      assert hc == [count + 1] + HandledCounts(rest);
      forall i | 0 <= i < |ms|
        ensures hc[i] == count + 1 + i
      {
        if i > 0 {
          assert hc[i] == HandledCounts(rest)[i - 1];
        }
      }
    }
  }

  /** After a run of `handleMessage` calls the last handled count is the run's last. */
  lemma {:induction false} HandleRunLast(c: Config, count: int, ms: seq<Message>, last: int)
    requires !DividesByZero(c)
    ensures LastHandled(HandleRun(c, count, ms), last) == (if ms == [] then last else count + |ms|)
    decreases |ms|
  {
    if ms != [] {
      var h := HandleEffects(c, count + 1, ms[0]);
      var rest := HandleRun(c, count + 1, ms[1..]);
      assert HandleRun(c, count, ms) == h + rest;
      HandleEffectsHandled(c, count + 1, ms[0], last);
      HandleRunLast(c, count + 1, ms[1..], count + 1);
      CommitPointsAppend(h, rest, last);
    }
  }

  /** The handling of the messages `ms` counted from `count + 1`:
      `handleMessage` sees the counts count+1, count+2, ... in order, with the
      messages in the order they came. */
  lemma HandleRunCounts(c: Config, count: int, ms: seq<Message>, last: int)
    requires !DividesByZero(c)
    ensures var r := HandleRun(c, count, ms);
      && Handling(r) == r
      && HandledMessages(r) == ms
      && |HandledCounts(r)| == |ms|
      && (forall i :: 0 <= i < |ms| ==> HandledCounts(r)[i] == count + 1 + i)
      && LastHandled(r, last) == (if ms == [] then last else count + |ms|)
  {
    HandleRunHandling(c, count, ms);
    HandleRunMessages(c, count, ms);
    HandleRunCountsInOrder(c, count, ms);
    HandleRunLast(c, count, ms, last);
  }

  /** Under client acknowledgement the acknowledged counts are exactly the
      batch boundaries among the handled counts; otherwise nothing is
      acknowledged. */
  lemma {:induction false} HandleRunAcks(c: Config, count: int, ms: seq<Message>)
    requires !DividesByZero(c)
    ensures AckedCounts(HandleRun(c, count, ms)) ==
      (if c.acknowledgeMode == ClientAcknowledge then Boundaries(count + 1, count + 1 + |ms|, c.batchSize) else [])
    decreases |ms|
  {
    if ms != [] {
      var h := HandleEffects(c, count + 1, ms[0]);
      var rest := HandleRun(c, count + 1, ms[1..]);
      assert HandleRun(c, count, ms) == h + rest;
      HandleEffectsFinalised(c, count + 1, ms[0], count);
      HandleRunAcks(c, count + 1, ms[1..]);
      AckedAppend(h, rest);
      assert count + 1 + 1 + |ms[1..]| == count + 1 + |ms|;
      if c.acknowledgeMode == ClientAcknowledge {
        var b := c.batchSize;
        assert Boundaries(count + 1, count + 1 + |ms|, b) ==
          (if AtBoundary(count + 1, b) then [count + 1] else []) + Boundaries(count + 2, count + 1 + |ms|, b);
      }
    }
  }

  /** In a transacted session the session commits right after handling each
      count on a batch boundary and after no other; otherwise never. */
  lemma {:induction false} HandleRunCommits(c: Config, count: int, ms: seq<Message>, last: int)
    requires !DividesByZero(c)
    ensures CommitPoints(HandleRun(c, count, ms), last) ==
      (if c.transacted then Boundaries(count + 1, count + 1 + |ms|, c.batchSize) else [])
    decreases |ms|
  {
    if ms != [] {
      HandleRunCommits(c, count + 1, ms[1..], count + 1);
      HandleRunCommitsStep(c, count, ms, last);
    }
  }

  /** The inductive step of `HandleRunCommits`: one more message in front. */
  lemma HandleRunCommitsStep(c: Config, count: int, ms: seq<Message>, last: int)
    requires !DividesByZero(c) && ms != []
    requires CommitPoints(HandleRun(c, count + 1, ms[1..]), count + 1) ==
      (if c.transacted then Boundaries(count + 2, count + 1 + |ms|, c.batchSize) else [])
    ensures CommitPoints(HandleRun(c, count, ms), last) ==
      (if c.transacted then Boundaries(count + 1, count + 1 + |ms|, c.batchSize) else [])
  {
    var h := HandleEffects(c, count + 1, ms[0]);
    var rest := HandleRun(c, count + 1, ms[1..]);
    assert HandleRun(c, count, ms) == h + rest;
    HandleEffectsFinalised(c, count + 1, ms[0], last);
    CommitPointsAppend(h, rest, last);
    if c.transacted {
      var b := c.batchSize;
      assert Boundaries(count + 1, count + 1 + |ms|, b) ==
        (if AtBoundary(count + 1, b) then [count + 1] else []) + Boundaries(count + 2, count + 1 + |ms|, b);
    }
  }

  /** With batch size b and client acknowledgement, handling the first n
      messages acknowledges n / b of them. */
  lemma AcknowledgementCount(c: Config, ms: seq<Message>)
    requires c.acknowledgeMode == ClientAcknowledge && c.batchSize >= 1
    ensures |AckedCounts(HandleRun(c, 0, ms))| == |ms| / c.batchSize
  {
    HandleRunAcks(c, 0, ms);
    BoundaryCount(|ms|, c.batchSize);
  }

  /** The handled messages, the acknowledgements and the commits of a trace
      can be read off its handling events alone. */
  lemma {:induction false} HandlingKeepsProjections(t: seq<Event>, last: int)
    ensures HandledMessages(Handling(t)) == HandledMessages(t)
    ensures AckedCounts(Handling(t)) == AckedCounts(t)
    ensures CommitPoints(Handling(t), last) == CommitPoints(t, last)
    decreases |t|
  {
    if t != [] {
      var head := if IsHandlingEvent(t[0]) then [t[0]] else [];
      assert Handling(t) == head + Handling(t[1..]);
      assert t == [t[0]] + t[1..];
      SingleProjections(t[0], last);
      HandlingKeepsProjections(t[1..], LastHandled([t[0]], last));
      HandledMessagesAppend(head, Handling(t[1..]));
      HandledMessagesAppend([t[0]], t[1..]);
      AckedAppend(head, Handling(t[1..]));
      AckedAppend([t[0]], t[1..]);
      CommitPointsAppend(head, Handling(t[1..]), last);
      CommitPointsAppend([t[0]], t[1..], last);
      if !IsHandlingEvent(t[0]) {
        assert head == [];
        assert Handling(t) == Handling(t[1..]);
      }
    }
  }

  /** A trace without handling events has none of the handled projections. */
  lemma NoHandling(t: seq<Event>)
    requires forall e :: e in t ==> !IsHandlingEvent(e)
    ensures Handling(t) == []
    decreases |t|
  {
    if t != [] {
      assert t[0] in t;
      assert forall e :: e in t[1..] ==> e in t;
      NoHandling(t[1..]);
    }
  }
}
