/** The three ways `ConsumerTool.run` obtains messages (polling receive,
    queue-browser passes, an asynchronous listener), and the run as a whole.
    What the messaging client returns is an input sequence; a loop that runs
    out of input ends `Starved`, meaning the tool would still be waiting. */
module ConsumerLoops {
  import opened JavaLang
  import opened Jms
  import opened Batching
  import opened ConsumerConfig
  import opened ConsumerHandling

  datatype Exit = Finished | Starved | Aborted(failure: Failure)

  /** The events a loop produced, the counter it ended with, how many inputs
      it took, and how it ended. */
  datatype LoopOutcome = LoopOutcome(events: seq<Event>, count: int, used: nat, exit: Exit)

  /** `o` preceded by the events `prefix`, which took `k` inputs. */
  function Then(prefix: seq<Event>, k: nat, o: LoopOutcome): (r: LoopOutcome)
    ensures r.events == prefix + o.events && r.used == k + o.used
    ensures r.count == o.count && r.exit == o.exit
  {
    o.(events := prefix + o.events, used := k + o.used)
  }

  /** The messages among some receive or enumeration results, null ones dropped. */
  function NonNulls(rs: seq<Option<Message>>): (r: seq<Message>)
    ensures |r| <= |rs|
  {
    if rs == [] then [] else (if rs[0].Some? then [rs[0].value] else []) + NonNulls(rs[1..])
  }

  lemma {:induction false} NonNullsAppend(a: seq<Option<Message>>, b: seq<Option<Message>>)
    ensures NonNulls(a + b) == NonNulls(a) + NonNulls(b)
    decreases |a|
  {
    if a == [] {
      assert a + b == b;
    } else {
      assert (a + b)[0] == a[0] && (a + b)[1..] == a[1..] + b;
      NonNullsAppend(a[1..], b);
    }
  }

  /** The results of the receive calls of a trace, in order. */
  function Receipts(t: seq<Event>): seq<Option<Message>>
  {
    if t == [] then [] else (if t[0].Received? then [t[0].result] else []) + Receipts(t[1..])
  }

  /** The non-null results up to some point come first among all of them. */
  lemma NonNullsPrefix(rs: seq<Option<Message>>, k: nat)
    requires k <= |rs|
    ensures NonNulls(rs[..k]) <= NonNulls(rs)
    ensures NonNulls(rs[..k]) == NonNulls(rs)[..|NonNulls(rs[..k])|]
  {
    NonNullsAppend(rs[..k], rs[k..]);
    assert rs[..k] + rs[k..] == rs;
  }

  /** The number of sleeps between polls or passes in a trace. */
  function Waits(t: seq<Event>): nat
  {
    if t == [] then 0 else (if t[0].Waited? then 1 else 0) + Waits(t[1..])
  }

  lemma SingleReceiptsWaits(e: Event)
    ensures Receipts([e]) == if e.Received? then [e.result] else []
    ensures Waits([e]) == if e.Waited? then 1 else 0
  {
    assert [e][1..] == [];
  }

  lemma {:induction false} ReceiptsWaitsAppend(a: seq<Event>, b: seq<Event>)
    ensures Receipts(a + b) == Receipts(a) + Receipts(b)
    ensures Waits(a + b) == Waits(a) + Waits(b)
    decreases |a|
  {
    if a == [] {
      assert a + b == b;
    } else {
      assert (a + b)[0] == a[0] && (a + b)[1..] == a[1..] + b;
      ReceiptsWaitsAppend(a[1..], b);
    }
  }

  /** `handleMessage` neither receives nor waits. */
  lemma {:induction false} HandlingOnly(t: seq<Event>)
    requires forall e :: e in t ==> IsHandlingEvent(e)
    ensures Receipts(t) == [] && Waits(t) == 0
    decreases |t|
  {
    if t != [] {
      assert t[0] in t && IsHandlingEvent(t[0]);
      assert forall e :: e in t[1..] ==> e in t;
      HandlingOnly(t[1..]);
    }
  }

  /** The handling events of a run of `handleMessage` calls. */
  lemma HandleRunOnly(c: Config, count: int, ms: seq<Message>)
    requires !DividesByZero(c)
    ensures Receipts(HandleRun(c, count, ms)) == [] && Waits(HandleRun(c, count, ms)) == 0
  {
    HandleRunCounts(c, count, ms, count);
    HandlingOnly(HandleRun(c, count, ms));
  }

  /** Taking k + 1 elements is taking the first and then k of the rest. */
  lemma TakeCons<T>(s: seq<T>, k: nat)
    requires k < |s|
    ensures s[..k + 1] == [s[0]] + s[1..][..k]
  {
  }

  // ----- Polling -----

  /** The counter after one receive result. */
  function NextCount(r: Option<Message>, count: int): int
  {
    if r.Some? then count + 1 else count
  }

  /** One iteration of the receive loop: the receive call, and the handling
      of what it returned unless that was null. */
  function PollStep(c: Config, r: Option<Message>, count: int): seq<Event>
  {
    [Received(ReceiveFormFor(c.receiveTimeoutMs), r)]
    + (if r.Some? then HandleEffects(c, count + 1, r.value) else [])
  }

  /** The receive loop: while fewer than `numMessages` messages have been
      counted, receive (timed or not, by the receive timeout); a null result
      counts nothing, a message is counted and handled. */
  function Poll(c: Config, rs: seq<Option<Message>>, count: int): LoopOutcome
    decreases |rs|
  {
    if count >= c.numMessages then LoopOutcome([], count, 0, Finished)
    else if rs == [] then LoopOutcome([], count, 0, Starved)
    else if rs[0].Some? && DividesByZero(c) then
      LoopOutcome(PollStep(c, rs[0], count), count + 1, 1, Aborted(Arithmetic))
    else
      Then(PollStep(c, rs[0], count), 1, Poll(c, rs[1..], NextCount(rs[0], count)))
  }

  lemma PollStepProjections(c: Config, r: Option<Message>, count: int)
    requires !DividesByZero(c)
    ensures Receipts(PollStep(c, r, count)) == [r]
    ensures Handling(PollStep(c, r, count)) == if r.Some? then HandleEffects(c, count + 1, r.value) else []
    ensures forall e :: e in PollStep(c, r, count) && e.Received? ==> e.form == ReceiveFormFor(c.receiveTimeoutMs)
  {
    var got := Received(ReceiveFormFor(c.receiveTimeoutMs), r);
    var h := if r.Some? then HandleEffects(c, count + 1, r.value) else [];
    assert PollStep(c, r, count) == [got] + h;
    assert [got][1..] == [];
    assert Receipts([got]) == [r];
    assert Handling([got]) == [];
    if r.Some? {
      HandleEffectsHandled(c, count + 1, r.value, count);
      HandlingOnly(h);
    } else {
      assert Receipts(h) == [] && Handling(h) == [];
    }
    ReceiptsWaitsAppend([got], h);
    HandlingAppend([got], h);
    PollStepForm(c, r, count);
  }

  /** The only receive call of a polling turn is the first event. */
  lemma PollStepForm(c: Config, r: Option<Message>, count: int)
    requires !DividesByZero(c)
    ensures forall e :: e in PollStep(c, r, count) && e.Received? ==> e.form == ReceiveFormFor(c.receiveTimeoutMs)
  {
    var got := Received(ReceiveFormFor(c.receiveTimeoutMs), r);
    var h := if r.Some? then HandleEffects(c, count + 1, r.value) else [];
    assert PollStep(c, r, count) == [got] + h;
    if r.Some? {
      HandleEffectsHandled(c, count + 1, r.value, count);
    }
    forall e | e in PollStep(c, r, count) && e.Received?
      ensures e.form == ReceiveFormFor(c.receiveTimeoutMs)
    {
      assert e in [got] + h;
      assert e !in h by { assert forall x :: x in h ==> IsHandlingEvent(x); }
    }
  }

  /** The counter after the polling loop: raised by one for each message and
      by nothing for a null result; the loop ends as soon as the counter
      reaches `numMessages`, right after the message that took it there, and
      otherwise only when the input runs out. */
  lemma {:induction false} PollCount(c: Config, rs: seq<Option<Message>>, count: int)
    requires !DividesByZero(c)
    ensures Poll(c, rs, count).used <= |rs|
    ensures !Poll(c, rs, count).exit.Aborted?
    ensures Poll(c, rs, count).count == count + |NonNulls(rs[..Poll(c, rs, count).used])|
    ensures Poll(c, rs, count).exit == Finished <==> Poll(c, rs, count).count >= c.numMessages
    ensures Poll(c, rs, count).exit == Starved ==> Poll(c, rs, count).used == |rs|
    ensures Poll(c, rs, count).exit == Finished && count < c.numMessages ==>
      Poll(c, rs, count).count == c.numMessages && Poll(c, rs, count).used >= 1
      && rs[Poll(c, rs, count).used - 1].Some?
    decreases |rs|
  {
    var o := Poll(c, rs, count);
    if count < c.numMessages && rs != [] {
      PollCount(c, rs[1..], NextCount(rs[0], count));
      var rest := Poll(c, rs[1..], NextCount(rs[0], count));
      assert o.used == 1 + rest.used && o.count == rest.count && o.exit == rest.exit;
      TakeCons(rs, rest.used);
      assert NonNulls(rs[..o.used]) == (if rs[0].Some? then [rs[0].value] else []) + NonNulls(rs[1..][..rest.used]);
      if o.exit == Finished && rest.used >= 1 {
        assert rs[o.used - 1] == rs[1..][rest.used - 1];
      }
    } else {
      assert rs[..0] == [];
    }
  }

  /** The polling loop records every receive result it takes, in order, each
      made timed or untimed as the receive timeout says. */
  lemma {:induction false} PollReceipts(c: Config, rs: seq<Option<Message>>, count: int)
    requires !DividesByZero(c)
    ensures Poll(c, rs, count).used <= |rs|
    ensures Receipts(Poll(c, rs, count).events) == rs[..Poll(c, rs, count).used]
    ensures forall e :: e in Poll(c, rs, count).events && e.Received? ==> e.form == ReceiveFormFor(c.receiveTimeoutMs)
    decreases |rs|
  {
    var o := Poll(c, rs, count);
    if count < c.numMessages && rs != [] {
      var step := PollStep(c, rs[0], count);
      PollReceipts(c, rs[1..], NextCount(rs[0], count));
      var rest := Poll(c, rs[1..], NextCount(rs[0], count));
      assert o.events == step + rest.events && o.used == 1 + rest.used;
      TakeCons(rs, rest.used);
      PollStepProjections(c, rs[0], count);
      ReceiptsWaitsAppend(step, rest.events);
    } else {
      assert rs[..0] == [];
    }
  }

  /** The polling loop handles exactly the messages among the results it
      takes, in order, with the counts count+1, count+2, ...: a null result is
      neither counted nor handled, acknowledged or committed. */
  lemma {:induction false} PollHandling(c: Config, rs: seq<Option<Message>>, count: int)
    requires !DividesByZero(c)
    ensures Poll(c, rs, count).used <= |rs|
    ensures Handling(Poll(c, rs, count).events) == HandleRun(c, count, NonNulls(rs[..Poll(c, rs, count).used]))
    decreases |rs|
  {
    var o := Poll(c, rs, count);
    if count < c.numMessages && rs != [] {
      var step := PollStep(c, rs[0], count);
      PollHandling(c, rs[1..], NextCount(rs[0], count));
      var rest := Poll(c, rs[1..], NextCount(rs[0], count));
      var more := NonNulls(rs[1..][..rest.used]);
      assert o.events == step + rest.events && o.used == 1 + rest.used;
      TakeCons(rs, rest.used);
      assert NonNulls(rs[..o.used]) == (if rs[0].Some? then [rs[0].value] else []) + more;
      PollStepProjections(c, rs[0], count);
      HandlingAppend(step, rest.events);
      if rs[0].Some? {
        assert ([rs[0].value] + more)[1..] == more;
        assert HandleRun(c, count, [rs[0].value] + more)
            == HandleEffects(c, count + 1, rs[0].value) + HandleRun(c, count + 1, more);
      } else {
        assert NonNulls(rs[..o.used]) == more;
      }
    } else {
      assert rs[..0] == [];
    }
  }

  /** How many messages a finished loop has handled at the least. */
  function Target(c: Config): nat
  {
    if c.numMessages > 0 then c.numMessages else 0
  }

  /** A polling loop that finishes from zero has handled exactly the first
      `numMessages` messages among the results, null results skipped. */
  lemma PollFinished(c: Config, rs: seq<Option<Message>>)
    requires !DividesByZero(c) && Poll(c, rs, 0).exit == Finished
    ensures |NonNulls(rs)| >= Target(c)
    ensures Handling(Poll(c, rs, 0).events) == HandleRun(c, 0, NonNulls(rs)[..Target(c)])
  {
    PollCount(c, rs, 0);
    PollHandling(c, rs, 0);
    NonNullsPrefix(rs, Poll(c, rs, 0).used);
  }

  // ----- Queue-browser passes -----

  /** What one `getEnumeration` call returns: null, or the messages in it
      (an element may itself be null). */
  type Enumeration = Option<seq<Option<Message>>>

  /** The messages one pass over an enumeration handles. */
  function Browsed(p: Enumeration): seq<Message>
  {
    if p.Some? then NonNulls(p.value) else []
  }

  /** The messages a sequence of passes handles, pass after pass. */
  function BrowsedAll(ps: seq<Enumeration>): seq<Message>
  {
    if ps == [] then [] else Browsed(ps[0]) + BrowsedAll(ps[1..])
  }

  /** The inner loop over one enumeration: every message in it is counted and
      handled, however far that takes the counter past `numMessages`. */
  function Walk(c: Config, p: Enumeration, count: int): LoopOutcome
  {
    var ms := Browsed(p);
    if DividesByZero(c) && ms != [] then
      LoopOutcome(HandleEffects(c, count + 1, ms[0]), count + 1, 0, Aborted(Arithmetic))
    else
      LoopOutcome(HandleRun(c, count, ms), count + |ms|, 0, Finished)
  }

  /** The browser loop from the enumeration `ps[0]` on, the later ones being
      what the following `getEnumeration` calls return: while fewer than
      `numMessages` messages have been counted, walk the current enumeration,
      sleep for the receive timeout (a negative one makes the sleep throw) and
      enumerate again. */
  function BrowseFrom(c: Config, ps: seq<Enumeration>, count: int): LoopOutcome
    requires ps != []
    decreases |ps|
  {
    if count >= c.numMessages then LoopOutcome([], count, 0, Finished)
    else
      var w := Walk(c, ps[0], count);
      if w.exit.Aborted? then w
      else if c.receiveTimeoutMs < 0 then LoopOutcome(w.events, w.count, 0, Aborted(IllegalArgument))
      else if |ps| == 1 then LoopOutcome(Pass(c, ps[0], count, false), w.count, 0, Starved)
      else Then(Pass(c, ps[0], count, true), 1, BrowseFrom(c, ps[1..], w.count))
  }

  /** A completed pass: the walk, the sleep after it and, when there is a
      further enumeration to take, the call that takes it. */
  function Pass(c: Config, p: Enumeration, count: int, more: bool): seq<Event>
  {
    Walk(c, p, count).events + [Waited(c.receiveTimeoutMs)] + (if more then [Enumerated] else [])
  }

  /** The browser strategy: enumerate once, then loop. */
  function Browse(c: Config, ps: seq<Enumeration>): LoopOutcome
  {
    if ps == [] then LoopOutcome([], 0, 0, Starved)
    else Then([Enumerated], 1, BrowseFrom(c, ps, 0))
  }

  /** The passes a browser loop walked: on a finish the enumeration fetched
      last is never walked. */
  function Walked(o: LoopOutcome): nat
  {
    if o.exit == Finished then o.used else o.used + 1
  }

  lemma WalkProjections(c: Config, p: Enumeration, count: int)
    requires !DividesByZero(c)
    ensures Walk(c, p, count).exit == Finished
    ensures Walk(c, p, count).count == count + |Browsed(p)|
    ensures Handling(Walk(c, p, count).events) == HandleRun(c, count, Browsed(p))
    ensures Waits(Walk(c, p, count).events) == 0
  {
    HandleRunCounts(c, count, Browsed(p), count);
    HandleRunOnly(c, count, Browsed(p));
  }

  lemma PassHandling(c: Config, p: Enumeration, count: int, more: bool)
    requires !DividesByZero(c)
    ensures Handling(Pass(c, p, count, more)) == HandleRun(c, count, Browsed(p))
  {
    WalkProjections(c, p, count);
    var walk := Walk(c, p, count).events;
    var sleep: seq<Event> := [Waited(c.receiveTimeoutMs)];
    var tail: seq<Event> := if more then [Enumerated] else [];
    assert Pass(c, p, count, more) == walk + sleep + tail;
    SingleProjections(Waited(c.receiveTimeoutMs), count);
    SingleProjections(Enumerated, count);
    assert Handling(tail) == [];
    HandlingAppend(walk, sleep);
    HandlingAppend(walk + sleep, tail);
  }

  lemma PassWaits(c: Config, p: Enumeration, count: int, more: bool)
    requires !DividesByZero(c)
    ensures Waits(Pass(c, p, count, more)) == 1
  {
    WalkProjections(c, p, count);
    var walk := Walk(c, p, count).events;
    var sleep: seq<Event> := [Waited(c.receiveTimeoutMs)];
    var tail: seq<Event> := if more then [Enumerated] else [];
    assert Pass(c, p, count, more) == walk + sleep + tail;
    SingleReceiptsWaits(Waited(c.receiveTimeoutMs));
    SingleReceiptsWaits(Enumerated);
    assert Waits(tail) == 0;
    ReceiptsWaitsAppend(walk, sleep);
    ReceiptsWaitsAppend(walk + sleep, tail);
  }

  lemma PassProjections(c: Config, p: Enumeration, count: int, more: bool)
    requires !DividesByZero(c)
    ensures Handling(Pass(c, p, count, more)) == HandleRun(c, count, Browsed(p))
    ensures Waits(Pass(c, p, count, more)) == 1
  {
    PassHandling(c, p, count, more);
    PassWaits(c, p, count, more);
  }

  lemma BrowsedAllCons(ps: seq<Enumeration>, k: nat)
    requires k < |ps|
    ensures BrowsedAll(ps[..k + 1]) == Browsed(ps[0]) + BrowsedAll(ps[1..][..k])
  {
    TakeCons(ps, k);
    assert ([ps[0]] + ps[1..][..k])[1..] == ps[1..][..k];
  }

  /** The browser loop with a receive timeout that is not negative: each pass
      it walks handles every message of its enumeration and is followed by
      one sleep, the last pass included; the counter is the number of messages
      in the passes walked; the loop finishes only once the counter has
      reached `numMessages`, and walked its last pass with the counter still
      below it. */
  lemma {:induction false} BrowseFromCount(c: Config, ps: seq<Enumeration>, count: int)
    requires ps != [] && !DividesByZero(c) && c.receiveTimeoutMs >= 0
    ensures BrowseFrom(c, ps, count).used < |ps|
    ensures Walked(BrowseFrom(c, ps, count)) <= |ps|
    ensures !BrowseFrom(c, ps, count).exit.Aborted?
    ensures BrowseFrom(c, ps, count).exit == Starved ==> BrowseFrom(c, ps, count).used == |ps| - 1
    ensures BrowseFrom(c, ps, count).count == count + |BrowsedAll(ps[..Walked(BrowseFrom(c, ps, count))])|
    ensures BrowseFrom(c, ps, count).exit == Finished ==>
      && BrowseFrom(c, ps, count).count >= c.numMessages
      && (Walked(BrowseFrom(c, ps, count)) == 0
          || count + |BrowsedAll(ps[..Walked(BrowseFrom(c, ps, count)) - 1])| < c.numMessages)
    decreases |ps|
  {
    var o := BrowseFrom(c, ps, count);
    if count < c.numMessages {
      WalkProjections(c, ps[0], count);
      var w := Walk(c, ps[0], count);
      if |ps| == 1 {
        assert Walked(o) == 1;
        BrowsedAllCons(ps, 0);
        assert BrowsedAll(ps[1..][..0]) == [];
      } else {
        BrowseFromCount(c, ps[1..], w.count);
        var rest := BrowseFrom(c, ps[1..], w.count);
        assert o.used == 1 + rest.used && o.exit == rest.exit && o.count == rest.count;
        assert Walked(o) == 1 + Walked(rest);
        BrowsedAllCons(ps, Walked(rest));
        if o.exit == Finished && Walked(rest) > 0 {
          BrowsedAllCons(ps, Walked(rest) - 1);
        }
        if o.exit == Finished && Walked(rest) == 0 {
          BrowsedAllCons(ps, 0);
          assert BrowsedAll(ps[1..][..0]) == [];
        }
      }
    } else {
      assert ps[..0] == [];
    }
  }

  /** The handling of the browser loop: the passes walked are handled in
      order, with consecutive counts. */
  lemma {:induction false} BrowseFromHandling(c: Config, ps: seq<Enumeration>, count: int)
    requires ps != [] && !DividesByZero(c) && c.receiveTimeoutMs >= 0
    ensures Walked(BrowseFrom(c, ps, count)) <= |ps|
    ensures Handling(BrowseFrom(c, ps, count).events) == HandleRun(c, count, BrowsedAll(ps[..Walked(BrowseFrom(c, ps, count))]))
    decreases |ps|
  {
    var o := BrowseFrom(c, ps, count);
    if count < c.numMessages {
      WalkProjections(c, ps[0], count);
      if |ps| == 1 {
        PassProjections(c, ps[0], count, false);
        assert o.events == Pass(c, ps[0], count, false) && Walked(o) == 1;
        BrowsedAllCons(ps, 0);
        assert BrowsedAll(ps[1..][..0]) == [];
        assert BrowsedAll(ps[..Walked(o)]) == Browsed(ps[0]) + [] == Browsed(ps[0]);
      } else {
        BrowseFromHandling(c, ps[1..], Walk(c, ps[0], count).count);
        BrowseFromHandlingStep(c, ps, count);
      }
    } else {
      assert ps[..0] == [];
      assert o.events == [] && Walked(o) == 0;
      assert Handling(o.events) == [] == HandleRun(c, count, BrowsedAll(ps[..0]));
    }
  }

  /** The inductive step of `BrowseFromHandling`: one more pass in front. */
  lemma BrowseFromHandlingStep(c: Config, ps: seq<Enumeration>, count: int)
    requires |ps| >= 2 && !DividesByZero(c) && c.receiveTimeoutMs >= 0 && count < c.numMessages
    requires Walked(BrowseFrom(c, ps[1..], Walk(c, ps[0], count).count)) < |ps|
    requires Handling(BrowseFrom(c, ps[1..], Walk(c, ps[0], count).count).events)
      == HandleRun(c, Walk(c, ps[0], count).count,
                   BrowsedAll(ps[1..][..Walked(BrowseFrom(c, ps[1..], Walk(c, ps[0], count).count))]))
    ensures Walked(BrowseFrom(c, ps, count)) <= |ps|
    ensures Handling(BrowseFrom(c, ps, count).events) == HandleRun(c, count, BrowsedAll(ps[..Walked(BrowseFrom(c, ps, count))]))
  {
    var w := Walk(c, ps[0], count);
    var rest := BrowseFrom(c, ps[1..], w.count);
    var pass := Pass(c, ps[0], count, true);
    BrowseFromMore(c, ps, count);
    WalkProjections(c, ps[0], count);
    PassHandling(c, ps[0], count, true);
    PassThenHandling(c, ps, count, pass, w.count, rest);
  }

  /** A pass that handles the first enumeration, followed by a loop outcome
      that handles the enumerations it walked after it. */
  lemma PassThenHandling(c: Config, ps: seq<Enumeration>, count: int, pass: seq<Event>, mid: int, rest: LoopOutcome)
    requires |ps| >= 2 && Walked(rest) < |ps|
    requires mid == count + |Browsed(ps[0])|
    requires Handling(pass) == HandleRun(c, count, Browsed(ps[0]))
    requires Handling(rest.events) == HandleRun(c, mid, BrowsedAll(ps[1..][..Walked(rest)]))
    ensures Walked(Then(pass, 1, rest)) <= |ps|
    ensures Handling(Then(pass, 1, rest).events)
      == HandleRun(c, count, BrowsedAll(ps[..Walked(Then(pass, 1, rest))]))
  {
    var o := Then(pass, 1, rest);
    var later := BrowsedAll(ps[1..][..Walked(rest)]);
    assert Walked(o) == Walked(rest) + 1;
    HandlingAppend(pass, rest.events);
    HandleRunAppend(c, count, Browsed(ps[0]), mid, later);
    BrowsedAllCons(ps, Walked(rest));
  }

  /** A pass that is not the last one is followed by the rest of the loop. */
  lemma BrowseFromMore(c: Config, ps: seq<Enumeration>, count: int)
    requires |ps| >= 2 && !DividesByZero(c) && c.receiveTimeoutMs >= 0 && count < c.numMessages
    ensures BrowseFrom(c, ps, count)
      == Then(Pass(c, ps[0], count, true), 1, BrowseFrom(c, ps[1..], Walk(c, ps[0], count).count))
  {
    WalkProjections(c, ps[0], count);
  }

  /** The browser loop sleeps once after each pass it walks. */
  lemma {:induction false} BrowseFromWaits(c: Config, ps: seq<Enumeration>, count: int)
    requires ps != [] && !DividesByZero(c) && c.receiveTimeoutMs >= 0
    ensures Waits(BrowseFrom(c, ps, count).events) == Walked(BrowseFrom(c, ps, count))
    decreases |ps|
  {
    var o := BrowseFrom(c, ps, count);
    if count < c.numMessages {
      var w := Walk(c, ps[0], count);
      WalkProjections(c, ps[0], count);
      if |ps| == 1 {
        PassProjections(c, ps[0], count, false);
      } else {
        BrowseFromWaits(c, ps[1..], w.count);
        var rest := BrowseFrom(c, ps[1..], w.count);
        PassProjections(c, ps[0], count, true);
        ReceiptsWaitsAppend(Pass(c, ps[0], count, true), rest.events);
      }
    }
  }

  /** A negative receive timeout: the first pass is walked, then the sleep
      after it throws. */
  lemma NegativeTimeoutStopsBrowsing(c: Config, ps: seq<Enumeration>)
    requires ps != [] && !DividesByZero(c) && c.receiveTimeoutMs < 0 && c.numMessages > 0
    ensures Browse(c, ps).exit == Aborted(IllegalArgument)
    ensures Browse(c, ps).used == 1
    ensures Handling(Browse(c, ps).events) == HandleRun(c, 0, Browsed(ps[0]))
  {
    WalkProjections(c, ps[0], 0);
    var w := Walk(c, ps[0], 0);
    assert Browse(c, ps).events == [Enumerated] + w.events;
    SingleProjections(Enumerated, 0);
    HandlingAppend([Enumerated], w.events);
  }

  // ----- The asynchronous listener -----

  /** What the listener's thread of control sees next: the wait loop testing
      the counter, or the client delivering a message to the listener. */
  datatype Tick = Check | Arrival(message: Message)

  /** The wait loop's sleep between two tests of the counter. */
  const LISTENER_WAIT_MS: int := 100

  /** `onMessage` once the delivery has raised the counter to `count`:
      handle the message; an exception from the batch test leaves
      `onMessage` for the client to deal with. */
  function OnMessage(c: Config, count: int, m: Message): seq<Event>
  {
    HandleEffects(c, count, m) + (if DividesByZero(c) then [Raised(Arithmetic)] else [])
  }

  /** The messages delivered in a schedule. */
  function Arrivals(ts: seq<Tick>): seq<Message>
  {
    if ts == [] then [] else (if ts[0].Arrival? then [ts[0].message] else []) + Arrivals(ts[1..])
  }

  lemma {:induction false} ArrivalsAppend(a: seq<Tick>, b: seq<Tick>)
    ensures Arrivals(a + b) == Arrivals(a) + Arrivals(b)
    decreases |a|
  {
    if a == [] {
      assert a + b == b;
    } else {
      assert (a + b)[0] == a[0] && (a + b)[1..] == a[1..] + b;
      ArrivalsAppend(a[1..], b);
    }
  }

  /** The deliveries up to some point come first among all the deliveries. */
  lemma ArrivalsPrefix(ts: seq<Tick>, k: nat)
    requires k <= |ts|
    ensures Arrivals(ts[..k]) <= Arrivals(ts)
  {
    ArrivalsAppend(ts[..k], ts[k..]);
    assert ts[..k] + ts[k..] == ts;
  }

  function ListenStep(c: Config, t: Tick, count: int): seq<Event>
  {
    match t
    case Check => [Waited(LISTENER_WAIT_MS)]
    case Arrival(m) => OnMessage(c, count + 1, m)
  }

  function NextListenCount(t: Tick, count: int): int
  {
    if t.Arrival? then count + 1 else count
  }

  /** The listener strategy once the listener is registered: every delivery
      raises the shared counter and is handled; the wait loop sleeps while the
      counter is below `numMessages` and stops at the first test that finds it
      there or beyond. */
  function Listen(c: Config, ts: seq<Tick>, count: int): LoopOutcome
    decreases |ts|
  {
    if ts == [] then LoopOutcome([], count, 0, Starved)
    else if ts[0].Check? && count >= c.numMessages then LoopOutcome([], count, 1, Finished)
    else Then(ListenStep(c, ts[0], count), 1, Listen(c, ts[1..], NextListenCount(ts[0], count)))
  }

  lemma ListenStepProjections(c: Config, t: Tick, count: int)
    requires !DividesByZero(c)
    ensures Handling(ListenStep(c, t, count)) == if t.Arrival? then HandleEffects(c, count + 1, t.message) else []
    ensures Waits(ListenStep(c, t, count)) == if t.Check? then 1 else 0
  {
    if t.Arrival? {
      var h := HandleEffects(c, count + 1, t.message);
      assert ListenStep(c, t, count) == h + [] == h;
      HandleEffectsHandled(c, count + 1, t.message, count);
      HandlingOnly(h);
    } else {
      SingleProjections(Waited(LISTENER_WAIT_MS), count);
      SingleReceiptsWaits(Waited(LISTENER_WAIT_MS));
    }
  }

  lemma ArrivalsCons(ts: seq<Tick>, k: nat)
    requires k < |ts|
    ensures Arrivals(ts[..k + 1]) == (if ts[0].Arrival? then [ts[0].message] else []) + Arrivals(ts[1..][..k])
  {
    TakeCons(ts, k);
    assert ([ts[0]] + ts[1..][..k])[1..] == ts[1..][..k];
  }

  /** The listener's counter only grows, by one per delivery; the wait loop
      ends at a test of the counter that finds it at `numMessages` or beyond,
      and otherwise only when the schedule runs out. */
  lemma {:induction false} ListenCount(c: Config, ts: seq<Tick>, count: int)
    ensures Listen(c, ts, count).used <= |ts|
    ensures Listen(c, ts, count).count == count + |Arrivals(ts[..Listen(c, ts, count).used])|
    ensures !Listen(c, ts, count).exit.Aborted?
    ensures Listen(c, ts, count).exit == Starved ==> Listen(c, ts, count).used == |ts|
    ensures Listen(c, ts, count).exit == Finished ==>
      && Listen(c, ts, count).used >= 1 && ts[Listen(c, ts, count).used - 1] == Check
      && Listen(c, ts, count).count >= c.numMessages
    decreases |ts|
  {
    var o := Listen(c, ts, count);
    if ts != [] && !(ts[0].Check? && count >= c.numMessages) {
      var next := NextListenCount(ts[0], count);
      ListenCount(c, ts[1..], next);
      var rest := Listen(c, ts[1..], next);
      assert o.used == 1 + rest.used && o.count == rest.count && o.exit == rest.exit;
      ArrivalsCons(ts, rest.used);
      if o.exit == Finished {
        assert ts[o.used - 1] == ts[1..][rest.used - 1];
      }
    } else if ts != [] {
      assert ts[..1] == [ts[0]];
      assert Arrivals(ts[..1]) == [] by { assert ts[..1][1..] == []; }
    } else {
      assert ts[..0] == [];
    }
  }

  /** Every test of the counter before the last one found it below
      `numMessages`: the wait loop stops at the first test that does not. */
  lemma {:induction false} ListenStopsAtFirstCheck(c: Config, ts: seq<Tick>, count: int)
    ensures Listen(c, ts, count).used <= |ts|
    ensures forall j :: 0 <= j < Listen(c, ts, count).used - 1 && ts[j] == Check ==>
      count + |Arrivals(ts[..j])| < c.numMessages
    decreases |ts|
  {
    ListenCount(c, ts, count);
    var o := Listen(c, ts, count);
    if ts != [] && !(ts[0].Check? && count >= c.numMessages) {
      var next := NextListenCount(ts[0], count);
      ListenStopsAtFirstCheck(c, ts[1..], next);
      var rest := Listen(c, ts[1..], next);
      assert o.used == 1 + rest.used;
      forall j | 0 <= j < o.used - 1 && ts[j] == Check
        ensures count + |Arrivals(ts[..j])| < c.numMessages
      {
        if j == 0 {
          assert ts[..0] == [];
        } else {
          ArrivalsCons(ts, j - 1);
          assert ts[1..][j - 1] == ts[j];
        }
      }
    }
  }

  /** Without a division by zero the listener handles exactly the deliveries,
      in order, with consecutive counts. */
  lemma {:induction false} ListenHandling(c: Config, ts: seq<Tick>, count: int)
    requires !DividesByZero(c)
    ensures Listen(c, ts, count).used <= |ts|
    ensures Handling(Listen(c, ts, count).events) == HandleRun(c, count, Arrivals(ts[..Listen(c, ts, count).used]))
    decreases |ts|
  {
    var o := Listen(c, ts, count);
    if ts != [] && !(ts[0].Check? && count >= c.numMessages) {
      var next := NextListenCount(ts[0], count);
      ListenHandling(c, ts[1..], next);
      var rest := Listen(c, ts[1..], next);
      var step := ListenStep(c, ts[0], count);
      var more := Arrivals(ts[1..][..rest.used]);
      assert o.events == step + rest.events && o.used == 1 + rest.used;
      ArrivalsCons(ts, rest.used);
      assert Arrivals(ts[..o.used]) == (if ts[0].Arrival? then [ts[0].message] else []) + more;
      ListenStepProjections(c, ts[0], count);
      HandlingAppend(step, rest.events);
      if ts[0].Arrival? {
        assert ([ts[0].message] + more)[1..] == more;
        assert HandleRun(c, count, [ts[0].message] + more)
            == HandleEffects(c, count + 1, ts[0].message) + HandleRun(c, count + 1, more);
      } else {
        assert Arrivals(ts[..o.used]) == more;
      }
    } else if ts != [] {
      assert ts[..1] == [ts[0]];
      assert Arrivals(ts[..1]) == [] by { assert ts[..1][1..] == []; }
    } else {
      assert ts[..0] == [];
    }
  }

  /** The number of tests of the counter in a schedule. */
  function Checks(ts: seq<Tick>): nat
  {
    if ts == [] then 0 else (if ts[0].Check? then 1 else 0) + Checks(ts[1..])
  }

  lemma ChecksCons(ts: seq<Tick>, k: nat)
    requires k < |ts|
    ensures Checks(ts[..k + 1]) == (if ts[0].Check? then 1 else 0) + Checks(ts[1..][..k])
  {
    TakeCons(ts, k);
    assert ([ts[0]] + ts[1..][..k])[1..] == ts[1..][..k];
  }

  /** Without a division by zero the wait loop sleeps once for each test of
      the counter that finds it below `numMessages`: once per test it takes,
      except the last one when that test ends the loop. */
  lemma {:induction false} ListenWaits(c: Config, ts: seq<Tick>, count: int)
    requires !DividesByZero(c)
    ensures Listen(c, ts, count).used <= |ts|
    ensures Waits(Listen(c, ts, count).events) + (if Listen(c, ts, count).exit == Finished then 1 else 0)
      == Checks(ts[..Listen(c, ts, count).used])
    decreases |ts|
  {
    var o := Listen(c, ts, count);
    if ts != [] && !(ts[0].Check? && count >= c.numMessages) {
      var next := NextListenCount(ts[0], count);
      ListenWaits(c, ts[1..], next);
      var rest := Listen(c, ts[1..], next);
      var step := ListenStep(c, ts[0], count);
      assert o.events == step + rest.events && o.used == 1 + rest.used && o.exit == rest.exit;
      ChecksCons(ts, rest.used);
      ListenStepProjections(c, ts[0], count);
      ReceiptsWaitsAppend(step, rest.events);
    } else if ts != [] {
      assert ts[..1] == [ts[0]];
      assert Checks(ts[..1]) == 1 by { assert ts[..1][1..] == []; }
    } else {
      assert ts[..0] == [];
    }
  }

  /** A listener loop that finishes from zero has handled a prefix of the
      deliveries, in order, at least `numMessages` of them. */
  lemma ListenFinished(c: Config, ts: seq<Tick>)
    requires !DividesByZero(c) && Listen(c, ts, 0).exit == Finished
    ensures HandledMessages(Handling(Listen(c, ts, 0).events)) <= Arrivals(ts)
    ensures |HandledMessages(Handling(Listen(c, ts, 0).events))| >= c.numMessages
  {
    var o := Listen(c, ts, 0);
    ListenCount(c, ts, 0);
    ListenHandling(c, ts, 0);
    ArrivalsPrefix(ts, o.used);
    HandleRunCounts(c, 0, Arrivals(ts[..o.used]), 0);
  }

  // ----- One step of each loop, as the imperative loops take it -----

  lemma ThenThen(events: seq<Event>, i: nat, step: seq<Event>, k: nat, o: LoopOutcome)
    ensures Then(events, i, Then(step, k, o)) == Then(events + step, i + k, o)
  {
    assert events + (step + o.events) == events + step + o.events;
  }

  /** One turn of the polling loop from position `i` of the results. */
  lemma PollUnfold(c: Config, rs: seq<Option<Message>>, i: nat, count: int)
    requires i < |rs| && count < c.numMessages
    ensures rs[i].Some? && DividesByZero(c) ==>
      Poll(c, rs[i..], count) == LoopOutcome(PollStep(c, rs[i], count), count + 1, 1, Aborted(Arithmetic))
    ensures !(rs[i].Some? && DividesByZero(c)) ==>
      Poll(c, rs[i..], count) == Then(PollStep(c, rs[i], count), 1, Poll(c, rs[i + 1..], NextCount(rs[i], count)))
  {
    assert rs[i..][0] == rs[i] && rs[i..][1..] == rs[i + 1..];
  }

  /** The non-null results from index `j` on: `rs[j]`'s message, if any, then
      those after it. */
  lemma NonNullsFrom(rs: seq<Option<Message>>, j: nat)
    requires j < |rs|
    ensures NonNulls(rs[j..]) == (if rs[j].Some? then [rs[j].value] else []) + NonNulls(rs[j + 1..])
  {
    assert rs[j..][1..] == rs[j + 1..];
  }

  /** A walk passes over a null element. */
  lemma WalkSkip(c: Config, elems: seq<Option<Message>>, j: nat, count: int)
    requires j < |elems| && elems[j].None?
    ensures Walk(c, Some(elems[j..]), count) == Walk(c, Some(elems[j + 1..]), count)
  {
    NonNullsFrom(elems, j);
    assert NonNulls(elems[j..]) == NonNulls(elems[j + 1..]);
  }

  /** With a batch size of zero a walk ends at its first message. */
  lemma WalkAbort(c: Config, elems: seq<Option<Message>>, j: nat, count: int)
    requires j < |elems| && elems[j].Some? && DividesByZero(c)
    ensures Walk(c, Some(elems[j..]), count)
      == LoopOutcome(HandleEffects(c, count + 1, elems[j].value), count + 1, 0, Aborted(Arithmetic))
  {
    NonNullsFrom(elems, j);
  }

  /** Otherwise a walk handles the message and goes on with the next element. */
  lemma WalkHandle(c: Config, elems: seq<Option<Message>>, j: nat, count: int)
    requires j < |elems| && elems[j].Some? && !DividesByZero(c)
    ensures Walk(c, Some(elems[j..]), count)
      == Then(HandleEffects(c, count + 1, elems[j].value), 0, Walk(c, Some(elems[j + 1..]), count + 1))
  {
    NonNullsFrom(elems, j);
    HandleRunCons(c, count, elems[j].value, NonNulls(elems[j + 1..]));
  }

  /** One turn of the browser loop from enumeration `k`. */
  lemma BrowseFromUnfold(c: Config, ps: seq<Enumeration>, k: nat, count: int)
    requires k < |ps| && count < c.numMessages
    ensures Walk(c, ps[k], count).exit.Aborted? ==> BrowseFrom(c, ps[k..], count) == Walk(c, ps[k], count)
    ensures !Walk(c, ps[k], count).exit.Aborted? && c.receiveTimeoutMs < 0 ==>
      BrowseFrom(c, ps[k..], count)
        == LoopOutcome(Walk(c, ps[k], count).events, Walk(c, ps[k], count).count, 0, Aborted(IllegalArgument))
    ensures !Walk(c, ps[k], count).exit.Aborted? && c.receiveTimeoutMs >= 0 && k + 1 == |ps| ==>
      BrowseFrom(c, ps[k..], count)
        == LoopOutcome(Pass(c, ps[k], count, false), Walk(c, ps[k], count).count, 0, Starved)
    ensures !Walk(c, ps[k], count).exit.Aborted? && c.receiveTimeoutMs >= 0 && k + 1 < |ps| ==>
      BrowseFrom(c, ps[k..], count)
        == Then(Pass(c, ps[k], count, true), 1, BrowseFrom(c, ps[k + 1..], Walk(c, ps[k], count).count))
  {
    assert ps[k..][0] == ps[k] && ps[k..][1..] == ps[k + 1..];
  }

  /** One turn of the listener schedule from tick `i`. */
  lemma ListenUnfold(c: Config, ts: seq<Tick>, i: nat, count: int)
    requires i < |ts|
    ensures ts[i].Check? && count >= c.numMessages ==> Listen(c, ts[i..], count) == LoopOutcome([], count, 1, Finished)
    ensures !(ts[i].Check? && count >= c.numMessages) ==>
      Listen(c, ts[i..], count) == Then(ListenStep(c, ts[i], count), 1, Listen(c, ts[i + 1..], NextListenCount(ts[i], count)))
  {
    assert ts[i..][0] == ts[i] && ts[i..][1..] == ts[i + 1..];
  }
}
