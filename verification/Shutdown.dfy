/**
 suduo/net/TcpConnection.cpp: when is `shutdown` graceful?

 `SHUT_WR` should go out at most once, with every accepted byte on the wire before it, none
 after it, and no send overtaken.  A call on the loop's thread and a call on another thread
 each keep this over every continuation exactly under a condition on the state they find.
 */
module Shutdowns {
  import opened Bytes
  import opened ConnectionStates
  import opened Connection

  /** At most one `SHUT_WR`, which overtook nothing, and no byte on the wire after it. */
  predicate Orderly(c: Conn) {
    && |c.past.shutAt| <= 1
    && (c.past.shutAt != [] ==> c.past.shutAt[0] == |c.past.wire|)
    && !c.past.overtook
  }

  ghost predicate AlwaysOrderly(cfg: Config, c: Conn) {
    forall events | LegalRun(cfg, c, events) :: Orderly(Run(cfg, c, events))
  }

  /** How many calls of `shutdown` by other threads have passed their test and not run yet. */
  function Pending(c: Conn): nat {
    c.checked[PostedShutdown] + c.owed[PostedShutdown] + multiset(c.posted)[PostedShutdown]
  }

  // What holds before any shutdown, in every run.

  ghost predicate Calm(c: Conn) {
    && (forall q <- c.checked :: !q.PostedSend?)
    && (c.writing ==> c.output != [])
    && (c.past.overtook ==> c.past.shutAt != [])
    && (c.state.Connecting? || c.state.Connected? ==>
          && c.past.shutAt == [] && !c.past.overtook
          && (c.writing <==> c.output != [])
          && (forall q <- c.posted :: q.PostedSend?)
          && (forall q <- c.owed :: q.PostedSend?))
  }

  lemma SendStaysCalm(cfg: Config, c: Conn, payload: seq<byte>, w: WriteResult)
    requires Calm(c) && Offered(|payload|, w)
    ensures Calm(SentInLoop(cfg, c, payload, w))
  {
  }

  lemma WriteStaysCalm(cfg: Config, c: Conn, w: WriteResult)
    requires Calm(c) && Offered(|c.output|, w)
    ensures Calm(Written(cfg, c, w))
  {
    hide Conn.InFlight;
  }

  lemma RunPostedStaysCalm(cfg: Config, c: Conn, q: Posted, w: WriteResult)
    requires Calm(c) && Legal(c, RunPosted(q, w))
    ensures Calm(RanPosted(cfg, c, q, w))
  {
    hide SentInLoop, Conn.InFlight;
    var d := c.(posted := c.posted[1..]);
    assert q in c.posted && forall p <- d.posted :: p in c.posted;
    if q.PostedSend? {
      SendStaysCalm(cfg, d, q.payload, w);
    }
  }

  lemma CloseStaysCalm(c: Conn, e: Event)
    requires Calm(c) && Legal(c, e) && (e.Shutdown? || e.ForceClose?)
    ensures Calm(Called(c, e))
  {
    hide Conn.InFlight;
  }

  lemma CheckStaysCalm(c: Conn, q: Posted)
    requires Calm(c) && Legal(c, Check(q))
    ensures Calm(Checked(c, q))
  {
    hide Conn.InFlight;
  }

  lemma EnqueueStaysCalm(c: Conn, q: Posted)
    requires Calm(c) && Legal(c, Enqueue(q))
    ensures Calm(Enqueued(c, q))
  {
    hide Conn.InFlight;
  }

  lemma CallStaysCalm(c: Conn, e: Event)
    requires Calm(c) && Legal(c, e) && IsCall(e)
    ensures Calm(Called(c, e))
  {
    hide Conn.InFlight, ShutInLoop, Checked, Enqueued;
    match e
    case Check(q) => CheckStaysCalm(c, q);
    case Enqueue(q) => EnqueueStaysCalm(c, q);
    case Commit(q) => assert forall p <- Committed(c, q).checked :: p in c.checked;
    case _ => CloseStaysCalm(c, e);
  }

  lemma TurnStaysCalm(c: Conn, e: Event)
    requires Calm(c) && Legal(c, e) && !IsCall(e)
    ensures Calm(Turned(c, e))
  {
  }

  lemma StepStaysCalm(cfg: Config, c: Conn, e: Event)
    requires Calm(c) && Legal(c, e)
    ensures Calm(Step(cfg, c, e))
  {
    hide SentInLoop, Written, RanPosted, Called, Turned, Calm;
    match e
    case Send(payload, w) => if c.state.Connected? { SendStaysCalm(cfg, c, payload, w); }
    case RunPosted(q, w) => RunPostedStaysCalm(cfg, c, q, w);
    case Writable(w) => WriteStaysCalm(cfg, c, w);
    case _ => if IsCall(e) { CallStaysCalm(c, e); } else { TurnStaysCalm(c, e); }
  }

  lemma {:induction false} RunStaysCalm(cfg: Config, c: Conn, events: seq<Event>)
    requires Calm(c) && LegalRun(cfg, c, events)
    ensures Calm(Run(cfg, c, events))
    decreases |events|
  {
    hide Calm, Step, Legal;
    if events != [] {
      StepStaysCalm(cfg, c, events[0]);
      RunStaysCalm(cfg, Step(cfg, c, events[0]), events[1..]);
    }
  }

  // The condition suffices.

  /** One `SHUT_WR` at most is done, due from a functor, or due from draining the buffer. */
  ghost predicate Settled(c: Conn) {
    && (c.state.Disconnecting? || c.state.Disconnected?)
    && (forall q <- c.checked :: !q.PostedSend?)
    && !c.InFlight()
    && (c.writing ==> c.output != [])
    && |c.past.shutAt| + Pending(c) + (if c.output != [] then 1 else 0) <= 1
    && Orderly(c)
  }

  lemma EmptySend(cfg: Config, c: Conn, w: WriteResult)
    requires Offered(0, w)
    ensures var d := SentInLoop(cfg, c, [], w); d == c.(past := c.past.(payloads := d.past.payloads, notices := d.past.notices))
  {
    assert c.past.wire + [] == c.past.wire && c.output + [] == c.output;
  }

  lemma SendStaysSettled(cfg: Config, c: Conn, payload: seq<byte>, w: WriteResult)
    requires Settled(c) && Offered(|payload|, w) && payload == []
    ensures Settled(SentInLoop(cfg, c, payload, w))
  {
    hide Conn.InFlight, Pending, SentInLoop;
    EmptySend(cfg, c, w);
    SameFlight(c, SentInLoop(cfg, c, payload, w));
  }

  lemma SameFlight(c: Conn, d: Conn)
    requires d.posted == c.posted && d.owed == c.owed && d.checked == c.checked
    ensures d.InFlight() == c.InFlight() && Pending(d) == Pending(c)
  {
  }

  lemma WriteStaysSettled(cfg: Config, c: Conn, w: WriteResult)
    requires Settled(c) && Offered(|c.output|, w)
    ensures Settled(Written(cfg, c, w))
  {
    hide Conn.InFlight, Pending;
    var d := Written(cfg, c, w);
    if c.writing && w.Wrote? && w.n != 0 {
      WriteKeepsPosted(cfg, c, w);
      SameFlight(c, d);
      SameFlight(c, c.(output := c.output[w.n..], writing := false,
                       past := c.past.(wire := c.past.wire + c.output[..w.n], notices := c.past.notices + Completed(cfg))));
    }
  }

  lemma PopCounts(c: Conn)
    requires c.posted != []
    ensures var d := c.(posted := c.posted[1..]);
      && Pending(c) == Pending(d) + (if c.posted[0].PostedShutdown? then 1 else 0)
      && (d.InFlight() ==> c.InFlight())
      && (Carries(c.posted[0]) ==> c.InFlight())
  {
    assert c.posted == [c.posted[0]] + c.posted[1..];
    assert c.posted[0] in c.posted;
  }

  lemma RunPostedStaysSettled(cfg: Config, c: Conn, q: Posted, w: WriteResult)
    requires Settled(c) && Legal(c, RunPosted(q, w))
    ensures Settled(RanPosted(cfg, c, q, w))
  {
    hide SentInLoop, Conn.InFlight, Pending;
    PopCounts(c);
    var d := c.(posted := c.posted[1..]);
    match q
    case PostedSend(payload) => SendStaysSettled(cfg, d, payload, w);
    case PostedShutdown => SameFlight(d, ShutInLoop(d));
    case PostedForceClose => SameFlight(d, if d.Up() then Closed(d) else d);
  }

  /** Neither a call that ends nor a new one raises the counts, as the state is no longer Connected. */
  lemma CallCounts(c: Conn, e: Event)
    requires Legal(c, e) && IsCall(e) && (c.state.Disconnecting? || c.state.Disconnected?)
    requires forall q <- c.checked :: !q.PostedSend?
    ensures var d := Called(c, e);
      && (forall q <- d.checked :: !q.PostedSend?)
      && (d.InFlight() ==> c.InFlight()) && Pending(d) == Pending(c)
      && (d.state.Disconnecting? || d.state.Disconnected?)
      && d.past.shutAt == c.past.shutAt && d.past.overtook == c.past.overtook
  {
    match e
    case ForceClose =>
    case Enqueue(q) =>
      var d := Called(c, e);
      assert forall p <- d.posted :: p in c.posted || p == q;
    case _ =>
  }

  lemma StepStaysSettled(cfg: Config, c: Conn, e: Event)
    requires Settled(c) && Legal(c, e)
    ensures Settled(Step(cfg, c, e))
  {
    hide SentInLoop, Written, RanPosted, Called, Turned, Conn.InFlight, Pending;
    match e
    case Send(_, _) =>
    case RunPosted(q, w) => RunPostedStaysSettled(cfg, c, q, w);
    case Writable(w) => WriteStaysSettled(cfg, c, w);
    case _ =>
      if IsCall(e) {
        CallCounts(c, e);
        CalledKeeps(c, e);
      } else {
        TurnStaysSettled(c, e);
      }
  }

  lemma TurnStaysSettled(c: Conn, e: Event)
    requires Settled(c) && Legal(c, e) && !IsCall(e)
    ensures Settled(Turned(c, e))
  {
    hide Conn.InFlight, Pending;
    TurnedKeeps(c, e);
    SameFlight(c, Turned(c, e));
  }

  lemma {:induction false} SettledStaysOrderly(cfg: Config, c: Conn, events: seq<Event>)
    requires Settled(c) && LegalRun(cfg, c, events)
    ensures Settled(Run(cfg, c, events)) && Orderly(Run(cfg, c, events))
    decreases |events|
  {
    if events != [] {
      hide Step, Legal, Orderly, Conn.InFlight, Pending;
      StepStaysSettled(cfg, c, events[0]);
      SettledStaysOrderly(cfg, Step(cfg, c, events[0]), events[1..]);
    }
  }

  lemma SettledIsAlwaysOrderly(cfg: Config, c: Conn)
    requires Settled(c)
    ensures AlwaysOrderly(cfg, c)
  {
    forall events | LegalRun(cfg, c, events)
      ensures Orderly(Run(cfg, c, events))
    {
      SettledStaysOrderly(cfg, c, events);
    }
  }

  // The condition is needed: otherwise some continuation is not orderly.

  lemma OrderlyNow(cfg: Config, c: Conn)
    requires AlwaysOrderly(cfg, c)
    ensures Orderly(c)
  {
    assert LegalRun(cfg, c, []) && Run(cfg, c, []) == c;
  }

  lemma OrderlyNext(cfg: Config, c: Conn, e: Event)
    requires AlwaysOrderly(cfg, c) && Legal(c, e)
    ensures AlwaysOrderly(cfg, Step(cfg, c, e))
  {
    hide Orderly, Step, Legal;
    forall events | LegalRun(cfg, Step(cfg, c, e), events)
      ensures Orderly(Run(cfg, Step(cfg, c, e), events))
    {
      RunCons(cfg, c, e, events);
    }
  }

  /** Nothing is buffered, so the next send goes to the socket at once. */
  ghost predicate Empty(c: Conn) {
    c.output == [] && !c.writing
  }

  lemma RunWhole(cfg: Config, c: Conn) returns (d: Conn)
    requires AlwaysOrderly(cfg, c) && Empty(c) && c.posted != []
    ensures AlwaysOrderly(cfg, d) && Empty(d)
    ensures d.posted == c.posted[1..] && d.owed == c.owed && d.checked == c.checked
    ensures |d.past.shutAt| == |c.past.shutAt| + if c.posted[0].PostedShutdown? then 1 else 0
  {
    hide Conn.InFlight, AlwaysOrderly;
    var q := c.posted[0];
    var w := Wrote(if q.PostedSend? then |q.payload| else 0);
    OrderlyNext(cfg, c, RunPosted(q, w));
    RunKeepsPosted(cfg, c, q, w);
    d := RanPosted(cfg, c, q, w);
  }

  lemma {:induction false} RunAll(cfg: Config, c: Conn)
    requires AlwaysOrderly(cfg, c) && Empty(c)
    ensures |c.past.shutAt| + multiset(c.posted)[PostedShutdown] <= 1
    decreases |c.posted|
  {
    hide AlwaysOrderly;
    if c.posted == [] {
      OrderlyNow(cfg, c);
    } else {
      var d := RunWhole(cfg, c);
      assert c.posted == [c.posted[0]] + c.posted[1..];
      RunAll(cfg, d);
    }
  }

  /** Every shutdown under way adds a `SHUT_WR` once the buffer is drained. */
  lemma {:induction false} EachPendingShuts(cfg: Config, c: Conn)
    requires AlwaysOrderly(cfg, c) && Empty(c)
    ensures |c.past.shutAt| + Pending(c) <= 1
    decreases c.checked[PostedShutdown] * 2 + c.owed[PostedShutdown]
  {
    hide AlwaysOrderly, Conn.InFlight;
    if PostedShutdown in c.checked {
      OrderlyNext(cfg, c, Commit(PostedShutdown));
      EachPendingShuts(cfg, Committed(c, PostedShutdown));
    } else if PostedShutdown in c.owed {
      OrderlyNext(cfg, c, Enqueue(PostedShutdown));
      EachPendingShuts(cfg, Enqueued(c, PostedShutdown));
    } else {
      RunAll(cfg, c);
    }
  }

  /** Draining the buffer of a Disconnecting connection issues one itself. */
  lemma DrainingShuts(cfg: Config, c: Conn)
    requires AlwaysOrderly(cfg, c) && c.state.Disconnecting? && c.writing && c.output != []
    ensures |c.past.shutAt| + Pending(c) == 0 && !c.InFlight()
  {
    hide AlwaysOrderly, Conn.InFlight, Pending;
    var e := Writable(Wrote(|c.output|));
    OrderlyNext(cfg, c, e);
    var d := Step(cfg, c, e);
    assert d.output == [] && d.past.shutAt == c.past.shutAt + [|d.past.wire|];
    OrderlyNow(cfg, d);
    SameFlight(c, d);
    EachPendingShuts(cfg, d);
    SameFlight(c, c.(output := [], writing := false,
                     past := c.past.(wire := d.past.wire, notices := c.past.notices + Completed(cfg))));
  }

  /** A force close can be overtaken by the write of another, which opens the connection again. */
  lemma StaysDisconnecting(cfg: Config, c: Conn) returns (d: Conn)
    requires AlwaysOrderly(cfg, c) && c.state.Disconnecting? && !c.writing
    requires c.posted != [] && c.posted[0] == PostedForceClose
    ensures AlwaysOrderly(cfg, d) && d.state.Disconnecting? && !d.writing && d.output == c.output
    ensures d.posted == c.posted[1..] && d.owed == c.owed + multiset{PostedForceClose} && d.past == c.past.(shutdownAsked := d.past.shutdownAsked)
  {
    hide AlwaysOrderly, Conn.InFlight;
    var c1 := Checked(c, PostedForceClose);
    OrderlyNext(cfg, c, Check(PostedForceClose));
    OrderlyNext(cfg, c1, RunPosted(PostedForceClose, WouldBlock));
    var c2 := RanPosted(cfg, c1, PostedForceClose, WouldBlock);
    OrderlyNext(cfg, c2, Commit(PostedForceClose));
    d := Committed(c2, PostedForceClose);
  }

  /** A queued shutdown that runs while a send is queued behind it overtakes it. */
  lemma RunningShutOvertakes(cfg: Config, c: Conn)
    requires !c.writing && c.posted != [] && c.posted[0] == PostedShutdown
    requires c.output != [] || exists q <- c.posted :: Carries(q)
    ensures !AlwaysOrderly(cfg, c)
  {
    hide AlwaysOrderly;
    assert c.posted == [PostedShutdown] + c.posted[1..];
    assert forall q <- c.posted :: Carries(q) ==> q in c.posted[1..];
    var d := RanPosted(cfg, c, PostedShutdown, WouldBlock);
    assert !Orderly(d);
    if AlwaysOrderly(cfg, c) {
      OrderlyNext(cfg, c, RunPosted(PostedShutdown, WouldBlock));
      OrderlyNow(cfg, d);
    }
  }

  /** A queued send that is refused gets buffered, and draining it issues one too early. */
  lemma {:induction false} QueuedSendsShut(cfg: Config, c: Conn)
    requires AlwaysOrderly(cfg, c) && c.state.Disconnecting? && Empty(c)
    requires exists q <- c.posted :: Carries(q)
    requires PostedShutdown in c.owed
    ensures false
    decreases |c.posted|
  {
    hide AlwaysOrderly, Conn.InFlight;
    var q := c.posted[0];
    assert c.posted == [q] + c.posted[1..];
    match q
    case PostedShutdown => RunningShutOvertakes(cfg, c);
    case PostedForceClose =>
      var d := StaysDisconnecting(cfg, c);
      QueuedSendsShut(cfg, d);
    case PostedSend(payload) =>
      OrderlyNext(cfg, c, RunPosted(q, WouldBlock));
      RunKeepsPosted(cfg, c, q, WouldBlock);
      var d := RanPosted(cfg, c, q, WouldBlock);
      if payload != [] {
        assert d.output == payload;
        DrainingShuts(cfg, d);
      } else {
        QueuedSendsShut(cfg, d);
      }
  }

  /** Bytes that were left behind by a close cannot be on the wire when the functor runs. */
  lemma {:induction false} LeftBehindShuts(cfg: Config, c: Conn)
    requires AlwaysOrderly(cfg, c) && c.state.Disconnecting? && c.output != [] && !c.writing
    requires PostedShutdown in c.posted
    ensures false
    decreases |c.posted|
  {
    hide AlwaysOrderly, Conn.InFlight;
    var q := c.posted[0];
    assert c.posted == [q] + c.posted[1..];
    match q
    case PostedShutdown => RunningShutOvertakes(cfg, c);
    case PostedForceClose =>
      var d := StaysDisconnecting(cfg, c);
      LeftBehindShuts(cfg, d);
    case PostedSend(payload) =>
      OrderlyNext(cfg, c, RunPosted(q, WouldBlock));
      RunKeepsPosted(cfg, c, q, WouldBlock);
      var d := RanPosted(cfg, c, q, WouldBlock);
      if payload != [] {
        assert PostedShutdown in multiset(d.posted);
        DrainingShuts(cfg, d);
      } else {
        LeftBehindShuts(cfg, d);
      }
  }

  // The two calls.

  /**
   A `shutdown` on the loop's thread, in any reachable state of an established connection,
   stays orderly over every continuation exactly if no bytes of a send are under way from
   another thread, and no other thread is between its test of the state and its write.
   */
  lemma LoopShutdownOrderlyIff(cfg: Config, before: seq<Event>)
    requires LegalRun(cfg, FRESH, before) && Run(cfg, FRESH, before).state.Connected?
    ensures var c := Run(cfg, FRESH, before);
      AlwaysOrderly(cfg, Step(cfg, c, Shutdown)) <==> !c.InFlight() && PostedShutdown !in c.checked
  {
    RunStaysCalm(cfg, FRESH, before);
    LoopShutdown(cfg, Run(cfg, FRESH, before));
  }

  lemma LoopShutdown(cfg: Config, c: Conn)
    requires Calm(c) && c.state.Connected?
    ensures AlwaysOrderly(cfg, Step(cfg, c, Shutdown)) <==> !c.InFlight() && PostedShutdown !in c.checked
  {
    hide AlwaysOrderly, Conn.InFlight;
    var d := Step(cfg, c, Shutdown);
    SameFlight(c, d);
    SameFlight(c, c.(state := Disconnecting, past := Asked(c.past, true)));
    NoneRequested(c);
    if !c.InFlight() && PostedShutdown !in c.checked {
      SettledIsAlwaysOrderly(cfg, d);
    }
    if AlwaysOrderly(cfg, d) {
      if c.output == [] {
        OrderlyNow(cfg, d);
        EachPendingShuts(cfg, d);
      } else {
        DrainingShuts(cfg, d);
      }
    }
  }

  lemma NoneRequested(c: Conn)
    requires Calm(c) && c.state.Connected?
    ensures Pending(c) == c.checked[PostedShutdown]
  {
    assert PostedShutdown !in c.posted && PostedShutdown !in c.owed;
    assert PostedShutdown !in multiset(c.posted);
  }

  /**
   A `shutdown` on another thread, at the write of the state, in any reachable state: it stays
   orderly over every continuation exactly if nothing is buffered, no bytes of a send are
   under way, `SHUT_WR` has not been issued, and no other call of `shutdown` is under way.
   */
  lemma ForeignShutdownOrderlyIff(cfg: Config, before: seq<Event>)
    requires LegalRun(cfg, FRESH, before)
    requires PostedShutdown in Run(cfg, FRESH, before).checked
    ensures var c := Run(cfg, FRESH, before);
      AlwaysOrderly(cfg, Step(cfg, c, Commit(PostedShutdown))) <==>
        c.output == [] && !c.InFlight() && c.past.shutAt == [] && Pending(c) == 1
  {
    RunStaysCalm(cfg, FRESH, before);
    ForeignShutdown(cfg, Run(cfg, FRESH, before));
  }

  lemma ForeignShutdown(cfg: Config, c: Conn)
    requires Calm(c) && PostedShutdown in c.checked
    ensures AlwaysOrderly(cfg, Step(cfg, c, Commit(PostedShutdown)))
      <==> c.output == [] && !c.InFlight() && c.past.shutAt == [] && Pending(c) == 1
  {
    hide AlwaysOrderly, Conn.InFlight;
    var d := Step(cfg, c, Commit(PostedShutdown));
    CommitFlight(c);
    if c.output == [] && !c.InFlight() && c.past.shutAt == [] && Pending(c) == 1 {
      SettledIsAlwaysOrderly(cfg, d);
    }
    if AlwaysOrderly(cfg, d) {
      NothingLeftBehind(cfg, d);
      EachPendingShuts(cfg, d);
      if c.InFlight() {
        SendInTheWay(cfg, d);
      }
    }
  }

  lemma NothingLeftBehind(cfg: Config, d: Conn)
    requires AlwaysOrderly(cfg, d) && d.state.Disconnecting? && PostedShutdown in d.owed
    requires d.writing ==> d.output != []
    ensures Empty(d)
  {
    hide AlwaysOrderly, Conn.InFlight;
    if d.writing {
      DrainingShuts(cfg, d);
    } else if d.output != [] {
      OrderlyNext(cfg, d, Enqueue(PostedShutdown));
      LeftBehindShuts(cfg, Enqueued(d, PostedShutdown));
    }
  }

  lemma CommitFlight(c: Conn)
    requires PostedShutdown in c.checked
    ensures var d := Committed(c, PostedShutdown);
      d.InFlight() == c.InFlight() && Pending(d) == Pending(c) >= 1 && PostedShutdown in d.owed
  {
    var d := Committed(c, PostedShutdown);
    assert forall q <- c.owed :: q in d.owed;
  }

  lemma SendInTheWay(cfg: Config, d: Conn)
    requires AlwaysOrderly(cfg, d) && d.state.Disconnecting? && d.InFlight() && Empty(d)
    requires PostedShutdown in d.owed
    ensures false
  {
    hide AlwaysOrderly;
    if exists q <- d.posted :: Carries(q) {
      QueuedSendsShut(cfg, d);
    } else {
      var q :| q in d.owed && Carries(q);
      OrderlyNext(cfg, d, Enqueue(q));
      var e := Enqueued(d, q);
      assert q in e.posted && PostedShutdown in e.owed;
      QueuedSendsShut(cfg, e);
    }
  }

  /** When it goes out, every accepted byte is on the wire. */
  lemma ShutAfterEveryByte(c: Conn)
    requires Settled(c) && Conserved(c) && c.past.shutAt != []
    ensures c.past.wire == c.Accepted() && c.past.shutAt == [|c.Accepted()|]
  {
    assert c.past.wire + [] == c.past.wire;
  }

  /** The witnesses: the call alone, on a connection with something buffered or a send under way. */
  lemma ForeignShutdownTwice(cfg: Config)
    ensures var before := [Establish, Send([7], WouldBlock), Check(PostedShutdown)];
      && LegalRun(cfg, FRESH, before)
      && !AlwaysOrderly(cfg, Step(cfg, Run(cfg, FRESH, before), Commit(PostedShutdown)))
  {
    hide Flatten, Conn.InFlight, AlwaysOrderly;
    var before := [Establish, Send([7], WouldBlock), Check(PostedShutdown)];
    var c1 := Step(cfg, FRESH, Establish);
    var c2 := Step(cfg, c1, Send([7], WouldBlock));
    assert c2.output == [7] && c2.state.Connected?;
    RunCons(cfg, c2, Check(PostedShutdown), []);
    RunCons(cfg, c1, Send([7], WouldBlock), [Check(PostedShutdown)]);
    RunCons(cfg, FRESH, Establish, [Send([7], WouldBlock), Check(PostedShutdown)]);
    ForeignShutdownOrderlyIff(cfg, before);
  }

  lemma ForeignSendOvertaken(cfg: Config)
    ensures var before := [Establish, Check(PostedSend([7])), Enqueue(PostedSend([7]))];
      && LegalRun(cfg, FRESH, before)
      && !AlwaysOrderly(cfg, Step(cfg, Run(cfg, FRESH, before), Shutdown))
  {
    hide AlwaysOrderly;
    var before := [Establish, Check(PostedSend([7])), Enqueue(PostedSend([7]))];
    var c1 := Step(cfg, FRESH, Establish);
    var c2 := Step(cfg, c1, Check(PostedSend([7])));
    var c3 := Step(cfg, c2, Enqueue(PostedSend([7])));
    assert PostedSend([7]) in c3.posted && Carries(PostedSend([7]));
    RunCons(cfg, c2, Enqueue(PostedSend([7])), []);
    RunCons(cfg, c1, Check(PostedSend([7])), [Enqueue(PostedSend([7]))]);
    RunCons(cfg, FRESH, Establish, [Check(PostedSend([7])), Enqueue(PostedSend([7]))]);
    LoopShutdownOrderlyIff(cfg, before);
  }

  // Callers on the loop's thread only.

  predicate OnLoopThread(events: seq<Event>) {
    forall e <- events :: !e.Check?
  }

  ghost predicate Graceful(c: Conn) {
    && Calm(c) && Conserved(c)
    && c.checked == multiset{} && c.owed == multiset{}
    && (forall p <- c.posted :: p.PostedForceClose?)
    && (c.state.Disconnecting? || c.state.Disconnected? ==> Settled(c))
    && (c.past.shutdownAsked ==> !c.state.Connecting? && !c.state.Connected?)
    && (c.past.shutdownAsked && c.state.Disconnecting? && c.output == [] ==> c.past.shutAt != [])
  }

  lemma CallersStayOnLoop(cfg: Config, c: Conn, e: Event)
    requires Graceful(c) && Legal(c, e) && !e.Check?
    ensures var d := Step(cfg, c, e);
      && d.checked == multiset{} && d.owed == multiset{}
      && forall p <- d.posted :: p.PostedForceClose?
  {
    CallersChange(cfg, c, e);
    PostedChanges(cfg, c, e);
    hide Step;
  }

  lemma NobodyPending(c: Conn)
    requires c.checked == multiset{} && c.owed == multiset{} && forall p <- c.posted :: p.PostedForceClose?
    ensures !c.InFlight() && Pending(c) == 0
  {
    assert PostedShutdown in multiset(c.posted) <==> PostedShutdown in c.posted;
  }

  lemma NoPosted(posted: seq<Posted>)
    ensures posted == [] || exists q :: q in posted
  {
    assert posted == [] || posted[0] in posted;
  }

  lemma NothingPosted(c: Conn)
    requires Graceful(c) && (c.state.Connecting? || c.state.Connected?)
    ensures c.posted == []
  {
    NoPosted(c.posted);
  }

  /** A shutdown, a close or a force close of an established connection settles it. */
  lemma LeavingSettles(cfg: Config, c: Conn, e: Event)
    requires Graceful(c) && Legal(c, e) && !e.Check?
    requires c.state.Connecting? || c.state.Connected?
    requires var d := Step(cfg, c, e).state; d.Disconnecting? || d.Disconnected?
    ensures Settled(Step(cfg, c, e))
  {
    hide Flatten, Conserved, Pending, Conn.InFlight, SentInLoop, RanPosted, Written;
    CallersStayOnLoop(cfg, c, e);
    NobodyPending(Step(cfg, c, e));
    NobodyPending(c);
    NobodyPending(c.(state := Disconnecting, past := Asked(c.past, true)));
    NothingPosted(c);
    match e
    case Send(payload, w) => SendKeepsState(cfg, c, payload, w);
    case Writable(w) => WriteKeepsState(cfg, c, w);
    case _ =>
  }

  lemma SendKeepsState(cfg: Config, c: Conn, payload: seq<byte>, w: WriteResult)
    requires Offered(|payload|, w)
    ensures SentInLoop(cfg, c, payload, w).state == c.state
  {
  }

  lemma WriteKeepsState(cfg: Config, c: Conn, w: WriteResult)
    requires Offered(|c.output|, w)
    ensures Written(cfg, c, w).state == c.state
  {
    hide Conn.InFlight;
  }

  lemma AskedIsIssued(cfg: Config, c: Conn, e: Event)
    requires Graceful(c) && Legal(c, e) && !e.Check?
    ensures var d := Step(cfg, c, e);
      && (d.past.shutdownAsked ==> !d.state.Connecting? && !d.state.Connected?)
      && (d.past.shutdownAsked && d.state.Disconnecting? && d.output == [] ==> d.past.shutAt != [])
  {
    hide Flatten, Conn.InFlight, Pending, Crossing, Completed;
    if e.RunPosted? {
      assert e.q in c.posted;
    }
  }

  lemma StepStaysGraceful(cfg: Config, c: Conn, e: Event)
    requires Graceful(c) && Legal(c, e) && !e.Check?
    ensures Graceful(Step(cfg, c, e))
  {
    StepStaysCalm(cfg, c, e);
    StepConserves(cfg, c, e);
    CallersStayOnLoop(cfg, c, e);
    AskedIsIssued(cfg, c, e);
    if c.state.Disconnecting? || c.state.Disconnected? {
      StepStaysSettled(cfg, c, e);
    } else if Step(cfg, c, e).state.Disconnecting? || Step(cfg, c, e).state.Disconnected? {
      LeavingSettles(cfg, c, e);
    }
    hide Step, Calm, Conserved, Settled;
  }

  /**
   With callers on the loop thread, over every run: `SHUT_WR` is issued at most once; when
   it is, every accepted byte is on the wire; nothing is written afterwards; and once
   shutdown was asked for and the output is drained, it has been issued.
   */
  lemma {:induction false} GracefulShutdown(cfg: Config, c: Conn, events: seq<Event>)
    requires Graceful(c) && LegalRun(cfg, c, events) && OnLoopThread(events)
    ensures var d := Run(cfg, c, events);
      && Graceful(d) && Orderly(d)
      && (d.past.shutAt != [] ==> d.past.wire == d.Accepted())
    decreases |events|
  {
    hide Step, Legal;
    if events == [] {
      if c.past.shutAt != [] {
        ShutAfterEveryByte(c);
      }
    } else {
      assert events[0] in events;
      StepStaysGraceful(cfg, c, events[0]);
      GracefulShutdown(cfg, Step(cfg, c, events[0]), events[1..]);
    }
  }

  lemma FreshIsGraceful()
    ensures Graceful(FRESH)
  {
  }
}
