/**
 suduo/net/TcpConnection.cpp as a state machine over its handlers.

 `Conn` is the connection's state together with its history: what was given to the socket,
 which payloads were accepted, which notices were queued and where `SHUT_WR` was issued.
 The kernel is free: a write takes any prefix of what it is offered or fails.
 */
module Connection {
  import opened Bytes
  import opened Buffers
  import opened ConnectionStates

  /** A `write` call.  `PeerGone` is EPIPE or ECONNRESET. */
  datatype WriteResult = Wrote(n: nat) | WouldBlock | PeerGone | OtherError

  datatype Notice = WriteComplete | HighWater(len: nat)

  /** Functors that calls from outside the handlers leave with the loop. */
  datatype Posted = PostedSend(payload: seq<byte>) | PostedShutdown | PostedForceClose

  /** A send that still has bytes to bring. */
  predicate Carries(q: Posted) {
    q.PostedSend? && q.payload != []
  }

  /** Which callbacks the user has set. */
  datatype Config = Config(writeComplete: bool, highWaterMark: Option<nat>)

  /** What the socket was given, what was taken and announced, and where `SHUT_WR` fell. */
  datatype History = History(
    wire: seq<byte>,
    payloads: seq<seq<byte>>,
    notices: seq<Notice>,
    shutdownAsked: bool,
    shutAt: seq<nat>,
    overtook: bool)

  datatype Conn = Conn(
    state: State,
    wantsRead: bool,
    reading: bool,
    writing: bool,
    output: seq<byte>,
    input: seq<byte>,
    posted: seq<Posted>,
    // other threads: those that found the state open, and those that owe the loop a functor
    checked: multiset<Posted>,
    owed: multiset<Posted>,
    past: History)
  {
    predicate Up() {
      IsOpen(state)
    }

    /** A call of `send` that passed its test has bytes that `send_in_loop` has not seen. */
    predicate InFlight() {
      (exists q <- posted :: Carries(q)) || (exists q <- owed :: Carries(q))
    }

    /** Everything the connection took responsibility for. */
    function Accepted(): seq<byte> {
      Flatten(past.payloads)
    }
  }

  const FRESH := Conn(Connecting, true, false, false, [], [], [], multiset{}, multiset{},
    History([], [], [], false, [], false))

  /**
   `Send`, `Shutdown` and `ForceClose` are calls on the loop's thread.  A call on another
   thread is up to three events: it tests the state (`Check`), writes it if it is a shutdown
   or a close (`Commit`), and queues its functor (`Enqueue`).
   */
  datatype Event =
    | Establish
    | Send(payload: seq<byte>, w: WriteResult)
    | Shutdown
    | ForceClose
    | Check(q: Posted)
    | Commit(q: Posted)
    | Enqueue(q: Posted)
    | RunPosted(q: Posted, w: WriteResult)
    | Writable(w: WriteResult)
    | Read(result: ReadResult)
    | PeerClosed
    | StartRead
    | StopRead
    | Destroy

  predicate Offered(len: nat, w: WriteResult) {
    w.Wrote? ==> w.n <= len
  }

  /** What the loop, the poller and the kernel guarantee. */
  predicate Legal(c: Conn, e: Event) {
    match e
    case Establish => c.state.Connecting?
    case Send(payload, w) => Offered(|payload|, w)
    case Check(q) => if q.PostedForceClose? then c.Up() else c.state.Connected?
    case Commit(q) => q in c.checked
    case Enqueue(q) => q in c.owed
    case RunPosted(q, w) => c.posted != [] && c.posted[0] == q && (q.PostedSend? ==> Offered(|q.payload|, w))
    case Writable(w) => Offered(|c.output|, w)
    case Read(_) => c.reading || c.writing
    case PeerClosed => c.reading || c.writing
    case _ => true
  }

  /** `send_in_loop` is offered to the socket directly only when nothing waits before it. */
  predicate Direct(c: Conn) {
    !c.writing && c.output == []
  }

  /** Nothing of the payload is kept: the peer is gone, or writing no bytes at all failed. */
  predicate Dropped(c: Conn, payload: seq<byte>, w: WriteResult) {
    Direct(c) && (w.PeerGone? || (payload == [] && !w.Wrote?))
  }

  function Crossing(cfg: Config, before: nat, after: nat): seq<Notice> {
    match cfg.highWaterMark
    case Some(mark) => if before < mark <= after then [HighWater(after)] else []
    case None => []
  }

  function Completed(cfg: Config): seq<Notice> {
    if cfg.writeComplete then [WriteComplete] else []
  }

  function SentInLoop(cfg: Config, c: Conn, payload: seq<byte>, w: WriteResult): Conn
    requires Offered(|payload|, w)
  {
    if c.state.Disconnected? || Dropped(c, payload, w) then c
    else
      var n := if Direct(c) && w.Wrote? then w.n else 0;
      var rest := payload[n..];
      c.(output := c.output + rest,
         writing := c.writing || rest != [],
         past := c.past.(wire := c.past.wire + payload[..n],
                         payloads := c.past.payloads + [payload],
                         notices := c.past.notices
                           + (if rest != [] then Crossing(cfg, |c.output|, |c.output + rest|)
                              else if Direct(c) && w.Wrote? then Completed(cfg)
                              else [])))
  }

  function ShutInLoop(c: Conn): Conn {
    if c.writing then c
    else
      c.(past := c.past.(shutAt := c.past.shutAt + [|c.past.wire|],
                         overtook := c.past.overtook || c.output != [] || c.InFlight()))
  }

  function Closed(c: Conn): Conn {
    c.(state := Disconnected, reading := false, writing := false)
  }

  /** The last buffered byte has gone out. */
  function Drained(cfg: Config, c: Conn): Conn {
    var d := c.(writing := false, past := c.past.(notices := c.past.notices + Completed(cfg)));
    if d.state.Disconnecting? then ShutInLoop(d) else d
  }

  function Written(cfg: Config, c: Conn, w: WriteResult): Conn
    requires Offered(|c.output|, w)
  {
    if !c.writing || !w.Wrote? || w.n == 0 then c
    else
      var d := c.(output := c.output[w.n..], past := c.past.(wire := c.past.wire + c.output[..w.n]));
      if d.output == [] then Drained(cfg, d) else d
  }

  function RanPosted(cfg: Config, c: Conn, q: Posted, w: WriteResult): Conn
    requires Legal(c, RunPosted(q, w))
  {
    var d := c.(posted := c.posted[1..]);
    match q
    case PostedSend(payload) => SentInLoop(cfg, d, payload, w)
    case PostedShutdown => ShutInLoop(d)
    case PostedForceClose => if d.Up() then Closed(d) else d
  }

  function Asked(h: History, shutdown: bool): History {
    h.(shutdownAsked := h.shutdownAsked || shutdown)
  }

  function Checked(c: Conn, q: Posted): Conn {
    if q.PostedSend? then c.(owed := c.owed + multiset{q}) else c.(checked := c.checked + multiset{q})
  }

  function Committed(c: Conn, q: Posted): Conn {
    c.(state := Disconnecting, past := Asked(c.past, q.PostedShutdown?),
       checked := c.checked - multiset{q}, owed := c.owed + multiset{q})
  }

  function Enqueued(c: Conn, q: Posted): Conn {
    c.(owed := c.owed - multiset{q}, posted := c.posted + [q])
  }

  /** Calls of users, on the loop's thread and on others. */
  function Called(c: Conn, e: Event): Conn {
    match e
    case Shutdown =>
      if c.state.Connected? then ShutInLoop(c.(state := Disconnecting, past := Asked(c.past, true))) else c
    case ForceClose =>
      if c.Up() then c.(state := Disconnecting, posted := c.posted + [PostedForceClose]) else c
    case Check(q) => Checked(c, q)
    case Commit(q) => Committed(c, q)
    case Enqueue(q) => Enqueued(c, q)
    case _ => c
  }

  /** The handlers that move no output. */
  function Turned(c: Conn, e: Event): Conn {
    match e
    case Establish => c.(state := Connected, reading := true)
    case Read(ReadError(_)) => c
    case Read(ReadBytes(bytes)) => if bytes == [] then Closed(c) else c.(input := c.input + bytes)
    case PeerClosed => Closed(c)
    case StartRead => c.(wantsRead := true, reading := true)
    case StopRead => c.(wantsRead := false, reading := false)
    case Destroy => if c.state.Connected? then Closed(c) else c
    case _ => c
  }

  predicate IsCall(e: Event) {
    e.Shutdown? || e.ForceClose? || e.Check? || e.Commit? || e.Enqueue?
  }

  /** The events that move no output. */
  function Controlled(c: Conn, e: Event): Conn {
    if IsCall(e) then Called(c, e) else Turned(c, e)
  }

  function Step(cfg: Config, c: Conn, e: Event): Conn
    requires Legal(c, e)
  {
    match e
    case Send(payload, w) => if c.state.Connected? then SentInLoop(cfg, c, payload, w) else c
    case RunPosted(q, w) => RanPosted(cfg, c, q, w)
    case Writable(w) => Written(cfg, c, w)
    case _ => Controlled(c, e)
  }

  /** A call moves no output and leaves the mask alone. */
  lemma CalledKeeps(c: Conn, e: Event)
    ensures var d := Called(c, e);
      && d == c.(state := d.state, posted := d.posted, checked := d.checked, owed := d.owed, past := d.past)
      && d.past == c.past.(shutdownAsked := d.past.shutdownAsked, shutAt := d.past.shutAt, overtook := d.past.overtook)
  {
    hide Conn.InFlight;
  }

  lemma TurnedKeeps(c: Conn, e: Event)
    ensures var d := Turned(c, e);
      d == c.(state := d.state, wantsRead := d.wantsRead, reading := d.reading, writing := d.writing, input := d.input)
  {
  }

  lemma ControlledKeeps(c: Conn, e: Event)
    ensures var d := Controlled(c, e);
      d.past.wire == c.past.wire && d.output == c.output && d.past.payloads == c.past.payloads && d.past.notices == c.past.notices
  {
    hide Called, Turned;
    CalledKeeps(c, e);
    TurnedKeeps(c, e);
  }

  /** A posted functor is a send, or moves no output either. */
  lemma RanPostedKeeps(cfg: Config, c: Conn, q: Posted, w: WriteResult)
    requires Legal(c, RunPosted(q, w))
    ensures var d := RanPosted(cfg, c, q, w);
      if q.PostedSend? then d == SentInLoop(cfg, c.(posted := c.posted[1..]), q.payload, w)
      else d.past.wire == c.past.wire && d.output == c.output && d.past.payloads == c.past.payloads && d.past.notices == c.past.notices
  {
    hide SentInLoop;
  }

  // Runs.

  predicate LegalRun(cfg: Config, c: Conn, events: seq<Event>)
    decreases |events|
  {
    events == [] || (Legal(c, events[0]) && LegalRun(cfg, Step(cfg, c, events[0]), events[1..]))
  }

  function Run(cfg: Config, c: Conn, events: seq<Event>): Conn
    requires LegalRun(cfg, c, events)
    decreases |events|
  {
    if events == [] then c else Run(cfg, Step(cfg, c, events[0]), events[1..])
  }

  lemma RunCons(cfg: Config, c: Conn, e: Event, events: seq<Event>)
    requires Legal(c, e) && LegalRun(cfg, Step(cfg, c, e), events)
    ensures LegalRun(cfg, c, [e] + events)
    ensures Run(cfg, c, [e] + events) == Run(cfg, Step(cfg, c, e), events)
  {
    assert ([e] + events)[1..] == events;
  }

  // Output conservation.

  /** The bytes given to the socket, then the buffered ones, are the accepted payloads. */
  ghost predicate Conserved(c: Conn) {
    c.past.wire + c.output == c.Accepted()
  }

  lemma SendConserves(cfg: Config, c: Conn, payload: seq<byte>, w: WriteResult)
    requires Conserved(c) && Offered(|payload|, w)
    ensures Conserved(SentInLoop(cfg, c, payload, w))
  {
    if !c.state.Disconnected? && !Dropped(c, payload, w) {
      var n := if Direct(c) && w.Wrote? then w.n else 0;
      FlattenSnoc(c.past.payloads, payload);
      assert payload == payload[..n] + payload[n..];
      assert c.past.wire + c.output + payload == c.past.wire + payload[..n] + (c.output + payload[n..]);
    }
  }

  lemma WriteConserves(cfg: Config, c: Conn, w: WriteResult)
    requires Conserved(c) && Offered(|c.output|, w)
    ensures Conserved(Written(cfg, c, w))
  {
    if c.writing && w.Wrote? {
      assert c.past.wire + c.output == c.past.wire + c.output[..w.n] + c.output[w.n..];
    }
  }

  /** Whatever the callers, the peer and the kernel do. */
  lemma StepConserves(cfg: Config, c: Conn, e: Event)
    requires Conserved(c) && Legal(c, e)
    ensures Conserved(Step(cfg, c, e))
  {
    hide SentInLoop, Written, RanPosted, Controlled, Flatten;
    ControlledKeeps(c, e);
    match e
    case Send(payload, w) => SendConserves(cfg, c, payload, w);
    case RunPosted(q, w) =>
      RanPostedKeeps(cfg, c, q, w);
      if q.PostedSend? {
        SendConserves(cfg, c.(posted := c.posted[1..]), q.payload, w);
      }
    case Writable(w) => WriteConserves(cfg, c, w);
    case _ =>
  }

  /**
   In every reachable state the bytes given to the socket followed by the buffered ones are
   the accepted payloads in order.
   */
  lemma {:induction false} OutputConserved(cfg: Config, c: Conn, events: seq<Event>)
    requires Conserved(c) && LegalRun(cfg, c, events)
    ensures Conserved(Run(cfg, c, events))
    decreases |events|
  {
    hide Conserved, Step, Legal;
    if events != [] {
      StepConserves(cfg, c, events[0]);
      OutputConserved(cfg, Step(cfg, c, events[0]), events[1..]);
    }
  }

  // The channel's mask.

  /** While not Disconnected the channel writes iff something is buffered; else it asks for nothing. */
  ghost predicate MaskInv(c: Conn) {
    && (!c.state.Disconnected? ==> (c.writing <==> c.output != []))
    && (c.reading || c.writing ==> c.Up())
    && (c.state.Connecting? ==> c.posted == [] && c.checked == multiset{} && c.owed == multiset{})
  }

  /** What a caller owes the mask: no late write over buffered bytes, no `start_read` unless open. */
  predicate KeepsMask(c: Conn, e: Event) {
    match e
    case Commit(_) => !c.state.Disconnected? || c.output == []
    case StartRead => c.Up()
    case _ => true
  }

  lemma SendKeepsMask(cfg: Config, c: Conn, payload: seq<byte>, w: WriteResult)
    requires MaskInv(c) && Offered(|payload|, w) && !c.state.Connecting?
    ensures MaskInv(SentInLoop(cfg, c, payload, w))
  {
  }

  lemma WriteKeepsMask(cfg: Config, c: Conn, w: WriteResult)
    requires MaskInv(c) && Offered(|c.output|, w)
    ensures MaskInv(Written(cfg, c, w))
  {
  }

  /** Posted functors leave a connection that is not Connecting as open as they find it, or closed. */
  lemma RunPostedKeepsMask(cfg: Config, c: Conn, q: Posted, w: WriteResult)
    requires MaskInv(c) && Legal(c, RunPosted(q, w))
    ensures MaskInv(RanPosted(cfg, c, q, w))
  {
    hide SentInLoop, Conn.InFlight;
    if q.PostedSend? {
      SendKeepsMask(cfg, c.(posted := c.posted[1..]), q.payload, w);
    }
  }

  lemma CalledState(c: Conn, e: Event)
    requires Legal(c, e)
    ensures var d := Called(c, e).state;
      if e.Commit? then d.Disconnecting? else d == c.state || (c.Up() && d.Disconnecting?)
    ensures c.state.Connecting? && !e.Commit? && !e.Enqueue? ==> Called(c, e) == c
  {
    hide Conn.InFlight;
  }

  lemma CallKeepsMaskIff(c: Conn, e: Event)
    requires MaskInv(c) && Legal(c, e) && IsCall(e)
    ensures MaskInv(Called(c, e)) <==> KeepsMask(c, e)
  {
    hide Called;
    CalledKeeps(c, e);
    CalledState(c, e);
  }

  lemma TurnKeepsMaskIff(c: Conn, e: Event)
    requires MaskInv(c) && Legal(c, e) && !IsCall(e)
    ensures MaskInv(Turned(c, e)) <==> KeepsMask(c, e)
  {
  }

  /** The condition is exact: any other event keeps the mask right, and these two do iff it holds. */
  lemma MaskKeptIff(cfg: Config, c: Conn, e: Event)
    requires MaskInv(c) && Legal(c, e)
    ensures MaskInv(Step(cfg, c, e)) <==> KeepsMask(c, e)
  {
    hide SentInLoop, Written, RanPosted, Called, Turned, MaskInv;
    match e
    case Send(payload, w) =>
      if c.state.Connected? {
        SendKeepsMask(cfg, c, payload, w);
      }
    case RunPosted(q, w) => RunPostedKeepsMask(cfg, c, q, w);
    case Writable(w) => WriteKeepsMask(cfg, c, w);
    case _ => if IsCall(e) { CallKeepsMaskIff(c, e); } else { TurnKeepsMaskIff(c, e); }
  }

  predicate KeepingMask(cfg: Config, c: Conn, events: seq<Event>)
    requires LegalRun(cfg, c, events)
    decreases |events|
  {
    events == [] || (KeepsMask(c, events[0]) && KeepingMask(cfg, Step(cfg, c, events[0]), events[1..]))
  }

  lemma {:induction false} MaskTracksBuffer(cfg: Config, c: Conn, events: seq<Event>)
    requires MaskInv(c) && LegalRun(cfg, c, events) && KeepingMask(cfg, c, events)
    ensures MaskInv(Run(cfg, c, events))
    decreases |events|
  {
    hide MaskInv, Step, Legal, KeepsMask;
    if events != [] {
      MaskKeptIff(cfg, c, events[0]);
      MaskTracksBuffer(cfg, Step(cfg, c, events[0]), events[1..]);
    }
  }

  /** Such a run: a late write leaves bytes buffered on an open connection that never asks to write. */
  lemma LateWriteStopsWriting(cfg: Config)
    ensures var events := [Establish, Send([7], WouldBlock), Check(PostedShutdown), PeerClosed, Commit(PostedShutdown)];
      && LegalRun(cfg, FRESH, events)
      && var c := Run(cfg, FRESH, events); !c.state.Disconnected? && c.output == [7] && !c.writing
  {
    hide Flatten, Conn.InFlight;
    var c1 := Step(cfg, FRESH, Establish);
    var c2 := Step(cfg, c1, Send([7], WouldBlock));
    assert c2.output == [7] && c2.state.Connected? && c2.writing;
    var late := [Check(PostedShutdown), PeerClosed, Commit(PostedShutdown)];
    CloseThenCommit(cfg, c2);
    RunCons(cfg, c1, Send([7], WouldBlock), late);
    RunCons(cfg, FRESH, Establish, [Send([7], WouldBlock)] + late);
  }

  /** The write falls behind the close. */
  lemma CloseThenCommit(cfg: Config, c: Conn)
    requires c.state.Connected? && c.writing
    ensures var events := [Check(PostedShutdown), PeerClosed, Commit(PostedShutdown)];
      && LegalRun(cfg, c, events)
      && var d := Run(cfg, c, events); d.state.Disconnecting? && d.output == c.output && !d.writing
  {
    var d := Step(cfg, c, Check(PostedShutdown));
    var e := Step(cfg, d, PeerClosed);
    RunCons(cfg, e, Commit(PostedShutdown), []);
    RunCons(cfg, d, PeerClosed, [Commit(PostedShutdown)]);
    RunCons(cfg, c, Check(PostedShutdown), [PeerClosed, Commit(PostedShutdown)]);
  }

  /** `handle_close` asserts the connection is open; the poller's silence on empty masks ensures it. */
  lemma CloseAssertionHolds(cfg: Config, events: seq<Event>, e: Event)
    requires LegalRun(cfg, FRESH, events) && KeepingMask(cfg, FRESH, events)
    requires Legal(Run(cfg, FRESH, events), e)
    requires e.PeerClosed? || (e.Read? && e.result == ReadBytes([]))
    ensures Run(cfg, FRESH, events).Up()
  {
    MaskTracksBuffer(cfg, FRESH, events);
  }

  // Which payloads are accepted.

  /** The payload that an event hands to the connection: a call on the loop's thread, or a queued send. */
  function HandedBy(e: Event): seq<seq<byte>> {
    match e
    case Send(payload, _) => [payload]
    case RunPosted(PostedSend(payload), _) => [payload]
    case _ => []
  }

  /** A payload offered at once, with nothing waiting before it: the peer is gone, or it is empty and not written. */
  predicate Failed(c: Conn, payload: seq<byte>, w: WriteResult) {
    !c.writing && c.output == [] && (w.PeerGone? || (payload == [] && !w.Wrote?))
  }

  /** And whether it is lost. */
  function LossesBy(c: Conn, e: Event): seq<bool> {
    match e
    case Send(payload, w) => [!c.state.Connected? || Failed(c, payload, w)]
    case RunPosted(PostedSend(payload), w) => [c.state.Disconnected? || Failed(c, payload, w)]
    case _ => []
  }

  function Handed(events: seq<Event>): seq<seq<byte>> {
    if events == [] then [] else HandedBy(events[0]) + Handed(events[1..])
  }

  function Losses(cfg: Config, c: Conn, events: seq<Event>): seq<bool>
    requires LegalRun(cfg, c, events)
    decreases |events|
  {
    if events == [] then [] else LossesBy(c, events[0]) + Losses(cfg, Step(cfg, c, events[0]), events[1..])
  }

  function Kept(payloads: seq<seq<byte>>, losses: seq<bool>): seq<seq<byte>>
    requires |payloads| == |losses|
  {
    if payloads == [] then []
    else (if losses[0] then [] else [payloads[0]]) + Kept(payloads[1..], losses[1..])
  }

  lemma {:induction false} KeptAppend(a: seq<seq<byte>>, la: seq<bool>, b: seq<seq<byte>>, lb: seq<bool>)
    requires |a| == |la| && |b| == |lb|
    ensures Kept(a + b, la + lb) == Kept(a, la) + Kept(b, lb)
  {
    if a == [] {
      assert a + b == b && la + lb == lb;
    } else {
      TailOfConcat(a, b);
      TailOfConcat(la, lb);
      KeptAppend(a[1..], la[1..], b, lb);
      ConcatAssociative(if la[0] then [] else [a[0]], Kept(a[1..], la[1..]), Kept(b, lb));
    }
  }

  lemma SendAccepts(cfg: Config, c: Conn, payload: seq<byte>, w: WriteResult)
    requires Offered(|payload|, w)
    ensures SentInLoop(cfg, c, payload, w).past.payloads
      == (if c.state.Disconnected? || Dropped(c, payload, w) then c.past.payloads else c.past.payloads + [payload])
  {
  }

  lemma KeptOne(payload: seq<byte>, lost: bool)
    ensures Kept([payload], [lost]) == if lost then [] else [payload]
  {
    assert [payload][1..] == [] && [lost][1..] == [];
  }

  lemma OneAccepted(cfg: Config, c: Conn, e: Event)
    requires Legal(c, e)
    ensures |LossesBy(c, e)| == |HandedBy(e)|
    ensures Step(cfg, c, e).past.payloads == c.past.payloads + Kept(HandedBy(e), LossesBy(c, e))
  {
    hide SentInLoop, Written, RanPosted, Controlled, Kept;
    NothingKept(c.past.payloads);
    ControlledKeeps(c, e);
    match e
    case Send(payload, w) =>
      SendAccepts(cfg, c, payload, w);
      KeptOne(payload, LossesBy(c, e)[0]);
    case RunPosted(q, w) =>
      RanPostedKeeps(cfg, c, q, w);
      if q.PostedSend? {
        SendAccepts(cfg, c.(posted := c.posted[1..]), q.payload, w);
        KeptOne(q.payload, LossesBy(c, e)[0]);
      }
    case Writable(w) => WriteGrows(cfg, c, w);
    case _ =>
  }

  /**
   Over every run the accepted payloads are those handed to the connection minus exactly the
   lost ones, in order: those that find it not open, or the peer gone, or are empty and not written.
   */
  lemma {:induction false} AcceptedAreHandedMinusLost(cfg: Config, c: Conn, events: seq<Event>)
    requires LegalRun(cfg, c, events)
    ensures |Losses(cfg, c, events)| == |Handed(events)|
    ensures Run(cfg, c, events).past.payloads == c.past.payloads + Kept(Handed(events), Losses(cfg, c, events))
    decreases |events|
  {
    hide Step, Legal, HandedBy, LossesBy, Kept;
    if events == [] {
      NothingKept(c.past.payloads);
    } else {
      var e, d := events[0], Step(cfg, c, events[0]);
      AcceptedAreHandedMinusLost(cfg, d, events[1..]);
      OneAccepted(cfg, c, e);
      KeptAppend(HandedBy(e), LossesBy(c, e), Handed(events[1..]), Losses(cfg, d, events[1..]));
      ConcatAssociative(c.past.payloads, Kept(HandedBy(e), LossesBy(c, e)), Kept(Handed(events[1..]), Losses(cfg, d, events[1..])));
    }
  }

  lemma NothingKept(payloads: seq<seq<byte>>)
    ensures payloads + Kept([], []) == payloads
  {
  }

  lemma SendGrows(cfg: Config, c: Conn, payload: seq<byte>, w: WriteResult)
    requires Offered(|payload|, w)
    ensures var d := SentInLoop(cfg, c, payload, w);
      && c.past.wire <= d.past.wire
      && d.posted == c.posted
      && (d.past.payloads == c.past.payloads || d.past.payloads == c.past.payloads + [payload])
  {
  }

  lemma WriteGrows(cfg: Config, c: Conn, w: WriteResult)
    requires Offered(|c.output|, w)
    ensures var d := Written(cfg, c, w);
      c.past.wire <= d.past.wire && d.posted == c.posted && d.past.payloads == c.past.payloads
  {
  }

  /** The wire is only extended, and an event accepts at most one payload, behind the others. */
  lemma HistoryGrows(cfg: Config, c: Conn, e: Event)
    requires Legal(c, e)
    ensures var d := Step(cfg, c, e);
      && c.past.wire <= d.past.wire
      && (d.past.payloads == c.past.payloads || d.past.payloads == c.past.payloads + HandedBy(e))
  {
    hide SentInLoop, Written, RanPosted, Controlled;
    ControlledKeeps(c, e);
    match e
    case Send(payload, w) => SendGrows(cfg, c, payload, w);
    case RunPosted(q, w) =>
      RanPostedKeeps(cfg, c, q, w);
      if q.PostedSend? {
        SendGrows(cfg, c.(posted := c.posted[1..]), q.payload, w);
      }
    case Writable(w) => WriteGrows(cfg, c, w);
    case _ =>
  }

  // Calls from other threads are handled in queue order.

  function Sends(posted: seq<Posted>): seq<seq<byte>> {
    if posted == [] then []
    else (if posted[0].PostedSend? then [posted[0].payload] else []) + Sends(posted[1..])
  }

  function QueuedBy(e: Event): seq<seq<byte>> {
    if e.Enqueue? && e.q.PostedSend? then [e.q.payload] else []
  }

  function RunBy(e: Event): seq<seq<byte>> {
    if e.RunPosted? && e.q.PostedSend? then [e.q.payload] else []
  }

  function QueuedSends(events: seq<Event>): seq<seq<byte>> {
    if events == [] then [] else QueuedBy(events[0]) + QueuedSends(events[1..])
  }

  function RunSends(events: seq<Event>): seq<seq<byte>> {
    if events == [] then [] else RunBy(events[0]) + RunSends(events[1..])
  }

  lemma {:induction false} SendsAppend(a: seq<Posted>, b: seq<Posted>)
    ensures Sends(a + b) == Sends(a) + Sends(b)
  {
    if a == [] {
      assert a + b == b;
    } else {
      TailOfConcat(a, b);
      SendsAppend(a[1..], b);
      ConcatAssociative(if a[0].PostedSend? then [a[0].payload] else [], Sends(a[1..]), Sends(b));
    }
  }

  lemma SendKeepsPosted(cfg: Config, c: Conn, payload: seq<byte>, w: WriteResult)
    requires Offered(|payload|, w)
    ensures SentInLoop(cfg, c, payload, w).posted == c.posted
    ensures SentInLoop(cfg, c, payload, w).owed == c.owed && SentInLoop(cfg, c, payload, w).checked == c.checked
  {
  }

  /** The loop's functors for this connection change at the ends only. */
  lemma PostedChanges(cfg: Config, c: Conn, e: Event)
    requires Legal(c, e)
    ensures Step(cfg, c, e).posted == (match e
      case Enqueue(q) => c.posted + [q]
      case ForceClose => if c.Up() then c.posted + [PostedForceClose] else c.posted
      case RunPosted(_, _) => c.posted[1..]
      case _ => c.posted)
  {
    CallersChange(cfg, c, e);
    hide Step;
  }

  /** What is queued, and what other threads hold. */
  lemma CallersChange(cfg: Config, c: Conn, e: Event)
    requires Legal(c, e)
    ensures IsCall(e) ==> Step(cfg, c, e) == Called(c, e)
    ensures var d := Step(cfg, c, e);
      !IsCall(e) ==>
        && d.owed == c.owed && d.checked == c.checked
        && d.posted == (if e.RunPosted? then c.posted[1..] else c.posted)
    ensures !e.ForceClose? && !e.Enqueue? && IsCall(e) ==> Step(cfg, c, e).posted == c.posted
  {
    hide SentInLoop, Written, RanPosted, Turned, Conn.InFlight;
    TurnedKeeps(c, e);
    match e
    case Send(payload, w) => SendKeepsPosted(cfg, c, payload, w);
    case RunPosted(q, w) => RunKeepsPosted(cfg, c, q, w);
    case Writable(w) => WriteKeepsPosted(cfg, c, w);
    case _ =>
  }

  lemma WriteKeepsPosted(cfg: Config, c: Conn, w: WriteResult)
    requires Offered(|c.output|, w)
    ensures var d := Written(cfg, c, w); d.posted == c.posted && d.owed == c.owed && d.checked == c.checked
  {
    hide Conn.InFlight;
  }

  lemma RunKeepsPosted(cfg: Config, c: Conn, q: Posted, w: WriteResult)
    requires Legal(c, RunPosted(q, w))
    ensures var d := RanPosted(cfg, c, q, w);
      d.posted == c.posted[1..] && d.owed == c.owed && d.checked == c.checked
  {
    hide SentInLoop, Conn.InFlight;
    if q.PostedSend? {
      SendKeepsPosted(cfg, c.(posted := c.posted[1..]), q.payload, w);
    }
  }

  lemma OneQueued(cfg: Config, c: Conn, e: Event)
    requires Legal(c, e)
    ensures RunBy(e) + Sends(Step(cfg, c, e).posted) == Sends(c.posted) + QueuedBy(e)
  {
    hide Step;
    PostedChanges(cfg, c, e);
    match e
    case Enqueue(q) =>
      SendsAppend(c.posted, [q]);
      assert [q][1..] == [];
    case ForceClose =>
      SendsAppend(c.posted, [PostedForceClose]);
      assert [PostedForceClose][1..] == [];
    case _ =>
  }

  /** Over every run: the queued sends that ran, then those that wait, are those that were queued, in order. */
  lemma {:induction false} QueuedSendsRunInOrder(cfg: Config, c: Conn, events: seq<Event>)
    requires LegalRun(cfg, c, events)
    ensures RunSends(events) + Sends(Run(cfg, c, events).posted) == Sends(c.posted) + QueuedSends(events)
    decreases |events|
  {
    hide Legal, Step, Sends, QueuedBy, RunBy;
    if events != [] {
      var e, d := events[0], Step(cfg, c, events[0]);
      QueuedSendsRunInOrder(cfg, d, events[1..]);
      OneQueued(cfg, c, e);
      ConcatAssociative(RunBy(e), RunSends(events[1..]), Sends(Run(cfg, d, events[1..]).posted));
      ConcatAssociative(RunBy(e), Sends(d.posted), QueuedSends(events[1..]));
      ConcatAssociative(Sends(c.posted), QueuedBy(e), QueuedSends(events[1..]));
    }
  }

  // Flow-control notices.

  function HighWaters(notices: seq<Notice>): seq<nat> {
    if notices == [] then []
    else (if notices[0].HighWater? then [notices[0].len] else []) + HighWaters(notices[1..])
  }

  lemma {:induction false} HighWatersAppend(a: seq<Notice>, b: seq<Notice>)
    ensures HighWaters(a + b) == HighWaters(a) + HighWaters(b)
  {
    if a == [] {
      assert a + b == b;
    } else {
      TailOfConcat(a, b);
      HighWatersAppend(a[1..], b);
      ConcatAssociative(if a[0].HighWater? then [a[0].len] else [], HighWaters(a[1..]), HighWaters(b));
    }
  }

  /** The buffered length after every event of a run. */
  function Lengths(cfg: Config, c: Conn, events: seq<Event>): (t: seq<nat>)
    requires LegalRun(cfg, c, events)
    ensures |t| == |events| + 1 && t[0] == |c.output|
    decreases |events|
  {
    [|c.output|] + if events == [] then [] else Lengths(cfg, Step(cfg, c, events[0]), events[1..])
  }

  /** The values reached by going from below the mark to the mark or above. */
  function UpwardCrossings(t: seq<nat>, mark: nat): seq<nat> {
    if |t| < 2 then []
    else (if t[0] < mark <= t[1] then [t[1]] else []) + UpwardCrossings(t[1..], mark)
  }

  /** The notices one event queues. */
  function Raised(cfg: Config, c: Conn, e: Event): seq<Notice>
    requires Legal(c, e)
  {
    var before, after := c.past.notices, Step(cfg, c, e).past.notices;
    if before <= after then after[|before|..] else []
  }

  lemma RaisedIs(cfg: Config, c: Conn, e: Event, raised: seq<Notice>)
    requires Legal(c, e) && Step(cfg, c, e).past.notices == c.past.notices + raised
    ensures Raised(cfg, c, e) == raised
  {
  }

  /** The notices of a send and of a draining write, each at most one. */
  lemma SendNotices(cfg: Config, c: Conn, payload: seq<byte>, w: WriteResult) returns (raised: seq<Notice>)
    requires Offered(|payload|, w)
    ensures var d := SentInLoop(cfg, c, payload, w);
      && d.past.notices == c.past.notices + raised
      && |c.output| <= |d.output|
      && (c.state.Disconnected? ==> d.past.payloads == c.past.payloads)
      && (cfg.highWaterMark.Some? ==>
            HighWaters(raised) == if |c.output| < cfg.highWaterMark.value <= |d.output| then [|d.output|] else [])
      && (WriteComplete in raised <==>
            cfg.writeComplete && Direct(c) && d.output == [] && d.past.payloads != c.past.payloads)
  {
    var d := SentInLoop(cfg, c, payload, w);
    if c.state.Disconnected? || Dropped(c, payload, w) {
      raised := [];
    } else if |d.output| > |c.output| {
      raised := Crossing(cfg, |c.output|, |d.output|);
      assert cfg.highWaterMark.Some? && raised != [] ==> HighWaters(raised) == [|d.output|] + HighWaters([]);
    } else if Direct(c) && w.Wrote? {
      raised := Completed(cfg);
      assert raised != [] ==> HighWaters(raised) == HighWaters([]);
    } else {
      raised := [];
    }
  }

  lemma WriteNotices(cfg: Config, c: Conn, w: WriteResult) returns (raised: seq<Notice>)
    requires Offered(|c.output|, w)
    ensures var d := Written(cfg, c, w);
      && d.past.notices == c.past.notices + raised
      && HighWaters(raised) == []
      && |d.output| <= |c.output| && d.past.payloads == c.past.payloads
      && (d.output != c.output ==> c.writing && w.Wrote? && w.n != 0)
      && (WriteComplete in raised <==>
            cfg.writeComplete && c.writing && w.Wrote? && w.n != 0 && d.output == [])
  {
    var d := Written(cfg, c, w);
    if c.writing && w.Wrote? && w.n != 0 && d.output == [] {
      raised := Completed(cfg);
      assert raised != [] ==> HighWaters(raised) == HighWaters([]);
    } else {
      raised := [];
    }
  }

  lemma HighWatersOfNone()
    ensures HighWaters([]) == []
  {
  }

  lemma PostedNotices(cfg: Config, c: Conn, q: Posted, w: WriteResult) returns (raised: seq<Notice>)
    requires Legal(c, RunPosted(q, w))
    ensures var d := RanPosted(cfg, c, q, w);
      && d.past.notices == c.past.notices + raised
      && (cfg.highWaterMark.Some? ==>
            HighWaters(raised) == if |c.output| < cfg.highWaterMark.value <= |d.output| then [|d.output|] else [])
      && (MaskInv(c) && cfg.writeComplete ==>
            (WriteComplete in raised <==> d.output == [] && (c.output != [] || d.past.payloads != c.past.payloads)))
  {
    hide SentInLoop, RanPosted, Flatten, HighWaters;
    HighWatersOfNone();
    RanPostedKeeps(cfg, c, q, w);
    raised := [];
    if q.PostedSend? {
      raised := SendNotices(cfg, c.(posted := c.posted[1..]), q.payload, w);
    }
  }

  /** What one event raises, in terms of what it does to the buffer and the payloads. */
  lemma EventNotices(cfg: Config, c: Conn, e: Event) returns (raised: seq<Notice>)
    requires Legal(c, e)
    ensures var d := Step(cfg, c, e);
      && d.past.notices == c.past.notices + raised
      && (cfg.highWaterMark.Some? ==>
            HighWaters(raised) == if |c.output| < cfg.highWaterMark.value <= |d.output| then [|d.output|] else [])
      && (MaskInv(c) && cfg.writeComplete ==>
            (WriteComplete in raised <==> d.output == [] && (c.output != [] || d.past.payloads != c.past.payloads)))
  {
    hide SentInLoop, Written, RanPosted, Controlled, Flatten, HighWaters;
    HighWatersOfNone();
    ControlledKeeps(c, e);
    raised := [];
    match e
    case Send(payload, w) =>
      if c.state.Connected? {
        raised := SendNotices(cfg, c, payload, w);
      }
    case RunPosted(q, w) => raised := PostedNotices(cfg, c, q, w);
    case Writable(w) => raised := WriteNotices(cfg, c, w);
    case _ =>
  }

  /** Over every run the high-water notices are the upward crossings, with the length reached. */
  lemma {:induction false} HighWaterExactly(cfg: Config, c: Conn, events: seq<Event>, mark: nat)
    requires LegalRun(cfg, c, events) && cfg.highWaterMark == Some(mark)
    ensures HighWaters(Run(cfg, c, events).past.notices)
      == HighWaters(c.past.notices) + UpwardCrossings(Lengths(cfg, c, events), mark)
    decreases |events|
  {
    if events != [] {
      var d := Step(cfg, c, events[0]);
      var raised := EventNotices(cfg, c, events[0]);
      HighWatersAppend(c.past.notices, raised);
      HighWaterExactly(cfg, d, events[1..], mark);
      assert Lengths(cfg, c, events)[1..] == Lengths(cfg, d, events[1..]);
    }
  }

  /** Whatever the callers did to the mask, a write-complete notice follows the last byte. */
  lemma WriteCompleteStep(cfg: Config, c: Conn, e: Event)
    requires Conserved(c) && Legal(c, e)
    ensures var d := Step(cfg, c, e);
      WriteComplete in Raised(cfg, c, e) ==>
        && d.output == [] && d.past.wire == d.Accepted()
        && (c.output != [] || d.past.payloads != c.past.payloads)
  {
    hide Conserved, SentInLoop, Written, RanPosted, Controlled, Flatten, HighWaters, Step;
    StepConserves(cfg, c, e);
    var raised := CompleteNotices(cfg, c, e);
    RaisedIs(cfg, c, e, raised);
    NothingBuffered(Step(cfg, c, e));
  }

  lemma NothingBuffered(c: Conn)
    requires Conserved(c)
    ensures c.output == [] ==> c.past.wire == c.Accepted()
  {
    assert c.output == [] ==> c.past.wire + [] == c.past.wire;
  }

  lemma CompleteNotices(cfg: Config, c: Conn, e: Event) returns (raised: seq<Notice>)
    requires Legal(c, e)
    ensures var d := Step(cfg, c, e);
      && d.past.notices == c.past.notices + raised
      && (WriteComplete in raised ==> d.output == [] && (c.output != [] || d.past.payloads != c.past.payloads))
  {
    hide SentInLoop, Written, RanPosted, Controlled, Flatten, HighWaters;
    ControlledKeeps(c, e);
    raised := [];
    match e
    case Send(payload, w) =>
      if c.state.Connected? {
        raised := SendNotices(cfg, c, payload, w);
      }
    case RunPosted(q, w) =>
      RanPostedKeeps(cfg, c, q, w);
      if q.PostedSend? {
        raised := SendNotices(cfg, c.(posted := c.posted[1..]), q.payload, w);
      }
    case Writable(w) => raised := WriteNotices(cfg, c, w);
    case _ =>
  }

  /**
   Over every run, with whatever callers: an event that queues a write-complete notice leaves
   every accepted byte on the wire.
   */
  lemma WriteCompleteAfterEveryByte(cfg: Config, before: seq<Event>, e: Event)
    requires LegalRun(cfg, FRESH, before) && Legal(Run(cfg, FRESH, before), e)
    ensures var c := Run(cfg, FRESH, before); var d := Step(cfg, c, e);
      WriteComplete in Raised(cfg, c, e) ==> d.output == [] && d.past.wire == d.Accepted()
  {
    OutputConserved(cfg, FRESH, before);
    WriteCompleteStep(cfg, Run(cfg, FRESH, before), e);
  }

  /** While the mask is right, the events that queue one are exactly those that finish. */
  lemma WriteCompleteIff(cfg: Config, c: Conn, e: Event)
    requires MaskInv(c) && Legal(c, e) && cfg.writeComplete
    ensures WriteComplete in Raised(cfg, c, e) <==> Finishes(c, Step(cfg, c, e))
  {
    var raised := EventNotices(cfg, c, e);
    RaisedIs(cfg, c, e, raised);
  }

  /** How many write-complete notices are queued. */
  function WriteCompletes(notices: seq<Notice>): nat {
    if notices == [] then 0 else (if notices[0].WriteComplete? then 1 else 0) + WriteCompletes(notices[1..])
  }

  lemma {:induction false} WriteCompletesAppend(a: seq<Notice>, b: seq<Notice>)
    ensures WriteCompletes(a + b) == WriteCompletes(a) + WriteCompletes(b)
  {
    if a == [] {
      assert a + b == b;
    } else {
      TailOfConcat(a, b);
      WriteCompletesAppend(a[1..], b);
    }
  }

  /** An event that leaves nothing buffered after taking a payload or draining the buffer. */
  predicate Finishes(c: Conn, d: Conn) {
    d.output == [] && (c.output != [] || d.past.payloads != c.past.payloads)
  }

  /** How many events of a run do so. */
  function Finished(cfg: Config, c: Conn, events: seq<Event>): nat
    requires LegalRun(cfg, c, events)
    decreases |events|
  {
    if events == [] then 0
    else
      var d := Step(cfg, c, events[0]);
      (if Finishes(c, d) then 1 else 0) + Finished(cfg, d, events[1..])
  }

  /** One event queues at most one write-complete notice. */
  lemma OneWriteComplete(cfg: Config, c: Conn, e: Event)
    requires Legal(c, e)
    ensures var d := Step(cfg, c, e);
      && (WriteCompletes(d.past.notices) == WriteCompletes(c.past.notices)
        || (Finishes(c, d) && WriteCompletes(d.past.notices) == WriteCompletes(c.past.notices) + 1))
      && (MaskInv(c) && cfg.writeComplete && Finishes(c, d) ==>
            WriteCompletes(d.past.notices) == WriteCompletes(c.past.notices) + 1)
  {
    hide SentInLoop, Written, RanPosted, Controlled, Step, MaskInv;
    var raised := EventNotices(cfg, c, e);
    var again := CompleteNotices(cfg, c, e);
    WriteCompletesAppend(c.past.notices, raised);
    WriteCompletesAppend(c.past.notices, again);
    SameRaised(c.past.notices, raised, again);
    AtMostOneNotice(cfg, c, e, raised);
    if raised != [] {
      assert raised[1..] == [];
    }
  }

  lemma SameRaised(before: seq<Notice>, a: seq<Notice>, b: seq<Notice>)
    requires before + a == before + b
    ensures a == b
  {
    assert a == (before + a)[|before|..] && b == (before + b)[|before|..];
  }

  lemma AtMostOneNotice(cfg: Config, c: Conn, e: Event, raised: seq<Notice>)
    requires Legal(c, e) && Step(cfg, c, e).past.notices == c.past.notices + raised
    ensures |raised| <= 1
  {
    hide Flatten, RanPosted, Controlled, SentInLoop, Written;
    ControlledKeeps(c, e);
    match e
    case Send(payload, w) => if c.state.Connected? { SendAtMostOne(cfg, c, payload, w); }
    case RunPosted(q, w) =>
      RanPostedKeeps(cfg, c, q, w);
      if q.PostedSend? { SendAtMostOne(cfg, c.(posted := c.posted[1..]), q.payload, w); }
    case Writable(w) => WriteAtMostOne(cfg, c, w);
    case _ =>
  }

  lemma SendAtMostOne(cfg: Config, c: Conn, payload: seq<byte>, w: WriteResult)
    requires Offered(|payload|, w)
    ensures |SentInLoop(cfg, c, payload, w).past.notices| <= |c.past.notices| + 1
  {
  }

  lemma WriteAtMostOne(cfg: Config, c: Conn, w: WriteResult)
    requires Offered(|c.output|, w)
    ensures |Written(cfg, c, w).past.notices| <= |c.past.notices| + 1
  {
    hide Conn.InFlight;
  }

  /**
   Over every run there are at most as many write-complete notices as events that leave
   nothing buffered after taking a payload or draining the buffer, and in a run that keeps
   the mask exactly as many.
   */
  lemma {:induction false} WriteCompleteExactly(cfg: Config, c: Conn, events: seq<Event>)
    requires LegalRun(cfg, c, events)
    ensures var queued := WriteCompletes(Run(cfg, c, events).past.notices) - WriteCompletes(c.past.notices);
      && 0 <= queued <= Finished(cfg, c, events)
      && (MaskInv(c) && cfg.writeComplete && KeepingMask(cfg, c, events) ==> queued == Finished(cfg, c, events))
    decreases |events|
  {
    hide MaskInv, Step, Legal, Finishes, KeepsMask;
    if events != [] {
      OneWriteComplete(cfg, c, events[0]);
      if MaskInv(c) {
        MaskKeptIff(cfg, c, events[0]);
      }
      WriteCompleteExactly(cfg, Step(cfg, c, events[0]), events[1..]);
    }
  }
}
