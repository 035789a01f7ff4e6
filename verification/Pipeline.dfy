/**
 From `codec.send` on one connection to the message callback on the other.

 A world is a sending connection, the bytes of its wire that the peer has read, and the
 peer's codec.  Every schedule of partial, refused and failed writes and every chunking of
 the reads is a run.
 */
module Pipeline {
  import opened Bytes
  import opened Endian
  import Buffers
  import opened Codec
  import opened Connection
  import opened ConnectionStates
  import opened TcpConnections

  datatype World = World(conn: Conn, read: nat, peer: Decoded)

  const NOTHING_READ := Decoded([], [], false)

  datatype Move =
    | SendMessage(m: Message, w: WriteResult)
    | CheckMessage(m: Message)
    | QueueMessage(m: Message)
    | Other(e: Event)
    | Deliver(n: nat)

  /** `codec.send` on the loop's thread, or on another: the test of the state, and the queueing. */
  function EventOf(move: Move): Event
    requires !move.Deliver?
  {
    match move
    case SendMessage(m, r) => Send(Frame(m), r)
    case CheckMessage(m) => Check(PostedSend(Frame(m)))
    case QueueMessage(m) => Enqueue(PostedSend(Frame(m)))
    case Other(e) => e
  }

  /** Payloads enter the connection through the codec only. */
  predicate IsSend(e: Event) {
    e.Send? || ((e.Check? || e.Enqueue?) && e.q.PostedSend?)
  }

  predicate LegalMove(w: World, move: Move) {
    match move
    case SendMessage(m, _) => |m| <= MAX_MESSAGE && Legal(w.conn, EventOf(move))
    case CheckMessage(m) => |m| <= MAX_MESSAGE && Legal(w.conn, EventOf(move))
    case QueueMessage(m) => |m| <= MAX_MESSAGE && Legal(w.conn, EventOf(move))
    case Other(e) => !IsSend(e) && Legal(w.conn, e)
    case Deliver(n) => 0 < n && w.read + n <= |w.conn.past.wire|
  }

  function Next(cfg: Config, w: World, move: Move): World
    requires LegalMove(w, move)
  {
    match move
    case Deliver(n) => Delivered(w, n)
    case _ => w.(conn := Step(cfg, w.conn, EventOf(move)))
  }

  function Delivered(w: World, n: nat): World
    requires w.read + n <= |w.conn.past.wire|
  {
    w.(read := w.read + n, peer := Feed(w.peer, w.conn.past.wire[w.read..w.read + n]))
  }

  predicate LegalMoves(cfg: Config, w: World, moves: seq<Move>)
    decreases |moves|
  {
    moves == [] || (LegalMove(w, moves[0]) && LegalMoves(cfg, Next(cfg, w, moves[0]), moves[1..]))
  }

  function Moved(cfg: Config, w: World, moves: seq<Move>): World
    requires LegalMoves(cfg, w, moves)
    decreases |moves|
  {
    if moves == [] then w else Moved(cfg, Next(cfg, w, moves[0]), moves[1..])
  }

  /** The message inside a frame. */
  function Unframed(payload: seq<byte>): Message {
    if |payload| < HEADER_LEN then [] else payload[HEADER_LEN..]
  }

  /** The messages the sending connection has accepted, in order. */
  function Messages(payloads: seq<seq<byte>>): seq<Message> {
    if payloads == [] then [] else [Unframed(payloads[0])] + Messages(payloads[1..])
  }

  ghost predicate IsFrame(payload: seq<byte>) {
    payload == Frame(Unframed(payload)) && |Unframed(payload)| <= MAX_MESSAGE
  }

  ghost predicate AllFrames(payloads: seq<seq<byte>>) {
    forall p <- payloads :: IsFrame(p)
  }

  ghost predicate BringsFrame(q: Posted) {
    q.PostedSend? ==> IsFrame(q.payload)
  }

  /** Payloads accepted, queued and owed are frames. */
  ghost predicate CarriesFrames(c: Conn) {
    && AllFrames(c.past.payloads)
    && (forall q <- c.posted :: BringsFrame(q))
    && (forall q <- c.owed :: BringsFrame(q))
    && (forall q <- c.checked :: BringsFrame(q))
  }

  lemma FrameIsFrame(m: Message)
    requires |m| <= MAX_MESSAGE
    ensures Unframed(Frame(m)) == m && IsFrame(Frame(m))
  {
    assert Frame(m)[HEADER_LEN..] == m;
  }

  lemma {:induction false} FramesOfMessages(payloads: seq<seq<byte>>)
    requires AllFrames(payloads)
    ensures Flatten(payloads) == Frames(Messages(payloads)) && AllShort(Messages(payloads))
  {
    if payloads != [] {
      assert payloads[0] in payloads;
      FramesOfMessages(payloads[1..]);
    }
  }

  lemma {:induction false} MessagesSnoc(payloads: seq<seq<byte>>, p: seq<byte>)
    ensures Messages(payloads + [p]) == Messages(payloads) + [Unframed(p)]
  {
    if payloads == [] {
      assert payloads + [p] == [p];
      assert Messages([p]) == [Unframed(p)] + Messages([]);
    } else {
      MessagesSnoc(payloads[1..], p);
      assert (payloads + [p])[1..] == payloads[1..] + [p];
    }
  }

  ghost predicate WorldInv(w: World) {
    && Conserved(w.conn)
    && CarriesFrames(w.conn)
    && w.read <= |w.conn.past.wire|
    && w.peer == Decode(w.conn.past.wire[..w.read])
  }

  /** The payload an event brings in is a frame. */
  ghost predicate EventBringsFrame(e: Event) {
    (e.Send? ==> IsFrame(e.payload)) && (e.Check? || e.Enqueue? ==> BringsFrame(e.q))
  }

  lemma SendingStep(cfg: Config, w: World, e: Event)
    requires WorldInv(w) && Legal(w.conn, e) && EventBringsFrame(e)
    ensures WorldInv(w.(conn := Step(cfg, w.conn, e)))
  {
    hide Conserved, CarriesFrames, Decode, Step, Legal;
    var d := Step(cfg, w.conn, e);
    StepConserves(cfg, w.conn, e);
    HistoryGrows(cfg, w.conn, e);
    assert d.past.wire[..w.read] == w.conn.past.wire[..w.read];
    StaysFrames(cfg, w.conn, e);
  }

  lemma StaysFrames(cfg: Config, c: Conn, e: Event)
    requires CarriesFrames(c) && Legal(c, e) && EventBringsFrame(e)
    ensures CarriesFrames(Step(cfg, c, e))
  {
    hide IsFrame;
    HistoryGrows(cfg, c, e);
    CallersChange(cfg, c, e);
    PostedChanges(cfg, c, e);
    if IsCall(e) { CallFrames(c, e); }
    if e.RunPosted? {
      assert c.posted[0] in c.posted;
    }
    hide Step;
  }

  lemma CallFrames(c: Conn, e: Event)
    requires CarriesFrames(c) && Legal(c, e) && EventBringsFrame(e) && IsCall(e)
    ensures forall q <- Called(c, e).owed :: BringsFrame(q)
    ensures forall q <- Called(c, e).checked :: BringsFrame(q)
  {
    hide IsFrame, Conn.InFlight;
  }

  lemma Delivery(w: World, n: nat)
    requires WorldInv(w) && w.read + n <= |w.conn.past.wire|
    ensures WorldInv(Delivered(w, n))
  {
    hide Decode, Feed, IsFrame, Flatten;
    var wire := w.conn.past.wire;
    var seen, chunk := wire[..w.read], wire[w.read..w.read + n];
    FeedContinues(seen, chunk);
    assert wire[..w.read + n] == seen + chunk;
  }

  lemma MoveKeepsInv(cfg: Config, w: World, move: Move)
    requires WorldInv(w) && LegalMove(w, move)
    ensures WorldInv(Next(cfg, w, move))
  {
    match move
    case Deliver(n) => Delivery(w, n);
    case Other(e) => SendingStep(cfg, w, e);
    case _ =>
      FrameIsFrame(move.m);
      SendingStep(cfg, w, EventOf(move));
  }

  lemma {:induction false} MovesKeepInv(cfg: Config, w: World, moves: seq<Move>)
    requires WorldInv(w) && LegalMoves(cfg, w, moves)
    ensures WorldInv(Moved(cfg, w, moves))
    decreases |moves|
  {
    if moves != [] {
      MoveKeepsInv(cfg, w, moves[0]);
      MovesKeepInv(cfg, Next(cfg, w, moves[0]), moves[1..]);
    }
  }

  lemma DeliveredSoFar(w: World)
    requires WorldInv(w)
    ensures !w.peer.bad && w.peer.msgs <= Messages(w.conn.past.payloads)
    ensures w.conn.output == [] && w.read == |w.conn.past.wire| ==>
      w.peer == Decoded(Messages(w.conn.past.payloads), [], false)
  {
    var ms, wire := Messages(w.conn.past.payloads), w.conn.past.wire;
    FramesOfMessages(w.conn.past.payloads);
    assert wire[..w.read] <= wire <= wire + w.conn.output == Frames(ms);
    DecodePrefix(ms, wire[..w.read]);
    if w.conn.output == [] && w.read == |wire| {
      assert wire[..w.read] == wire + w.conn.output == Frames(ms) + [];
      DecodeComplete(Frames(ms), Decoded(ms, [], false));
    }
  }

  /**
   End to end: at every moment of every run the receiver has emitted a beginning of the
   accepted messages, in order, and never reports an invalid length; once the sender's
   buffer is drained and the wire is read, it has emitted all of them and nothing is left.
   */
  lemma EndToEnd(cfg: Config, moves: seq<Move>)
    requires LegalMoves(cfg, World(FRESH, 0, NOTHING_READ), moves)
    ensures var w := Moved(cfg, World(FRESH, 0, NOTHING_READ), moves);
      && !w.peer.bad
      && w.peer.msgs <= Messages(w.conn.past.payloads)
      && (w.conn.output == [] && w.read == |w.conn.past.wire| ==>
            w.peer.msgs == Messages(w.conn.past.payloads) && w.peer.rest == [])
  {
    var start := World(FRESH, 0, NOTHING_READ);
    assert start.conn.past.wire[..0] == [];
    MovesKeepInv(cfg, start, moves);
    DeliveredSoFar(Moved(cfg, start, moves));
  }

  // With no fault and the connection up, everything sent is accepted.

  /** The peer is not gone. */
  predicate Faultless(e: Event) {
    match e
    case Send(_, r) => !r.PeerGone?
    case RunPosted(_, r) => !r.PeerGone?
    case _ => true
  }

  /** Nobody shuts down or closes, at either end. */
  predicate StaysUp(e: Event) {
    match e
    case Shutdown | ForceClose | Commit(_) | PeerClosed | Destroy => false
    case Read(result) => result != Buffers.ReadBytes([])
    case RunPosted(q, _) => !q.PostedForceClose?
    case _ => true
  }

  predicate Smooth(moves: seq<Move>) {
    forall move <- moves :: !move.Deliver? ==> Faultless(EventOf(move)) && StaysUp(EventOf(move))
  }

  /** The messages of `codec.send`, as their calls or their functors run. */
  function SentList(moves: seq<Move>): seq<Message> {
    Messages(Handed(Events(moves)))
  }

  function Events(moves: seq<Move>): seq<Event> {
    if moves == [] then []
    else (if moves[0].Deliver? then [] else [EventOf(moves[0])]) + Events(moves[1..])
  }

  /** The connection of a world takes the events of the moves. */
  lemma {:induction false} ConnRuns(cfg: Config, w: World, moves: seq<Move>)
    requires LegalMoves(cfg, w, moves)
    ensures LegalRun(cfg, w.conn, Events(moves))
    ensures Moved(cfg, w, moves).conn == Run(cfg, w.conn, Events(moves))
    decreases |moves|
  {
    hide Step, Legal, EventOf;
    if moves != [] {
      ConnRuns(cfg, Next(cfg, w, moves[0]), moves[1..]);
      if moves[0].Deliver? {
        assert Events(moves) == Events(moves[1..]);
      } else {
        MoveBringsFrame(w, moves[0]);
        RunCons(cfg, w.conn, EventOf(moves[0]), Events(moves[1..]));
      }
    }
  }

  lemma SmoothTail(moves: seq<Move>)
    requires Smooth(moves) && moves != []
    ensures Smooth(moves[1..])
    ensures !moves[0].Deliver? ==> Faultless(EventOf(moves[0])) && StaysUp(EventOf(moves[0]))
  {
    assert moves[0] in moves;
  }

  lemma StaysConnected(cfg: Config, c: Conn, e: Event)
    requires Legal(c, e) && StaysUp(e) && c.state.Connected?
    ensures Step(cfg, c, e).state.Connected?
  {
    hide Conn.InFlight, Flatten;
  }

  /** A frame is never empty, so without a fault it is accepted. */
  lemma SmoothStep(cfg: Config, w: World, e: Event)
    requires WorldInv(w) && Legal(w.conn, e) && EventBringsFrame(e)
    requires Faultless(e) && StaysUp(e) && w.conn.state.Connected?
    ensures Step(cfg, w.conn, e).past.payloads == w.conn.past.payloads + HandedBy(e)
  {
    OneAccepted(cfg, w.conn, e);
    if e.Send? {
      KeptOne(e.payload, false);
    } else if e.RunPosted? && e.q.PostedSend? {
      assert e.q in w.conn.posted;
      KeptOne(e.q.payload, false);
    } else {
      NothingKept(w.conn.past.payloads);
    }
    hide Step, Conserved;
  }

  lemma MoveBringsFrame(w: World, move: Move)
    requires LegalMove(w, move) && !move.Deliver?
    ensures Legal(w.conn, EventOf(move)) && EventBringsFrame(EventOf(move))
  {
    if !move.Other? {
      FrameIsFrame(move.m);
    }
  }

  lemma {:induction false} SmoothMoves(cfg: Config, w: World, moves: seq<Move>)
    requires WorldInv(w) && LegalMoves(cfg, w, moves) && Smooth(moves) && w.conn.state.Connected?
    ensures Moved(cfg, w, moves).conn.past.payloads == w.conn.past.payloads + Handed(Events(moves))
    decreases |moves|
  {
    hide WorldInv, Step, Legal, Smooth, Faultless, StaysUp, EventOf, HandedBy;
    if moves == [] {
      assert w.conn.past.payloads + [] == w.conn.past.payloads;
    } else {
      var v := Next(cfg, w, moves[0]);
      SmoothTail(moves);
      MoveKeepsInv(cfg, w, moves[0]);
      if moves[0].Deliver? {
        SmoothMoves(cfg, v, moves[1..]);
        assert Events(moves) == Events(moves[1..]);
      } else {
        var e := EventOf(moves[0]);
        MoveBringsFrame(w, moves[0]);
        SmoothStep(cfg, w, e);
        StaysConnected(cfg, w.conn, e);
        SmoothMoves(cfg, v, moves[1..]);
        assert ([e] + Events(moves[1..]))[1..] == Events(moves[1..]);
        ConcatAssociative(w.conn.past.payloads, HandedBy(e), Handed(Events(moves[1..])));
      }
    }
  }

  /**
   With no fault and nobody shutting down or closing, whatever else happens on the
   connection: the receiver has emitted a beginning of the messages given to `codec.send`,
   and all of them once the sender's buffer is drained and the wire is read.
   */
  lemma SentIsReceived(cfg: Config, moves: seq<Move>)
    requires LegalMoves(cfg, World(Step(cfg, FRESH, Establish), 0, NOTHING_READ), moves) && Smooth(moves)
    ensures var w := Moved(cfg, World(Step(cfg, FRESH, Establish), 0, NOTHING_READ), moves);
      && w.peer.msgs <= SentList(moves)
      && (w.conn.output == [] && w.read == |w.conn.past.wire| ==> w.peer.msgs == SentList(moves))
  {
    var up := World(Step(cfg, FRESH, Establish), 0, NOTHING_READ);
    assert up.conn.past.wire[..0] == [];
    assert up.conn.past.payloads + Handed(Events(moves)) == Handed(Events(moves));
    MovesKeepInv(cfg, up, moves);
    DeliveredSoFar(Moved(cfg, up, moves));
    SmoothMoves(cfg, up, moves);
  }

  /**
   Messages sent from other threads are among them in the order in which they were queued;
   only those still queued are missing.
   */
  lemma ForeignMessagesInOrder(cfg: Config, moves: seq<Move>)
    requires LegalMoves(cfg, World(Step(cfg, FRESH, Establish), 0, NOTHING_READ), moves)
    ensures var w := Moved(cfg, World(Step(cfg, FRESH, Establish), 0, NOTHING_READ), moves);
      RunSends(Events(moves)) + Sends(w.conn.posted) == QueuedSends(Events(moves))
  {
    var up := World(Step(cfg, FRESH, Establish), 0, NOTHING_READ);
    assert up.conn.posted == [];
    hide Step, Legal, LegalMoves, Moved, Events, QueuedSends, RunSends, Run, LegalRun;
    ConnRuns(cfg, up, moves);
    QueuedSendsRunInOrder(cfg, up.conn, Events(moves));
    assert Sends(up.conn.posted) + QueuedSends(Events(moves)) == QueuedSends(Events(moves));
  }

  // The same two moves on the real objects.

  /** `LengthHeaderCodec::send`. */
  method SendThroughCodec(host: ByteOrder, codec: LengthHeaderCodec, conn: TcpConnection, m: Message, r: WriteResult)
    requires conn.Valid() && Legal(conn.C(), Send(Frame(m), r))
    modifies conn.Repr()
    ensures conn.Valid() && fresh(conn.Repr() - old(conn.Repr()))
    ensures conn.C() == Step(conn.cfg, old(conn.C()), Send(Frame(m), r))
  {
    var payload := codec.Send(host, m);
    conn.Send(payload, r);
  }

  /** `handle_read` with the codec as message callback. */
  method ReceiveThroughCodec(host: ByteOrder, codec: LengthHeaderCodec, conn: TcpConnection, chunk: seq<byte>)
    requires conn.Valid() && chunk != []
    requires Legal(conn.C(), Read(Buffers.ReadBytes(chunk)))
    requires Buffers.Legal(conn.inputBuffer.V(), Buffers.Op.ReadFd(Buffers.ReadBytes(chunk)))
    modifies codec, conn, conn.inputBuffer, conn.inputBuffer.data
    ensures conn.Valid()
    ensures var d := Feed(Decoded(old(codec.emitted), old(conn.C()).input, false), chunk);
      && codec.emitted == d.msgs
      && conn.C() == old(conn.C()).(input := d.rest)
      && codec.shutdowns == old(codec.shutdowns) + (if d.bad then 1 else 0)
  {
    var message := conn.HandleRead(Buffers.ReadBytes(chunk));
    codec.OnMessage(host, conn.inputBuffer);
  }
}
