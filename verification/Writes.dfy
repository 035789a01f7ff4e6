/**
 What every event does to the stream, told from the events: what the kernel was offered and
 took, what was read, and where the connection's state and its mask of interests go.
 */
module Writes {
  import opened Bytes
  import Buffers
  import opened ConnectionStates
  import opened Connection

  // What the kernel took.

  /** The bytes that an event offers to `write`. */
  function Offer(c: Conn, e: Event): seq<byte> {
    match e
    case Send(payload, _) => if c.state.Connected? && !c.writing && c.output == [] then payload else []
    case RunPosted(PostedSend(payload), _) =>
      if !c.state.Disconnected? && !c.writing && c.output == [] then payload else []
    case Writable(_) => if c.writing then c.output else []
    case _ => []
  }

  function Taken(offer: seq<byte>, w: WriteResult): seq<byte> {
    if w.Wrote? && w.n <= |offer| then offer[..w.n] else []
  }

  /** The first `n` bytes of the offer, when the kernel answers that it wrote `n`. */
  function TakenBy(c: Conn, e: Event): seq<byte> {
    match e
    case Send(_, w) => Taken(Offer(c, e), w)
    case RunPosted(_, w) => Taken(Offer(c, e), w)
    case Writable(w) => Taken(Offer(c, e), w)
    case _ => []
  }

  function TakenAll(cfg: Config, c: Conn, events: seq<Event>): seq<seq<byte>>
    requires LegalRun(cfg, c, events)
    decreases |events|
  {
    if events == [] then [] else [TakenBy(c, events[0])] + TakenAll(cfg, Step(cfg, c, events[0]), events[1..])
  }

  /** The payloads an event adds to what the connection has to deliver. */
  function AddedBy(c: Conn, e: Event): seq<seq<byte>> {
    if |HandedBy(e)| == |LossesBy(c, e)| then Kept(HandedBy(e), LossesBy(c, e)) else []
  }

  /**
   `handle_write`: of the buffered bytes exactly those the kernel took leave the buffer, and
   they are the next on the wire.
   */
  lemma WritableTakes(cfg: Config, c: Conn, n: nat)
    requires c.writing && 0 < n <= |c.output|
    ensures var d := Step(cfg, c, Writable(Wrote(n)));
      d.past.wire == c.past.wire + c.output[..n] && d.output == c.output[n..]
  {
    hide Conn.InFlight;
  }

  lemma SendTakes(cfg: Config, c: Conn, payload: seq<byte>, w: WriteResult)
    requires Offered(|payload|, w)
    ensures var d := SentInLoop(cfg, c, payload, w);
      var taken := Taken(if !c.state.Disconnected? && !c.writing && c.output == [] then payload else [], w);
      var lost := c.state.Disconnected? || (!c.writing && c.output == [] && (w.PeerGone? || (payload == [] && !w.Wrote?)));
      && d.past.wire == c.past.wire + taken
      && taken + d.output == c.output + if lost then [] else payload
  {
  }

  lemma WrittenTakes(cfg: Config, c: Conn, w: WriteResult)
    requires Offered(|c.output|, w)
    ensures var d := Written(cfg, c, w); var taken := Taken(if c.writing then c.output else [], w);
      && d.past.wire == c.past.wire + taken
      && taken + d.output == c.output
  {
    hide Conn.InFlight;
  }

  /**
   One event: what the kernel took goes on the wire, and with what stays buffered it is what
   was buffered with the payload that the event adds.
   */
  lemma StepTakes(cfg: Config, c: Conn, e: Event)
    requires Legal(c, e)
    ensures var d := Step(cfg, c, e);
      && d.past.wire == c.past.wire + TakenBy(c, e)
      && TakenBy(c, e) + d.output == c.output + Flatten(AddedBy(c, e))
  {
    hide SentInLoop, Written, RanPosted, Controlled, Kept, Flatten;
    ControlledKeeps(c, e);
    NothingAdded();
    match e
    case Send(payload, w) =>
      SendTakes(cfg, c, payload, w);
      AddedOne(payload, LossesBy(c, e)[0]);
    case RunPosted(q, w) => PostedTakes(cfg, c, q, w);
    case Writable(w) => WrittenTakes(cfg, c, w);
    case _ =>
  }

  lemma PostedTakes(cfg: Config, c: Conn, q: Posted, w: WriteResult)
    requires Legal(c, RunPosted(q, w))
    ensures var e := RunPosted(q, w); var d := Step(cfg, c, e);
      && d.past.wire == c.past.wire + TakenBy(c, e)
      && TakenBy(c, e) + d.output == c.output + Flatten(AddedBy(c, e))
  {
    hide SentInLoop, RanPosted, Kept, Flatten;
    RanPostedKeeps(cfg, c, q, w);
    NothingAdded();
    if q.PostedSend? {
      SendTakes(cfg, c.(posted := c.posted[1..]), q.payload, w);
      AddedOne(q.payload, LossesBy(c, RunPosted(q, w))[0]);
    }
  }

  lemma AddedOne(payload: seq<byte>, lost: bool)
    ensures Flatten(Kept([payload], [lost])) == if lost then [] else payload
  {
    KeptOne(payload, lost);
    FlattenOne(payload);
  }

  lemma NothingAdded()
    ensures Kept([], []) == [] && Flatten<byte>([]) == []
  {
  }

  /**
   Over every run the wire is what the kernel took of each offer, one after the other; and
   with what is still buffered that is every payload handed over and not lost.
   */
  lemma {:induction false} WireIsTaken(cfg: Config, c: Conn, events: seq<Event>)
    requires LegalRun(cfg, c, events)
    ensures |Losses(cfg, c, events)| == |Handed(events)|
    ensures var d := Run(cfg, c, events); var taken := Flatten(TakenAll(cfg, c, events));
      && d.past.wire == c.past.wire + taken
      && taken + d.output == c.output + Flatten(Kept(Handed(events), Losses(cfg, c, events)))
    decreases |events|
  {
    hide Step, Legal, HandedBy, LossesBy, Kept, TakenBy, Flatten;
    NothingAdded();
    if events != [] {
      var e, d := events[0], Step(cfg, c, events[0]);
      WireIsTaken(cfg, d, events[1..]);
      StepTakes(cfg, c, e);
      OneAccepted(cfg, c, e);
      KeptAppend(HandedBy(e), LossesBy(c, e), Handed(events[1..]), Losses(cfg, d, events[1..]));
      FlattenAppend(Kept(HandedBy(e), LossesBy(c, e)), Kept(Handed(events[1..]), Losses(cfg, d, events[1..])));
      FlattenAppend([TakenBy(c, e)], TakenAll(cfg, d, events[1..]));
      FlattenOne(TakenBy(c, e));
      var one, all := TakenBy(c, e), Flatten(TakenAll(cfg, d, events[1..]));
      ConcatAssociative(c.past.wire, one, all);
      ConcatAssociative(one, all, Run(cfg, d, events[1..]).output);
      ConcatAssociative(one, d.output, Flatten(Kept(Handed(events[1..]), Losses(cfg, d, events[1..]))));
      ConcatAssociative(c.output, Flatten(AddedBy(c, e)), Flatten(Kept(Handed(events[1..]), Losses(cfg, d, events[1..]))));
    }
  }

  // What was read.

  function ReadBy(e: Event): seq<byte> {
    match e
    case Read(ReadBytes(bytes)) => bytes
    case _ => []
  }

  function AllRead(events: seq<Event>): seq<byte> {
    if events == [] then [] else ReadBy(events[0]) + AllRead(events[1..])
  }

  lemma SendKeepsRest(cfg: Config, c: Conn, payload: seq<byte>, w: WriteResult)
    requires Offered(|payload|, w)
    ensures var d := SentInLoop(cfg, c, payload, w);
      && d == c.(output := d.output, writing := d.writing, past := d.past)
      && d.writing == (c.writing || |d.output| > |c.output|)
  {
  }

  lemma WriteKeepsRest(cfg: Config, c: Conn, w: WriteResult)
    requires Offered(|c.output|, w)
    ensures var d := Written(cfg, c, w);
      && d == c.(output := d.output, writing := d.writing, past := d.past)
      && |d.output| <= |c.output|
      && d.writing == (c.writing && !(c.output != [] && d.output == []))
  {
    hide Conn.InFlight;
  }

  lemma ShutKeepsRest(c: Conn)
    ensures var d := ShutInLoop(c); d == c.(past := d.past)
  {
    hide Conn.InFlight;
  }

  /** The events that may move output. */
  predicate Moves(e: Event) {
    e.Send? || e.Writable? || (e.RunPosted? && e.q.PostedSend?)
  }

  lemma MovesKeepRest(cfg: Config, c: Conn, e: Event)
    requires Legal(c, e) && Moves(e)
    ensures var d := Step(cfg, c, e);
      && d == c.(output := d.output, writing := d.writing, posted := d.posted, past := d.past)
      && (if |d.output| > |c.output| then d.writing
          else d.writing == (c.writing && !(e.Writable? && c.output != [] && d.output == [])))
  {
    hide SentInLoop, Written;
    match e
    case Send(payload, w) => SendKeepsRest(cfg, c, payload, w);
    case RunPosted(q, w) => SendKeepsRest(cfg, c.(posted := c.posted[1..]), q.payload, w);
    case Writable(w) => WriteKeepsRest(cfg, c, w);
  }

  /** A functor that is no send: only a forced close of an open connection does more than the history. */
  lemma FunctorKeepsRest(cfg: Config, c: Conn, e: Event)
    requires Legal(c, e) && e.RunPosted? && !Moves(e)
    ensures var d := Step(cfg, c, e);
      && d == c.(state := d.state, reading := d.reading, writing := d.writing, posted := d.posted, past := d.past)
      && d.state == (if Closes(c, e) then Disconnected else c.state)
      && d.reading == (c.reading && !Closes(c, e))
      && d.writing == (c.writing && !Closes(c, e))
  {
    hide ShutInLoop;
    ShutKeepsRest(c.(posted := c.posted[1..]));
  }

  /** Calls: the state, the functors and the history are all they change. */
  lemma CallKeepsRest(cfg: Config, c: Conn, e: Event)
    requires Legal(c, e) && IsCall(e)
    ensures var d := Step(cfg, c, e);
      && d == c.(state := d.state, posted := d.posted, checked := d.checked, owed := d.owed, past := d.past)
      && d.state == (if BeginsToClose(c, e) then Disconnecting else c.state)
  {
    CalledKeeps(c, e);
    hide ShutInLoop;
    ShutKeepsRest(c.(state := Disconnecting, past := Asked(c.past, true)));
  }

  /** The other handlers. */
  lemma TurnKeepsRest(cfg: Config, c: Conn, e: Event)
    requires Legal(c, e) && !Moves(e) && !e.RunPosted? && !IsCall(e)
    ensures var d := Step(cfg, c, e);
      && d.state == (if e.Establish? then Connected else if Closes(c, e) then Disconnected else c.state)
      && d.reading == (e.Establish? || e.StartRead? || (c.reading && !e.StopRead? && !Closes(c, e)))
      && d.wantsRead == (e.StartRead? || (c.wantsRead && !e.StopRead?))
      && d.writing == (c.writing && !Closes(c, e))
      && d.input == c.input + ReadBy(e) && d.output == c.output
  {
    hide Called, SentInLoop, Written, RanPosted;
  }

  /** Everything but the output and the history, after any event. */
  lemma ControlKeepsRest(cfg: Config, c: Conn, e: Event)
    requires Legal(c, e) && !Moves(e) && !e.RunPosted?
    ensures var d := Step(cfg, c, e);
      && d.state == (if e.Establish? then Connected
                     else if Closes(c, e) then Disconnected
                     else if BeginsToClose(c, e) then Disconnecting
                     else c.state)
      && d.reading == (e.Establish? || e.StartRead? || (c.reading && !e.StopRead? && !Closes(c, e)))
      && d.wantsRead == (e.StartRead? || (c.wantsRead && !e.StopRead?))
      && d.writing == (c.writing && !Closes(c, e))
      && d.input == c.input + ReadBy(e) && d.output == c.output
  {
    hide Step;
    if IsCall(e) {
      CallKeepsRest(cfg, c, e);
    } else {
      TurnKeepsRest(cfg, c, e);
    }
  }

  lemma StepReads(cfg: Config, c: Conn, e: Event)
    requires Legal(c, e)
    ensures Step(cfg, c, e).input == c.input + ReadBy(e)
  {
    hide Step;
    if Moves(e) {
      MovesKeepRest(cfg, c, e);
    } else if e.RunPosted? {
      FunctorKeepsRest(cfg, c, e);
    } else {
      ControlKeepsRest(cfg, c, e);
    }
  }

  /** Over every run the input is extended by exactly the bytes read, in order. */
  lemma {:induction false} InputIsRead(cfg: Config, c: Conn, events: seq<Event>)
    requires LegalRun(cfg, c, events)
    ensures Run(cfg, c, events).input == c.input + AllRead(events)
    decreases |events|
  {
    hide Step, Legal, ReadBy;
    if events != [] {
      StepReads(cfg, c, events[0]);
      InputIsRead(cfg, Step(cfg, c, events[0]), events[1..]);
      ConcatAssociative(c.input, ReadBy(events[0]), AllRead(events[1..]));
    }
  }

  // The state and the mask.

  /** The peer has closed, a forced close runs, or a connection still Connected is destroyed. */
  predicate Closes(c: Conn, e: Event) {
    match e
    case Read(ReadBytes(bytes)) => bytes == []
    case PeerClosed => true
    case RunPosted(PostedForceClose, _) => c.state.Connected? || c.state.Disconnecting?
    case Destroy => c.state.Connected?
    case _ => false
  }

  /** Somebody begins to close: in order, by force, or by the late write of another thread. */
  predicate BeginsToClose(c: Conn, e: Event) {
    match e
    case Shutdown => c.state.Connected?
    case ForceClose => c.state.Connected? || c.state.Disconnecting?
    case Commit(_) => true
    case _ => false
  }

  /** The state changes in exactly three ways, and a close takes both interests away. */
  lemma StateChanges(cfg: Config, c: Conn, e: Event)
    requires Legal(c, e)
    ensures var d := Step(cfg, c, e);
      && d.state == (if e.Establish? then Connected
                     else if Closes(c, e) then Disconnected
                     else if BeginsToClose(c, e) then Disconnecting
                     else c.state)
      && (Closes(c, e) ==> !d.reading && !d.writing)
  {
    hide Step;
    if Moves(e) {
      MovesKeepRest(cfg, c, e);
    } else if e.RunPosted? {
      FunctorKeepsRest(cfg, c, e);
    } else {
      ControlKeepsRest(cfg, c, e);
    }
  }

  /** Reading is asked for by an established connection and by `start_read`, until `stop_read` or the close. */
  lemma ReadingChanges(cfg: Config, c: Conn, e: Event)
    requires Legal(c, e)
    ensures var d := Step(cfg, c, e);
      && d.reading == (e.Establish? || e.StartRead? || (c.reading && !e.StopRead? && !Closes(c, e)))
      && d.wantsRead == (e.StartRead? || (c.wantsRead && !e.StopRead?))
  {
    hide Step;
    if Moves(e) {
      MovesKeepRest(cfg, c, e);
    } else if e.RunPosted? {
      FunctorKeepsRest(cfg, c, e);
    } else {
      ControlKeepsRest(cfg, c, e);
    }
  }

  /**
   Writing is asked for as soon as a send leaves bytes in the buffer, and given up when the
   last byte goes out or with the close; nothing else changes it.
   */
  lemma WritingChanges(cfg: Config, c: Conn, e: Event)
    requires Legal(c, e)
    ensures var d := Step(cfg, c, e);
      d.writing == (if |d.output| > |c.output| then true
                    else if Closes(c, e) || (e.Writable? && c.output != [] && d.output == []) then false
                    else c.writing)
  {
    hide Step;
    if Moves(e) {
      MovesKeepRest(cfg, c, e);
    } else if e.RunPosted? {
      FunctorKeepsRest(cfg, c, e);
    } else {
      ControlKeepsRest(cfg, c, e);
    }
  }

  /** What a call on another thread has come to. */
  lemma CallersOwe(cfg: Config, c: Conn, e: Event)
    requires Legal(c, e)
    ensures var d := Step(cfg, c, e);
      && d.checked == (match e
        case Check(q) => if q.PostedSend? then c.checked else c.checked + multiset{q}
        case Commit(q) => c.checked - multiset{q}
        case _ => c.checked)
      && d.owed == (match e
        case Check(q) => if q.PostedSend? then c.owed + multiset{q} else c.owed
        case Commit(q) => c.owed + multiset{q}
        case Enqueue(q) => c.owed - multiset{q}
        case _ => c.owed)
  {
    CallersChange(cfg, c, e);
    hide SentInLoop, Written, RanPosted, ShutInLoop;
    ShutKeepsRest(c.(state := Disconnecting, past := Asked(c.past, true)));
  }

  // When `SHUT_WR` goes out.

  /** A shutdown runs while nothing is being written, or the last byte of a closing connection goes out. */
  predicate Shuts(cfg: Config, c: Conn, e: Event)
    requires Legal(c, e)
  {
    match e
    case Shutdown => c.state.Connected? && !c.writing
    case RunPosted(PostedShutdown, _) => !c.writing
    case Writable(_) => c.state.Disconnecting? && c.writing && c.output != [] && Step(cfg, c, e).output == []
    case _ => false
  }

  lemma SendKeepsShut(cfg: Config, c: Conn, payload: seq<byte>, w: WriteResult)
    requires Offered(|payload|, w)
    ensures SentInLoop(cfg, c, payload, w).past.shutAt == c.past.shutAt
    ensures SentInLoop(cfg, c, payload, w).past.shutdownAsked == c.past.shutdownAsked
  {
  }

  lemma ShutIssues(c: Conn)
    ensures var d := ShutInLoop(c);
      && d.past.shutAt == c.past.shutAt + (if c.writing then [] else [|c.past.wire|])
      && d.past.wire == c.past.wire && d.past.shutdownAsked == c.past.shutdownAsked
  {
    hide Conn.InFlight;
  }

  lemma WrittenShuts(cfg: Config, c: Conn, w: WriteResult)
    requires Offered(|c.output|, w)
    ensures var d := Step(cfg, c, Writable(w));
      && d.past.shutAt == c.past.shutAt + (if Shuts(cfg, c, Writable(w)) then [|d.past.wire|] else [])
      && d.past.shutdownAsked == c.past.shutdownAsked
  {
    hide Conn.InFlight;
  }

  lemma PostedShuts(cfg: Config, c: Conn, q: Posted, w: WriteResult)
    requires Legal(c, RunPosted(q, w))
    ensures var d := Step(cfg, c, RunPosted(q, w));
      && d.past.shutAt == c.past.shutAt + (if q.PostedShutdown? && !c.writing then [|d.past.wire|] else [])
      && d.past.shutdownAsked == c.past.shutdownAsked
  {
    hide SentInLoop, ShutInLoop;
    var d := c.(posted := c.posted[1..]);
    ShutIssues(d);
    if q.PostedSend? {
      SendKeepsShut(cfg, d, q.payload, w);
    }
  }

  lemma CallShuts(cfg: Config, c: Conn, e: Event)
    requires Legal(c, e) && IsCall(e)
    ensures var d := Step(cfg, c, e);
      && d.past.shutAt
        == c.past.shutAt + (if e.Shutdown? && c.state.Connected? && !c.writing then [|d.past.wire|] else [])
      && d.past.shutdownAsked
        == (c.past.shutdownAsked || (e.Shutdown? && c.state.Connected?) || (e.Commit? && e.q.PostedShutdown?))
  {
    hide ShutInLoop;
    ShutIssues(c.(state := Disconnecting, past := Asked(c.past, true)));
  }

  /** `SHUT_WR` is issued at exactly these events, where the wire then ends. */
  lemma ShutsExactly(cfg: Config, c: Conn, e: Event)
    requires Legal(c, e)
    ensures var d := Step(cfg, c, e);
      && d.past.shutAt == c.past.shutAt + (if Shuts(cfg, c, e) then [|d.past.wire|] else [])
      && d.past.shutdownAsked
        == (c.past.shutdownAsked || (e.Shutdown? && c.state.Connected?) || (e.Commit? && e.q.PostedShutdown?))
  {
    hide SentInLoop, Written, RanPosted, Called;
    match e
    case Send(payload, w) => SendKeepsShut(cfg, c, payload, w);
    case RunPosted(q, w) => PostedShuts(cfg, c, q, w);
    case Writable(w) => WrittenShuts(cfg, c, w);
    case _ => if IsCall(e) { CallShuts(cfg, c, e); }
  }
}
