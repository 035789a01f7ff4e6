/**
 The two models of a connection, `Connection` with its bytes and `Lifecycles` with its loops,
 do the same to what they share: the state, the reading flag and the channel's mask.
 */
module LifecycleViews {
  import opened Channels
  import opened ConnectionStates
  import C = Connection
  import Buffers
  import L = Lifecycles

  predicate Same(k: L.Conn, c: C.Conn) {
    k.state == c.state && k.wantsRead == c.wantsRead && k.mask == Interest(c.reading, c.writing)
  }

  /** The connection after the lifecycle's version of an event. */
  function Counterpart(s: L.Server, i: nat, c: C.Conn, e: C.Event): L.Conn
    requires i < |s.conns|
  {
    match e
    case Establish => L.Establish(s, i).conns[i]
    case PeerClosed => L.Close(s, i).conns[i]
    case Read(ReadBytes(bytes)) => if bytes == [] then L.Close(s, i).conns[i] else s.conns[i]
    case RunPosted(PostedForceClose, _) => L.Run(s, L.ForceCloseInLoop(i)).conns[i]
    case Destroy => L.Destroy(s, i).conns[i]
    case StartRead => L.Reading(s, i, true).conns[i]
    case StopRead => L.Reading(s, i, false).conns[i]
    case Commit(PostedShutdown) => L.Committed(s, L.ShuttingDown(i)).conns[i]
    case Commit(PostedForceClose) => L.Committed(s, L.Closing(i)).conns[i]
    case Shutdown => if c.state.Connected? then L.Committed(s, L.ShuttingDown(i)).conns[i] else s.conns[i]
    case ForceClose => if c.Up() then L.Committed(s, L.Closing(i)).conns[i] else s.conns[i]
    case _ => s.conns[i]
  }

  /** Only an open connection asks to write, and nothing is under way before it is established. */
  ghost predicate Opened(c: C.Conn) {
    && (c.writing ==> c.Up())
    && (c.state.Connecting? ==> c.posted == [] && c.owed == multiset{} && c.checked == multiset{})
  }

  lemma WriteStaysOpened(cfg: C.Config, c: C.Conn, e: C.Event)
    requires Opened(c) && C.Legal(c, e) && (e.Send? || e.Writable? || e.RunPosted?)
    ensures Opened(C.Step(cfg, c, e))
  {
    hide C.Conn.InFlight, C.Crossing, C.Completed;
  }

  lemma CallStaysOpened(c: C.Conn, e: C.Event)
    requires Opened(c) && C.Legal(c, e) && C.IsCall(e)
    ensures Opened(C.Called(c, e))
  {
    hide C.Conn.InFlight;
  }

  lemma TurnStaysOpened(c: C.Conn, e: C.Event)
    requires Opened(c) && C.Legal(c, e) && !C.IsCall(e)
    ensures Opened(C.Turned(c, e))
  {
  }

  /** This holds in every reachable state, whatever the callers do. */
  lemma {:induction false} StaysOpened(cfg: C.Config, c: C.Conn, events: seq<C.Event>)
    requires Opened(c) && C.LegalRun(cfg, c, events)
    ensures Opened(C.Run(cfg, c, events))
    decreases |events|
  {
    hide Opened, C.Called, C.Turned, C.SentInLoop, C.Written, C.RanPosted;
    if events != [] {
      var e := events[0];
      if e.Send? || e.Writable? || e.RunPosted? {
        WriteStaysOpened(cfg, c, e);
      } else if C.IsCall(e) {
        CallStaysOpened(c, e);
      } else {
        TurnStaysOpened(c, e);
      }
      StaysOpened(cfg, C.Step(cfg, c, e), events[1..]);
    }
  }

  /** Writes to the socket may change the write bit, of an open connection; nothing else differs. */
  predicate Agree(k: L.Conn, d: C.Conn, e: C.Event) {
    && Same(k.(mask := Interest(k.mask.read, d.writing)), d)
    && (k.mask.write != d.writing ==> IsOpen(k.state) && (e.Send? || e.Writable? || (e.RunPosted? && e.q.PostedSend?)))
  }

  /** In every reachable state, then, the two models agree on every event. */
  lemma AgreeInEveryRun(s: L.Server, i: nat, cfg: C.Config, before: seq<C.Event>, e: C.Event)
    requires C.LegalRun(cfg, C.FRESH, before) && C.Legal(C.Run(cfg, C.FRESH, before), e)
    requires i < |s.conns| && Same(s.conns[i], C.Run(cfg, C.FRESH, before))
    requires !(e.Commit? && e.q.PostedSend?)
    ensures var c := C.Run(cfg, C.FRESH, before);
      Agree(Counterpart(s, i, c, e), C.Step(cfg, c, e), e)
  {
    StaysOpened(cfg, C.FRESH, before);
    hide C.Step, Counterpart;
    HandlersAgree(s, i, cfg, C.Run(cfg, C.FRESH, before), e);
  }

  lemma HandlersAgree(s: L.Server, i: nat, cfg: C.Config, c: C.Conn, e: C.Event)
    requires i < |s.conns| && Same(s.conns[i], c)
    requires Opened(c) && C.Legal(c, e) && !(e.Commit? && e.q.PostedSend?)
    ensures Agree(Counterpart(s, i, c, e), C.Step(cfg, c, e), e)
  {
    hide Agree;
    if e.Send? || e.Writable? || e.RunPosted? {
      WriteHandlersAgree(s, i, cfg, c, e);
    } else if C.IsCall(e) {
      CallHandlersAgree(s, i, cfg, c, e);
    } else {
      TurnHandlersAgree(s, i, cfg, c, e);
    }
  }

  lemma WriteHandlersAgree(s: L.Server, i: nat, cfg: C.Config, c: C.Conn, e: C.Event)
    requires i < |s.conns| && Same(s.conns[i], c) && Opened(c) && C.Legal(c, e)
    requires e.Send? || e.Writable? || e.RunPosted?
    ensures Agree(Counterpart(s, i, c, e), C.Step(cfg, c, e), e)
  {
    WritesAgree(cfg, c, e);
    hide C.Step;
  }

  lemma CallHandlersAgree(s: L.Server, i: nat, cfg: C.Config, c: C.Conn, e: C.Event)
    requires i < |s.conns| && Same(s.conns[i], c) && C.Legal(c, e)
    requires C.IsCall(e) && !(e.Commit? && e.q.PostedSend?)
    ensures Agree(Counterpart(s, i, c, e), C.Step(cfg, c, e), e)
  {
    CallsAgree(cfg, c, e);
    hide C.Step;
  }

  lemma TurnHandlersAgree(s: L.Server, i: nat, cfg: C.Config, c: C.Conn, e: C.Event)
    requires i < |s.conns| && Same(s.conns[i], c) && Opened(c) && C.Legal(c, e)
    requires !C.IsCall(e) && !e.Send? && !e.Writable? && !e.RunPosted?
    ensures Agree(Counterpart(s, i, c, e), C.Turned(c, e), e)
  {
  }

  lemma WritesAgree(cfg: C.Config, c: C.Conn, e: C.Event)
    requires Opened(c) && C.Legal(c, e)
    requires e.Send? || e.Writable? || e.RunPosted?
    ensures var d := C.Step(cfg, c, e);
      if e.RunPosted? && e.q.PostedForceClose? && c.Up() then
        d.state.Disconnected? && d.wantsRead == c.wantsRead && !d.reading && !d.writing
      else
        && d.state == c.state && d.wantsRead == c.wantsRead && d.reading == c.reading
        && (d.writing != c.writing ==> c.Up() && !(e.RunPosted? && !e.q.PostedSend?))
  {
    hide C.Conn.InFlight, C.Crossing, C.Completed;
  }

  lemma CallsAgree(cfg: C.Config, c: C.Conn, e: C.Event)
    requires C.IsCall(e) && C.Legal(c, e)
    ensures var d := C.Step(cfg, c, e);
      && d.wantsRead == c.wantsRead && d.reading == c.reading && d.writing == c.writing
      && d.state == match e
        case Commit(_) => Disconnecting
        case Shutdown => if c.state.Connected? then Disconnecting else c.state
        case ForceClose => if c.Up() then Disconnecting else c.state
        case _ => c.state
  {
    hide C.Conn.InFlight;
  }
}
