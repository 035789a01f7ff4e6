/**
 suduo/net/TcpServer.cpp with the connect, close and destroy handlers of
 suduo/net/TcpConnection.cpp: the life of connections across a base loop and I/O loops.

 A step is what one thread does between two points where another can interfere: an event or
 a functor on a loop's thread, or one half of a foreign `force_close` or `shutdown`, whose
 test of the state and whose write of it are separate.  Loop 0 is the base loop.
 */
module Lifecycles {
  import opened Channels
  import opened ConnectionStates

  /**
   What happened to a connection; `Erased` carries the result of the map's erase, and `Freed`
   is the destructor.
   */
  datatype Mark = Established | Closed | Erased(count: nat) | Destroyed | Freed

  const LIFE: seq<Mark> := [Established, Closed, Erased(1), Destroyed, Freed]

  datatype Conn = Conn(
    loop: nat, state: State, wantsRead: bool, mask: Interest, registered: bool, log: seq<Mark>)

  datatype Functor =
    | ConnectEstablished(id: nat)
    | ForceCloseInLoop(id: nat)
    | RemoveConnectionInLoop(id: nat)
    | ConnectDestroyed(id: nat)

  /** A thread that found the state open and has not written it yet, or has and owes the functor. */
  datatype Caller = Closing(id: nat) | ShuttingDown(id: nat) | Queueing(id: nat)

  datatype Server = Server(
    conns: seq<Conn>,
    registry: set<nat>,
    queues: seq<seq<Functor>>,
    active: seq<seq<nat>>,
    callers: multiset<Caller>,
    // history: every assertion of the source held so far
    sound: bool)

  function Started(loops: nat): Server
    requires loops > 0
  {
    Server([], {}, seq(loops, _ => []), seq(loops, _ => []), multiset{}, true)
  }

  datatype Step =
    | Accept(loop: nat)
    | Poll(loop: nat, ready: seq<nat>)
    | Dispatch(loop: nat, closes: bool)
    | RunFunctor(loop: nat)
    | SetMask(id: nat, mask: Interest)
    | SetReading(id: nat, on: bool)
    | Check(caller: Caller)
    | Commit(caller: Caller)
    | Queue(id: nat)
    | Release(id: nat)

  /**
   What can happen next.  The poller reports only channels with a nonempty mask; a connection
   is freed when nothing refers to it.
   */
  ghost predicate Enabled(s: Server, step: Step) {
    match step
    case Accept(l) => l < |s.queues|
    case Poll(l, ready) =>
      && l < |s.active| && s.active[l] == []
      && (forall c <- ready :: c < |s.conns| && s.conns[c].loop == l && s.conns[c].mask != NONE)
      && (forall i, j :: 0 <= i < j < |ready| ==> ready[i] != ready[j])
    case Dispatch(l, _) => l < |s.active| && s.active[l] != [] && s.active[l][0] < |s.conns|
    case RunFunctor(l) =>
      l < |s.queues| && l < |s.active| && s.active[l] == [] && s.queues[l] != [] && s.queues[l][0].id < |s.conns|
    case SetMask(c, _) => c < |s.conns| && IsOpen(s.conns[c].state)
    case SetReading(c, _) => c < |s.conns| && s.conns[c].log != [] && Freed !in s.conns[c].log
    case Check(Closing(c)) => c < |s.conns| && IsOpen(s.conns[c].state)
    case Check(ShuttingDown(c)) => c < |s.conns| && s.conns[c].state.Connected?
    case Check(Queueing(_)) => false
    case Commit(caller) => caller in s.callers && caller.id < |s.conns| && !caller.Queueing?
    case Queue(c) => Queueing(c) in s.callers && c < |s.conns|
    case Release(c) =>
      && c < |s.conns| && Destroyed in s.conns[c].log && Freed !in s.conns[c].log && c !in s.registry
      && (forall q <- s.queues, f <- q :: f.id != c)
      && (forall a <- s.callers :: a.id != c)
  }

  /** What is asked of users: no write of the state after the close, nor a change of reading that updates a dead channel. */
  predicate Guarded(s: Server, step: Step) {
    match step
    case SetReading(c, on) =>
      c < |s.conns| && (
        || !s.conns[c].state.Disconnected?
        || (!on && (Destroyed !in s.conns[c].log || !s.conns[c].wantsRead)))
    case Commit(caller) => caller.id < |s.conns| && !s.conns[caller.id].state.Disconnected?
    case _ => true
  }

  function Push(s: Server, l: nat, f: Functor): Server {
    if l < |s.queues| then s.(queues := s.queues[l := s.queues[l] + [f]]) else s
  }

  /** `channel.update()`: legal unless removed, and the first one must ask for something. */
  predicate MayUpdate(k: Conn, mask: Interest) {
    Destroyed !in k.log && (k.registered || mask != NONE)
  }

  function Establish(s: Server, c: nat): Server
    requires c < |s.conns|
  {
    var k := s.conns[c];
    var mask := Interest(true, k.mask.write);
    s.(conns := s.conns[c := k.(state := Connected, mask := mask, registered := true, log := k.log + [Established])],
       sound := s.sound && k.state.Connecting? && MayUpdate(k, mask))
  }

  function Erase(s: Server, c: nat): Server
    requires c < |s.conns|
  {
    var k := s.conns[c];
    var n := if c in s.registry then 1 else 0;
    Push(s.(conns := s.conns[c := k.(log := k.log + [Erased(n)])], registry := s.registry - {c},
            sound := s.sound && n == 1),
         k.loop, ConnectDestroyed(c))
  }

  function Close(s: Server, c: nat): Server
    requires c < |s.conns|
  {
    var k := s.conns[c];
    var t := s.(conns := s.conns[c := k.(state := Disconnected, mask := NONE, log := k.log + [Closed])],
                sound := s.sound && IsOpen(k.state) && MayUpdate(k, NONE));
    if k.loop == 0 then Erase(t, c) else Push(t, 0, RemoveConnectionInLoop(c))
  }

  function Destroy(s: Server, c: nat): Server
    requires c < |s.conns|
  {
    var k := s.conns[c];
    var j := if k.state.Connected? then k.(state := Disconnected, mask := NONE) else k;
    s.(conns := s.conns[c := j.(registered := false, log := k.log + [Destroyed])],
       sound := s.sound && k.registered && j.mask == NONE)
  }

  function Run(s: Server, f: Functor): Server
    requires f.id < |s.conns|
  {
    match f
    case ConnectEstablished(c) => Establish(s, c)
    case ForceCloseInLoop(c) => if IsOpen(s.conns[c].state) then Close(s, c) else s
    case RemoveConnectionInLoop(c) => Erase(s, c)
    case ConnectDestroyed(c) => Destroy(s, c)
  }

  function Masked(s: Server, c: nat, mask: Interest): Server
    requires c < |s.conns|
  {
    s.(conns := s.conns[c := s.conns[c].(mask := mask)], sound := s.sound && MayUpdate(s.conns[c], mask))
  }

  /** `start_read_in_loop` and `stop_read_in_loop`. */
  function Reading(s: Server, c: nat, on: bool): Server
    requires c < |s.conns|
  {
    var k := s.conns[c];
    if (if on then k.wantsRead && k.mask.read else !k.wantsRead && !k.mask.read) then s
    else
      Masked(s.(conns := s.conns[c := k.(wantsRead := on)]), c, Interest(on, k.mask.write))
  }

  /** The destructor asserts that the state is Disconnected. */
  function Released(s: Server, c: nat): Server
    requires c < |s.conns|
  {
    var k := s.conns[c];
    s.(conns := s.conns[c := k.(log := k.log + [Freed])], sound := s.sound && k.state.Disconnected?)
  }

  /** The connection enters the map and is established on its loop. */
  function Accepted(s: Server, l: nat): Server {
    var c := |s.conns|;
    var t := s.(conns := s.conns + [Conn(l, Connecting, true, NONE, false, [])], registry := s.registry + {c});
    if l == 0 then Establish(t, c) else Push(t, l, ConnectEstablished(c))
  }

  /** The write; a force close then still owes the loop its functor. */
  function Committed(s: Server, caller: Caller): Server
    requires caller.id < |s.conns|
  {
    var c := caller.id;
    s.(conns := s.conns[c := s.conns[c].(state := Disconnecting)],
       callers := s.callers - multiset{caller} + if caller.Closing? then multiset{Queueing(c)} else multiset{})
  }

  function Queued(s: Server, c: nat): Server
    requires c < |s.conns|
  {
    Push(s.(callers := s.callers - multiset{Queueing(c)}), s.conns[c].loop, ForceCloseInLoop(c))
  }

  function Next(s: Server, step: Step): Server
    requires Enabled(s, step)
  {
    match step
    case Accept(l) => Accepted(s, l)
    case Poll(l, ready) => s.(active := s.active[l := ready])
    case Dispatch(l, closes) =>
      var t := s.(active := s.active[l := s.active[l][1..]]);
      if closes then Close(t, s.active[l][0]) else t
    case RunFunctor(l) => Run(s.(queues := s.queues[l := s.queues[l][1..]]), s.queues[l][0])
    case SetMask(c, mask) => Masked(s, c, mask)
    case SetReading(c, on) => Reading(s, c, on)
    case Check(caller) => s.(callers := s.callers + multiset{caller})
    case Commit(caller) => Committed(s, caller)
    case Queue(c) => Queued(s, c)
    case Release(c) => Released(s, c)
  }

  /** How often a functor waits in a loop's queue. */
  ghost function N(s: Server, l: nat, f: Functor): nat {
    if l < |s.queues| then multiset(s.queues[l])[f] else 0
  }

  lemma PushCounts(s: Server, l: nat, f: Functor)
    requires l < |s.queues|
    ensures forall m: nat, g :: N(Push(s, l, f), m, g) == N(s, m, g) + if m == l && g == f then 1 else 0
  {
  }

  lemma PopCounts(s: Server, l: nat)
    requires l < |s.queues| && s.queues[l] != []
    ensures var t := s.(queues := s.queues[l := s.queues[l][1..]]);
      forall m: nat, g :: N(s, m, g) == N(t, m, g) + if m == l && g == s.queues[l][0] then 1 else 0
  {
    assert s.queues[l] == [s.queues[l][0]] + s.queues[l][1..];
  }

  /** Where a connection is in its life, and the one functor that will move it on. */
  ghost predicate ConnInv(s: Server, c: nat)
    requires c < |s.conns|
  {
    var k := s.conns[c];
    && k.loop < |s.queues|
    && k.log <= LIFE
    && N(s, k.loop, ConnectEstablished(c)) == (if |k.log| == 0 then 1 else 0)
    && N(s, 0, RemoveConnectionInLoop(c)) == (if |k.log| == 2 then 1 else 0)
    && N(s, k.loop, ConnectDestroyed(c)) == (if |k.log| == 3 then 1 else 0)
    && (k.state.Connecting? <==> |k.log| == 0)
    && (k.state.Disconnected? <==> |k.log| >= 2)
    && (k.mask != NONE ==> |k.log| == 1)
    && (k.registered <==> 1 <= |k.log| <= 3)
    && (c in s.registry <==> |k.log| <= 2)
  }

  /** Established and not freed: a caller or a functor may hold a reference. */
  predicate InUse(k: Conn) {
    1 <= |k.log| <= 4
  }

  /** A functor waits only in the queue of the loop it is for. */
  ghost predicate FunctorInv(s: Server, l: nat, f: Functor) {
    && f.id < |s.conns|
    && l == HomeOf(s, f)
    && (f.ForceCloseInLoop? ==> InUse(s.conns[f.id]))
  }

  ghost predicate ActiveInv(s: Server, l: nat)
    requires l < |s.active|
  {
    && (forall c <- s.active[l] :: c < |s.conns| && s.conns[c].loop == l && |s.conns[c].log| == 1)
    && (forall i, j :: 0 <= i < j < |s.active[l]| ==> s.active[l][i] != s.active[l][j])
  }

  ghost predicate Inv(s: Server) {
    && s.sound
    && |s.queues| == |s.active| > 0
    && (forall c <- s.registry :: c < |s.conns|)
    && (forall c | 0 <= c < |s.conns| :: ConnInv(s, c))
    && (forall l: nat, f | N(s, l, f) > 0 :: FunctorInv(s, l, f))
    && (forall l | 0 <= l < |s.active| :: ActiveInv(s, l))
    && (forall a <- s.callers :: a.id < |s.conns| && InUse(s.conns[a.id]))
  }

  /** Between the two states only connection `c`, its functors, callers and map entry changed. */
  ghost predicate Moved(s: Server, t: Server, c: nat) {
    && c < |s.conns| == |t.conns|
    && |t.queues| == |s.queues| && |t.active| == |s.active|
    && t.conns[c].loop == s.conns[c].loop
    && (forall d | 0 <= d < |s.conns| && d != c :: t.conns[d] == s.conns[d])
    && (forall d | d != c :: d in t.registry <==> d in s.registry)
    && (forall l: nat, f: Functor | f.id != c :: N(t, l, f) == N(s, l, f))
    && (forall a <- t.callers | a.id != c :: a in s.callers)
    && (forall l | 0 <= l < |s.active| :: t.active[l] == s.active[l] || (s.active[l] != [] && t.active[l] == s.active[l][1..]))
  }

  lemma OthersKeep(s: Server, t: Server, c: nat)
    requires Inv(s) && Moved(s, t, c)
    ensures forall d | 0 <= d < |t.conns| && d != c :: ConnInv(t, d)
  {
    forall d | 0 <= d < |t.conns| && d != c
      ensures ConnInv(t, d)
    {
      assert ConnInv(s, d);
      var l := s.conns[d].loop;
      assert N(t, l, ConnectEstablished(d)) == N(s, l, ConnectEstablished(d));
      assert N(t, 0, RemoveConnectionInLoop(d)) == N(s, 0, RemoveConnectionInLoop(d));
      assert N(t, l, ConnectDestroyed(d)) == N(s, l, ConnectDestroyed(d));
    }
  }

  lemma FunctorsKeep(s: Server, t: Server, c: nat)
    requires Inv(s) && Moved(s, t, c)
    requires forall l: nat, f: Functor | f.id == c && N(t, l, f) > 0 :: FunctorInv(t, l, f)
    ensures forall l: nat, f: Functor | N(t, l, f) > 0 :: FunctorInv(t, l, f)
  {
    forall l: nat, f: Functor | N(t, l, f) > 0 && f.id != c
      ensures FunctorInv(t, l, f)
    {
      assert FunctorInv(s, l, f);
    }
  }

  lemma ActiveKeep(s: Server, t: Server, c: nat)
    requires Inv(s) && Moved(s, t, c)
    requires |t.conns[c].log| == 1 || forall l | 0 <= l < |t.active| :: c !in t.active[l]
    ensures forall l | 0 <= l < |t.active| :: ActiveInv(t, l)
  {
    forall l | 0 <= l < |t.active|
      ensures ActiveInv(t, l)
    {
      assert ActiveInv(s, l);
      assert forall d <- t.active[l] :: d in s.active[l];
    }
  }

  /** What a step has to show: the connection it moved, and that the rest of the world is the same. */
  lemma MoveKeepsInv(s: Server, t: Server, c: nat)
    requires Inv(s) && Moved(s, t, c) && t.sound
    requires forall d <- t.registry :: d < |t.conns|
    requires ConnInv(t, c)
    requires forall l: nat, f: Functor | f.id == c && N(t, l, f) > 0 :: FunctorInv(t, l, f)
    requires forall a <- t.callers | a.id == c :: InUse(t.conns[c])
    requires |t.conns[c].log| == 1 || forall l | 0 <= l < |t.active| :: c !in t.active[l]
    ensures Inv(t)
  {
    OthersKeep(s, t, c);
    FunctorsKeep(s, t, c);
    ActiveKeep(s, t, c);
  }

  /** How far a life has come, by its marks. */
  lemma MarksOf(log: seq<Mark>)
    requires log <= LIFE
    ensures Destroyed in log <==> |log| >= 4
    ensures Freed in log <==> |log| >= 5
  {
    forall i | 0 <= i < |log|
      ensures log[i] == LIFE[i]
    {
    }
    if |log| >= 4 {
      assert log[3] == Destroyed;
    }
    if |log| >= 5 {
      assert log[4] == Freed;
    }
  }

  lemma MaskKeepsInv(s: Server, c: nat, wantsRead: bool, mask: Interest)
    requires Inv(s) && c < |s.conns| && IsOpen(s.conns[c].state)
    ensures Inv(Masked(s.(conns := s.conns[c := s.conns[c].(wantsRead := wantsRead)]), c, mask))
  {
    var t := Masked(s.(conns := s.conns[c := s.conns[c].(wantsRead := wantsRead)]), c, mask);
    assert ConnInv(s, c);
    assert forall l: nat, f: Functor :: N(t, l, f) == N(s, l, f);
    assert s.conns[c].log[0] == Established;
    MoveKeepsInv(s, t, c);
  }

  lemma SetMaskKeepsInv(s: Server, c: nat, mask: Interest)
    requires Inv(s) && c < |s.conns| && IsOpen(s.conns[c].state)
    ensures Inv(Masked(s, c, mask))
  {
    assert s == s.(conns := s.conns[c := s.conns[c].(wantsRead := s.conns[c].wantsRead)]);
    MaskKeepsInv(s, c, s.conns[c].wantsRead, mask);
  }

  /** After the close and before the destruction `stop_read` updates a channel that is still there. */
  lemma StopAfterCloseKeepsInv(s: Server, c: nat)
    requires Inv(s) && c < |s.conns| && s.conns[c].state.Disconnected? && Destroyed !in s.conns[c].log
    ensures Inv(Reading(s, c, false))
  {
    var t := Reading(s, c, false);
    var k := s.conns[c];
    assert ConnInv(s, c);
    MarksOf(k.log);
    IdleUnlessOpen(s, c);
    assert forall l: nat, f: Functor :: N(t, l, f) == N(s, l, f);
    MoveKeepsInv(s, t, c);
  }

  /**
   The guard on reading is exact: `start_read` is for connections not Disconnected, and
   `stop_read` for them too, or before the destruction, or when reading was stopped already.
   */
  lemma ReadingKeepsInvIff(s: Server, c: nat, on: bool)
    requires Inv(s) && Enabled(s, SetReading(c, on))
    ensures Inv(Reading(s, c, on)) <==> Guarded(s, SetReading(c, on))
  {
    var k, t := s.conns[c], Reading(s, c, on);
    assert ConnInv(s, c);
    if IsOpen(k.state) {
      if t != s {
        MaskKeepsInv(s, c, on, Interest(on, k.mask.write));
      }
    } else if !on && Destroyed !in k.log {
      StopAfterCloseKeepsInv(s, c);
    } else if on {
      assert !ConnInv(t, c);
    }
  }

  lemma WriteKeepsInv(s: Server, caller: Caller)
    requires Inv(s) && Enabled(s, Commit(caller)) && Guarded(s, Commit(caller))
    ensures Inv(Committed(s, caller))
  {
    var c, t := caller.id, Committed(s, caller);
    assert ConnInv(s, c);
    assert forall l: nat, f: Functor :: N(t, l, f) == N(s, l, f);
    MoveKeepsInv(s, t, c);
  }

  /** The guard on the write of the state is exact, for a shutdown as for a close. */
  lemma CommitKeepsInvIff(s: Server, caller: Caller)
    requires Inv(s) && Enabled(s, Commit(caller))
    ensures Inv(Committed(s, caller)) <==> Guarded(s, Commit(caller))
  {
    if Guarded(s, Commit(caller)) {
      WriteKeepsInv(s, caller);
    } else {
      assert ConnInv(s, caller.id);
      assert !ConnInv(Committed(s, caller), caller.id);
    }
  }

  /** A queued force close changes no count that matters. */
  lemma QueueKeepsInv(s: Server, c: nat)
    requires Inv(s) && Enabled(s, Queue(c))
    ensures Inv(Queued(s, c))
  {
    var u, t := s.(callers := s.callers - multiset{Queueing(c)}), Queued(s, c);
    assert ConnInv(s, c);
    assert forall l: nat, f: Functor :: N(u, l, f) == N(s, l, f);
    PushCounts(u, s.conns[c].loop, ForceCloseInLoop(c));
    if |s.conns[c].log| != 1 {
      IdleUnlessOpen(s, c);
    }
    MoveKeepsInv(s, t, c);
  }

  /** When nothing refers to a destroyed connection, its destructor finds it Disconnected. */
  lemma ReleaseKeepsInv(s: Server, c: nat)
    requires Inv(s) && Enabled(s, Release(c))
    ensures Inv(Released(s, c))
  {
    var t := Released(s, c);
    var k := s.conns[c];
    assert ConnInv(s, c);
    MarksOf(k.log);
    assert t.conns[c].log == LIFE[..5];
    IdleUnlessOpen(s, c);
    forall l: nat, f: Functor
      ensures N(t, l, f) == N(s, l, f) && (f.id == c ==> N(s, l, f) == 0)
    {
      assert l < |s.queues| ==> s.queues[l] in s.queues;
    }
    MoveKeepsInv(s, t, c);
  }

  /** Establishing a connection whose functor was just taken from its queue. */
  lemma EstablishKeepsInv(s: Server, u: Server, c: nat)
    requires Inv(s) && Taken(s, u, c, ConnectEstablished(c))
    ensures Inv(Establish(u, c))
  {
    var t := Establish(u, c);
    var l := s.conns[c].loop;
    assert ConnInv(s, c);
    assert forall m: nat, f :: N(t, m, f) == N(u, m, f);
    assert Interest(true, s.conns[c].mask.write) != NONE;
    MoveKeepsInv(s, t, c);
  }

  /** The loop whose queue a functor belongs in. */
  function HomeOf(s: Server, f: Functor): nat
    requires f.id < |s.conns|
  {
    if f.RemoveConnectionInLoop? then 0 else s.conns[f.id].loop
  }

  /** `u` is `s` with `f` taken from the head of the queue of the loop `c` needs it on. */
  ghost predicate Taken(s: Server, u: Server, c: nat, f: Functor) {
    && c < |s.conns| && f.id == c
    && u == s.(queues := u.queues) && |u.queues| == |s.queues|
    && (forall m: nat, g: Functor ::
          N(s, m, g) == N(u, m, g) + (if m == HomeOf(s, f) && g == f then 1 else 0))
  }

  /** A connection is reported only on its own loop, so not at all while that loop runs functors. */
  lemma QuietLoop(s: Server, c: nat)
    requires Inv(s) && c < |s.conns| && s.conns[c].loop < |s.active| && s.active[s.conns[c].loop] == []
    ensures forall l | 0 <= l < |s.active| :: c !in s.active[l]
  {
    forall l | 0 <= l < |s.active|
      ensures c !in s.active[l]
    {
      assert ActiveInv(s, l);
    }
  }

  /** An established connection that is not reported on either has been established on an open state. */
  lemma IdleUnlessOpen(s: Server, c: nat)
    requires Inv(s) && c < |s.conns| && !IsOpen(s.conns[c].state)
    ensures forall l | 0 <= l < |s.active| :: c !in s.active[l]
  {
    assert ConnInv(s, c);
    forall l | 0 <= l < |s.active|
      ensures c !in s.active[l]
    {
      assert ActiveInv(s, l);
    }
  }

  /** Erasing a closed connection: whoever runs it finds the map entry. */
  lemma EraseKeepsInv(s: Server, u: Server, c: nat)
    requires Inv(s) && Taken(s, u, c, RemoveConnectionInLoop(c)) && N(s, 0, RemoveConnectionInLoop(c)) > 0
    ensures Inv(Erase(u, c))
  {
    var t := Erase(u, c);
    var k := s.conns[c];
    assert ConnInv(s, c);
    assert |k.log| == 2;
    IdleUnlessOpen(s, c);
    var v := u.(conns := t.conns, registry := t.registry, sound := t.sound);
    PushCounts(v, k.loop, ConnectDestroyed(c));
    assert forall m: nat, f: Functor :: N(v, m, f) == N(u, m, f);
    assert t.conns[c].log == LIFE[..3];
    MoveKeepsInv(s, t, c);
  }

  lemma DestroyKeepsInv(s: Server, u: Server, c: nat)
    requires Inv(s) && Taken(s, u, c, ConnectDestroyed(c)) && N(s, s.conns[c].loop, ConnectDestroyed(c)) > 0
    ensures Inv(Destroy(u, c))
  {
    var t := Destroy(u, c);
    assert ConnInv(s, c);
    IdleUnlessOpen(s, c);
    assert forall m: nat, f: Functor :: N(t, m, f) == N(u, m, f);
    assert t.conns[c].log == LIFE[..4];
    MoveKeepsInv(s, t, c);
  }

  /** `u` is `s` at the moment `handle_close` is called on `c`. */
  ghost predicate AboutToClose(s: Server, u: Server, c: nat) {
    && c < |s.conns| && IsOpen(s.conns[c].state)
    && u == s.(queues := u.queues, active := u.active)
    && |u.queues| == |s.queues| && |u.active| == |s.active|
    && (forall l: nat, f: Functor | f != ForceCloseInLoop(c) :: N(u, l, f) == N(s, l, f))
    && (forall l: nat, f: Functor :: N(u, l, f) <= N(s, l, f))
    && (forall l | 0 <= l < |s.active| ::
          u.active[l] == s.active[l] || (s.active[l] != [] && u.active[l] == s.active[l][1..]))
    && (forall l | 0 <= l < |s.active| :: c !in u.active[l])
  }

  /** On an I/O loop: the close leaves exactly one removal behind for the base loop. */
  lemma FarCloseKeepsInv(s: Server, u: Server, c: nat)
    requires Inv(s) && AboutToClose(s, u, c) && s.conns[c].loop != 0
    ensures Inv(Close(u, c))
  {
    var t := Close(u, c);
    assert ConnInv(s, c);
    assert s.conns[c].log[0] == Established;
    var v := u.(conns := t.conns, sound := t.sound);
    PushCounts(v, 0, RemoveConnectionInLoop(c));
    assert forall m: nat, f: Functor :: N(v, m, f) == N(u, m, f);
    assert t.conns[c].log == LIFE[..2];
    MoveKeepsInv(s, t, c);
  }

  /** On the base loop: the close erases at once and leaves exactly one destruction behind. */
  lemma NearCloseKeepsInv(s: Server, u: Server, c: nat)
    requires Inv(s) && AboutToClose(s, u, c) && s.conns[c].loop == 0
    ensures Inv(Close(u, c))
  {
    var t := Close(u, c);
    assert ConnInv(s, c);
    assert s.conns[c].log[0] == Established;
    var v := u.(conns := t.conns, registry := t.registry, sound := t.sound);
    PushCounts(v, 0, ConnectDestroyed(c));
    assert forall m: nat, f: Functor :: N(v, m, f) == N(u, m, f);
    assert t.conns[c].log == LIFE[..3];
    MoveKeepsInv(s, t, c);
  }

  lemma CloseKeepsInv(s: Server, u: Server, c: nat)
    requires Inv(s) && AboutToClose(s, u, c)
    ensures Inv(Close(u, c))
  {
    if s.conns[c].loop == 0 { NearCloseKeepsInv(s, u, c); } else { FarCloseKeepsInv(s, u, c); }
  }

  lemma DispatchKeepsInv(s: Server, l: nat, closes: bool)
    requires Inv(s) && Enabled(s, Dispatch(l, closes))
    ensures Inv(Next(s, Dispatch(l, closes)))
  {
    var c := s.active[l][0];
    assert ActiveInv(s, l);
    assert ConnInv(s, c);
    var u := s.(active := s.active[l := s.active[l][1..]]);
    assert forall m: nat, f: Functor :: N(u, m, f) == N(s, m, f);
    if closes {
      forall m | 0 <= m < |u.active|
        ensures c !in u.active[m]
      {
        assert ActiveInv(s, m);
      }
      CloseKeepsInv(s, u, c);
    } else {
      MoveKeepsInv(s, u, c);
    }
  }

  lemma RunFunctorKeepsInv(s: Server, l: nat)
    requires Inv(s) && Enabled(s, RunFunctor(l))
    ensures Inv(Next(s, RunFunctor(l)))
  {
    var f := s.queues[l][0];
    var c := f.id;
    var u := s.(queues := s.queues[l := s.queues[l][1..]]);
    PopCounts(s, l);
    assert N(s, l, f) > 0;
    assert FunctorInv(s, l, f);
    assert Taken(s, u, c, f);
    match f
    case ConnectEstablished(_) => EstablishKeepsInv(s, u, c);
    case ForceCloseInLoop(_) =>
      QuietLoop(s, c);
      if IsOpen(s.conns[c].state) { CloseKeepsInv(s, u, c); } else { DropKeepsInv(s, u, c); }
    case RemoveConnectionInLoop(_) => EraseKeepsInv(s, u, c);
    case ConnectDestroyed(_) => DestroyKeepsInv(s, u, c);
  }

  /** A force close that finds the connection closed does nothing. */
  lemma DropKeepsInv(s: Server, u: Server, c: nat)
    requires Inv(s) && Taken(s, u, c, ForceCloseInLoop(c)) && !IsOpen(s.conns[c].state)
    ensures Inv(u)
  {
    assert ConnInv(s, c);
    IdleUnlessOpen(s, c);
    MoveKeepsInv(s, u, c);
  }

  lemma FreshIdHasNoFunctors(s: Server)
    requires Inv(s)
    ensures forall l: nat, f: Functor | f.id >= |s.conns| :: N(s, l, f) == 0
  {
    forall l: nat, f: Functor | f.id >= |s.conns|
      ensures N(s, l, f) == 0
    {
      assert N(s, l, f) > 0 ==> FunctorInv(s, l, f);
    }
  }

  /** What a new connection has to show. */
  lemma NewKeepsInv(s: Server, t: Server, c: nat)
    requires Inv(s) && c == |s.conns|
    requires t == s.(conns := t.conns, registry := s.registry + {c}, queues := t.queues)
    requires |t.queues| == |s.queues| && |t.conns| == c + 1 && t.conns[..c] == s.conns
    requires forall l: nat, f: Functor | f.id != c :: N(t, l, f) == N(s, l, f)
    requires ConnInv(t, c)
    requires forall l: nat, f: Functor | f.id == c && N(t, l, f) > 0 :: FunctorInv(t, l, f)
    ensures Inv(t)
  {
    assert forall d | 0 <= d < c :: t.conns[d] == t.conns[..c][d] == s.conns[d];
    forall d | 0 <= d < c
      ensures ConnInv(t, d)
    {
      assert ConnInv(s, d);
      var l := s.conns[d].loop;
      assert N(t, l, ConnectEstablished(d)) == N(s, l, ConnectEstablished(d));
      assert N(t, 0, RemoveConnectionInLoop(d)) == N(s, 0, RemoveConnectionInLoop(d));
      assert N(t, l, ConnectDestroyed(d)) == N(s, l, ConnectDestroyed(d));
    }
    forall l: nat, f: Functor | N(t, l, f) > 0 && f.id != c
      ensures FunctorInv(t, l, f)
    {
      assert FunctorInv(s, l, f);
    }
    forall l | 0 <= l < |t.active|
      ensures ActiveInv(t, l)
    {
      assert ActiveInv(s, l);
    }
  }

  lemma AcceptKeepsInv(s: Server, l: nat)
    requires Inv(s) && Enabled(s, Accept(l))
    ensures Inv(Accepted(s, l))
  {
    var c, t := |s.conns|, Accepted(s, l);
    FreshIdHasNoFunctors(s);
    var u := s.(conns := s.conns + [Conn(l, Connecting, true, NONE, false, [])], registry := s.registry + {c});
    assert forall m: nat, f: Functor :: N(u, m, f) == N(s, m, f);
    if l == 0 {
      assert forall m: nat, f: Functor :: N(t, m, f) == N(s, m, f);
    } else {
      PushCounts(u, l, ConnectEstablished(c));
    }
    assert t.conns[..c] == s.conns;
    NewKeepsInv(s, t, c);
  }

  lemma PollKeepsInv(s: Server, l: nat, ready: seq<nat>)
    requires Inv(s) && Enabled(s, Poll(l, ready))
    ensures Inv(Next(s, Poll(l, ready)))
  {
    var t := Next(s, Poll(l, ready));
    assert forall m: nat, f: Functor :: N(t, m, f) == N(s, m, f);
    forall c | 0 <= c < |t.conns|
      ensures ConnInv(t, c)
    {
      assert ConnInv(s, c);
    }
    forall m: nat, f: Functor | N(t, m, f) > 0
      ensures FunctorInv(t, m, f)
    {
      assert FunctorInv(s, m, f);
    }
    forall m | 0 <= m < |t.active|
      ensures ActiveInv(t, m)
    {
      assert ActiveInv(s, m);
      assert forall c <- ready :: ConnInv(s, c);
    }
  }

  lemma CheckKeepsInv(s: Server, caller: Caller)
    requires Inv(s) && Enabled(s, Check(caller))
    ensures Inv(Next(s, Check(caller)))
  {
    var t := Next(s, Check(caller));
    assert forall m: nat, f: Functor :: N(t, m, f) == N(s, m, f);
    forall c | 0 <= c < |t.conns|
      ensures ConnInv(t, c)
    {
      assert ConnInv(s, c);
    }
    forall m: nat, f: Functor | N(t, m, f) > 0
      ensures FunctorInv(t, m, f)
    {
      assert FunctorInv(s, m, f);
    }
    forall m | 0 <= m < |t.active|
      ensures ActiveInv(t, m)
    {
      assert ActiveInv(s, m);
    }
    assert ConnInv(s, caller.id);
  }

  /** The guard is exact: a step keeps the invariant if and only if it is guarded. */
  lemma StepKeepsInvIff(s: Server, step: Step)
    requires Inv(s) && Enabled(s, step)
    ensures Inv(Next(s, step)) <==> Guarded(s, step)
  {
    hide Inv;
    match step
    case Accept(l) => AcceptKeepsInv(s, l);
    case Poll(l, ready) => PollKeepsInv(s, l, ready);
    case Dispatch(l, closes) => DispatchKeepsInv(s, l, closes);
    case RunFunctor(l) => RunFunctorKeepsInv(s, l);
    case SetMask(c, mask) => SetMaskKeepsInv(s, c, mask);
    case SetReading(c, on) => ReadingKeepsInvIff(s, c, on);
    case Check(caller) => CheckKeepsInv(s, caller);
    case Commit(caller) => CommitKeepsInvIff(s, caller);
    case Queue(c) => QueueKeepsInv(s, c);
    case Release(c) => ReleaseKeepsInv(s, c);
  }

  /** Any interleaving of steps that can happen. */
  ghost predicate IsRun(s: Server, steps: seq<Step>)
    decreases |steps|
  {
    steps == [] || (Enabled(s, steps[0]) && IsRun(Next(s, steps[0]), steps[1..]))
  }

  ghost function After(s: Server, steps: seq<Step>): Server
    requires IsRun(s, steps)
    decreases |steps|
  {
    if steps == [] then s else After(Next(s, steps[0]), steps[1..])
  }

  /** A run whose users keep to what is asked of them. */
  ghost predicate IsGuardedRun(s: Server, steps: seq<Step>)
    requires IsRun(s, steps)
    decreases |steps|
  {
    steps == [] || (Guarded(s, steps[0]) && IsGuardedRun(Next(s, steps[0]), steps[1..]))
  }

  lemma {:induction false} RunKeepsInv(s: Server, steps: seq<Step>)
    requires Inv(s) && IsRun(s, steps) && IsGuardedRun(s, steps)
    ensures Inv(After(s, steps))
    decreases |steps|
  {
    hide Inv, Enabled, Guarded, Next;
    if steps != [] {
      StepKeepsInvIff(s, steps[0]);
      RunKeepsInv(Next(s, steps[0]), steps[1..]);
    }
  }

  lemma StartedInv(loops: nat)
    requires loops > 0
    ensures Inv(Started(loops))
  {
    var s := Started(loops);
    assert forall l: nat, f: Functor :: N(s, l, f) == 0;
  }

  /**
   Over every interleaving of the loops: each connection is established, closed, erased with
   result 1, destroyed and freed in this order and each at most once; no assertion of the source
   fails; and every update and removal of a channel is one its poller accepts.
   */
  lemma LivesInOrder(loops: nat, steps: seq<Step>)
    requires loops > 0 && IsRun(Started(loops), steps) && IsGuardedRun(Started(loops), steps)
    ensures var end := After(Started(loops), steps);
      end.sound && forall c <- end.conns :: c.log <= LIFE
  {
    StartedInv(loops);
    RunKeepsInv(Started(loops), steps);
    var end := After(Started(loops), steps);
    forall i | 0 <= i < |end.conns|
      ensures end.conns[i].log <= LIFE
    {
      assert ConnInv(end, i);
    }
  }

  /** With all queues empty, the map holds exactly the connections not Disconnected, and the rest are destroyed. */
  lemma SettledMapIsExact(loops: nat, steps: seq<Step>)
    requires loops > 0 && IsRun(Started(loops), steps) && IsGuardedRun(Started(loops), steps)
    requires forall q <- After(Started(loops), steps).queues :: q == []
    ensures var end := After(Started(loops), steps);
      && end.registry == (set c | 0 <= c < |end.conns| && !end.conns[c].state.Disconnected?)
      && forall c <- end.conns ::
        if c.state.Disconnected? then c.log == LIFE[..4] || c.log == LIFE else c.log == [Established]
  {
    StartedInv(loops);
    RunKeepsInv(Started(loops), steps);
    var end := After(Started(loops), steps);
    forall l: nat, f: Functor
      ensures N(end, l, f) == 0
    {
      assert l < |end.queues| ==> end.queues[l] in end.queues;
    }
    forall c | 0 <= c < |end.conns|
      ensures c in end.registry <==> !end.conns[c].state.Disconnected?
      ensures if end.conns[c].state.Disconnected? then end.conns[c].log == LIFE[..4] || end.conns[c].log == LIFE
              else end.conns[c].log == [Established]
    {
      assert ConnInv(end, c);
      assert end.conns[c].log == LIFE[..|end.conns[c].log|];
    }
  }

  // The guard is exact in what follows from it, over every continuation.

  predicate InOrder(s: Server) {
    s.sound && forall c <- s.conns :: c.log <= LIFE
  }

  /** Life goes on in order as long as users keep to the guard. */
  ghost predicate LivesOn(s: Server) {
    forall steps | IsRun(s, steps) && IsGuardedRun(s, steps) :: InOrder(After(s, steps))
  }

  lemma InvLivesOn(s: Server)
    requires Inv(s)
    ensures LivesOn(s)
  {
    hide Inv, IsRun, IsGuardedRun, After;
    forall steps | IsRun(s, steps) && IsGuardedRun(s, steps)
      ensures InOrder(After(s, steps))
    {
      RunKeepsInv(s, steps);
      InvInOrder(After(s, steps));
    }
  }

  lemma InvInOrder(s: Server)
    requires Inv(s)
    ensures InOrder(s)
  {
    forall i | 0 <= i < |s.conns|
      ensures s.conns[i].log <= LIFE
    {
      assert ConnInv(s, i);
    }
  }

  lemma LivesNow(s: Server)
    requires LivesOn(s)
    ensures InOrder(s)
  {
    assert IsRun(s, []) && IsGuardedRun(s, []) && After(s, []) == s;
  }

  lemma LivesNext(s: Server, step: Step)
    requires LivesOn(s) && Enabled(s, step) && Guarded(s, step)
    ensures LivesOn(Next(s, step))
  {
    hide InOrder, Enabled, Guarded, Next;
    forall steps | IsRun(Next(s, step), steps) && IsGuardedRun(Next(s, step), steps)
      ensures InOrder(After(Next(s, step), steps))
    {
      assert ([step] + steps)[1..] == steps;
      assert IsRun(s, [step] + steps) && IsGuardedRun(s, [step] + steps);
    }
  }

  lemma ClosedAgain(s: Server, c: nat)
    requires c < |s.conns| && 2 <= |s.conns[c].log| <= 3 && s.conns[c].log <= LIFE
    ensures |Close(s, c).conns| == |s.conns| && !(Close(s, c).conns[c].log <= LIFE)
  {
    var k := s.conns[c];
    var log := Close(s, c).conns[c].log;
    assert log[|k.log|] == Closed && LIFE[|k.log|] != Closed;
  }

  /** A closed connection whose channel asks for something can be reported and closed again. */
  lemma {:induction false} ReportedIsClosedAgain(s: Server, c: nat)
    requires c < |s.conns| && s.conns[c].mask != NONE
    requires 2 <= |s.conns[c].log| <= 3 && s.conns[c].log <= LIFE
    requires s.conns[c].loop < |s.active|
    requires forall d <- s.active[s.conns[c].loop] :: d < |s.conns|
    ensures !LivesOn(s)
    decreases |s.active[s.conns[c].loop]|
  {
    hide LivesOn, Close;
    var l := s.conns[c].loop;
    if s.active[l] != [] {
      assert s.active[l][0] in s.active[l];
      assert forall d <- s.active[l][1..] :: d in s.active[l];
      ReportedIsClosedAgain(Next(s, Dispatch(l, false)), c);
      if LivesOn(s) { LivesNext(s, Dispatch(l, false)); }
    } else {
      var t := Next(s, Poll(l, [c]));
      var u := t.(active := t.active[l := t.active[l][1..]]);
      ClosedAgain(u, c);
      assert Next(t, Dispatch(l, true)) == Close(u, c);
      assert Close(u, c).conns[c] in Close(u, c).conns;
      if LivesOn(s) {
        LivesNext(s, Poll(l, [c]));
        LivesNext(t, Dispatch(l, true));
        LivesNow(Close(u, c));
      }
    }
  }

  /** After a late write the channel can ask for something again. */
  lemma LateWriteEndsLife(s: Server, caller: Caller)
    requires Inv(s) && Enabled(s, Commit(caller)) && !Guarded(s, Commit(caller))
    ensures !LivesOn(Committed(s, caller))
  {
    var c, t := caller.id, Committed(s, caller);
    assert ConnInv(s, c);
    MarksOf(s.conns[c].log);
    assert InUse(s.conns[c]);
    assert ActiveInv(s, s.conns[c].loop);
    var asking := Next(t, SetMask(c, Interest(true, false)));
    hide Inv, LivesOn;
    if LivesOn(t) {
      LivesNext(t, SetMask(c, Interest(true, false)));
      LivesNow(asking);
      ReportedIsClosedAgain(asking, c);
    }
  }

  lemma LateReadingEndsLife(s: Server, c: nat, on: bool)
    requires Inv(s) && Enabled(s, SetReading(c, on)) && !Guarded(s, SetReading(c, on))
    ensures !LivesOn(Reading(s, c, on))
  {
    var t := Reading(s, c, on);
    assert ConnInv(s, c);
    MarksOf(s.conns[c].log);
    assert ActiveInv(s, s.conns[c].loop);
    hide Inv, LivesOn;
    if LivesOn(t) {
      LivesNow(t);
      ReportedIsClosedAgain(t, c);
    }
  }

  /**
   A step keeps every connection's life in order, and every assertion, over every guarded
   continuation, if and only if it is guarded itself.
   */
  lemma StepKeepsLifeIff(s: Server, step: Step)
    requires Inv(s) && Enabled(s, step)
    ensures LivesOn(Next(s, step)) <==> Guarded(s, step)
  {
    hide Inv, LivesOn;
    if Guarded(s, step) {
      StepKeepsInvIff(s, step);
      InvLivesOn(Next(s, step));
    } else if step.Commit? {
      LateWriteEndsLife(s, step.caller);
    } else if step.SetReading? {
      LateReadingEndsLife(s, step.id, step.on);
    }
  }

  /**
   The guard on `Commit` is exact: a foreign `force_close` whose write comes after the close
   makes its functor close the connection again, and otherwise life goes on in order.
   */
  lemma ForcedCloseInOrderIff(s: Server, c: nat)
    requires Inv(s) && Enabled(s, Commit(Closing(c)))
    ensures var t := Run(Committed(s, Closing(c)), ForceCloseInLoop(c));
      t.conns[c].log <= LIFE <==> Guarded(s, Commit(Closing(c)))
  {
    assert ConnInv(s, c);
    hide Inv, ConnInv, N, MayUpdate;
    var k := s.conns[c];
    var t := Run(Committed(s, Closing(c)), ForceCloseInLoop(c));
    assert t.conns[c].log[..|k.log|] == k.log;
    if Guarded(s, Commit(Closing(c))) {
      assert k.log == LIFE[..1];
      assert t.conns[c].log == if k.loop == 0 then LIFE[..3] else LIFE[..2];
    } else {
      assert |k.log| < |LIFE| ==> LIFE[|k.log|] != Closed;
      assert t.conns[c].log[|k.log|] == Closed;
    }
  }

  ghost predicate Reaches(s: Server, end: Server) {
    exists steps :: IsRun(s, steps) && After(s, steps) == end
  }

  lemma ReachesItself(s: Server)
    ensures Reaches(s, s)
  {
    assert IsRun(s, []) && After(s, []) == s;
  }

  /** Equality of small servers, element by element. */
  ghost predicate Same(s: Server, t: Server) {
    && |s.conns| == |t.conns| == 1
    && s.conns[0].(log := []) == t.conns[0].(log := []) && s.conns[0].log == t.conns[0].log
    && s.registry == t.registry && s.callers == t.callers && s.sound == t.sound
    && |s.queues| == |t.queues| == 2 && s.queues[0] == t.queues[0] && s.queues[1] == t.queues[1]
    && |s.active| == |t.active| == 2 && s.active[0] == t.active[0] && s.active[1] == t.active[1]
  }

  lemma ReachesBy(s: Server, step: Step, t: Server, end: Server)
    requires Enabled(s, step) && Same(Next(s, step), t) && Reaches(t, end)
    ensures Reaches(s, end)
  {
    assert Next(s, step).conns == t.conns && Next(s, step).queues == t.queues && Next(s, step).active == t.active;
    var rest :| IsRun(t, rest) && After(t, rest) == end;
    assert ([step] + rest)[1..] == rest;
    assert IsRun(s, [step] + rest) && After(s, [step] + rest) == end;
  }

  const READS := Interest(true, false)

  /** The server with one connection on loop 1, open and polled for. */
  function OneOpen(callers: multiset<Caller>): Server {
    Server([Conn(1, Connected, true, READS, true, [Established])], {0}, [[], []], [[], []], callers, true)
  }

  function OneClosed(callers: multiset<Caller>): Server {
    Server([Conn(1, Disconnected, true, NONE, true, [Established, Closed])], {0},
           [[RemoveConnectionInLoop(0)], []], [[], []], callers, true)
  }

  lemma OneOpenReached(end: Server)
    requires Reaches(OneOpen(multiset{}), end)
    ensures Reaches(Started(2), end)
  {
    hide Reaches;
    var accepted := Server([Conn(1, Connecting, true, NONE, false, [])], {0},
                           [[], [ConnectEstablished(0)]], [[], []], multiset{}, true);
    ReachesBy(accepted, RunFunctor(1), OneOpen(multiset{}), end);
    assert Started(2).queues == [[], []] && Started(2).active == [[], []];
    ReachesBy(Started(2), Accept(1), accepted, end);
  }

  lemma OneClosedReached(callers: multiset<Caller>, end: Server)
    requires Reaches(OneClosed(callers), end)
    ensures Reaches(OneOpen(callers), end)
  {
    hide Reaches;
    var reported := OneOpen(callers).(active := [[], [0]]);
    ReachesBy(reported, Dispatch(1, true), OneClosed(callers), end);
    ReachesBy(OneOpen(callers), Poll(1, [0]), reported, end);
  }

  /** The closed connection after a late write. */
  function OneWritten(queue: seq<Functor>, callers: multiset<Caller>): Server {
    OneClosed(callers).(conns := [Conn(1, Disconnecting, true, NONE, true, [Established, Closed])],
                        queues := [[RemoveConnectionInLoop(0)], queue])
  }

  lemma OneWrittenReached(caller: Caller, end: Server)
    requires caller == Closing(0) || caller == ShuttingDown(0)
    requires Reaches(OneWritten([], if caller.Closing? then multiset{Queueing(0)} else multiset{}), end)
    ensures Reaches(Started(2), end)
  {
    hide Reaches;
    var written := OneWritten([], if caller.Closing? then multiset{Queueing(0)} else multiset{});
    ReachesBy(OneClosed(multiset{caller}), Commit(caller), written, end);
    OneClosedReached(multiset{caller}, end);
    ReachesBy(OneOpen(multiset{}), Check(caller), OneOpen(multiset{caller}), end);
    OneOpenReached(end);
  }

  /** A run without the guard on `Commit`: two closes, and the second erase finds nothing. */
  lemma LateForceCloseErasesNothing()
    ensures exists end ::
      Reaches(Started(2), end) && end.conns != [] && end.conns[0].log == [Established, Closed, Closed, Erased(1), Erased(0)]
  {
    hide Reaches;
    var queued := OneWritten([ForceCloseInLoop(0)], multiset{});
    var twice := queued.(conns := [Conn(1, Disconnected, true, NONE, true, [Established, Closed, Closed])],
      queues := [[RemoveConnectionInLoop(0), RemoveConnectionInLoop(0)], []]);
    var end := ErasedTwice(twice);
    ReachesBy(queued, RunFunctor(1), twice, end);
    ReachesBy(OneWritten([], multiset{Queueing(0)}), Queue(0), queued, end);
    OneWrittenReached(Closing(0), end);
  }

  lemma ErasedTwice(twice: Server) returns (end: Server)
    requires twice.conns == [Conn(1, Disconnected, true, NONE, true, [Established, Closed, Closed])]
    requires twice.queues == [[RemoveConnectionInLoop(0), RemoveConnectionInLoop(0)], []]
    requires twice.active == [[], []] && twice.registry == {0}
    ensures Reaches(twice, end)
    ensures end.conns != [] && end.conns[0].log == [Established, Closed, Closed, Erased(1), Erased(0)]
  {
    hide Reaches;
    var erased := twice.(conns := [Conn(1, Disconnected, true, NONE, true, [Established, Closed, Closed, Erased(1)])],
      registry := {}, queues := [[RemoveConnectionInLoop(0)], [ConnectDestroyed(0)]]);
    end := erased.(conns := [Conn(1, Disconnected, true, NONE, true, [Established, Closed, Closed, Erased(1), Erased(0)])],
      queues := [[], [ConnectDestroyed(0), ConnectDestroyed(0)]], sound := false);
    ReachesItself(end);
    ReachesBy(erased, RunFunctor(0), end, end);
    ReachesBy(twice, RunFunctor(0), erased, end);
  }

  /** The same with a late `shutdown`: the map forgets a connection that is not Disconnected, and its destructor fails. */
  lemma LateShutdownFailsDestructor()
    ensures exists end ::
      Reaches(Started(2), end) && !end.sound && end.registry == {} && end.queues == [[], []]
      && end.conns != [] && end.conns[0].log == LIFE && end.conns[0].state.Disconnecting?
  {
    hide Reaches;
    var end := WrittenIsFreed();
    OneWrittenReached(ShuttingDown(0), end);
  }

  lemma WrittenIsFreed() returns (end: Server)
    ensures Reaches(OneWritten([], multiset{}), end)
    ensures !end.sound && end.registry == {} && end.queues == [[], []]
    ensures end.conns != [] && end.conns[0].log == LIFE && end.conns[0].state.Disconnecting?
  {
    hide Reaches;
    var written := OneWritten([], multiset{});
    var erased := written.(conns := [Conn(1, Disconnecting, true, NONE, true, [Established, Closed, Erased(1)])],
      registry := {}, queues := [[], [ConnectDestroyed(0)]]);
    var destroyed := erased.(conns := [Conn(1, Disconnecting, true, NONE, false, [Established, Closed, Erased(1), Destroyed])],
      queues := [[], []]);
    end := destroyed.(conns := [Conn(1, Disconnecting, true, NONE, false, LIFE)], sound := false);
    ReachesItself(end);
    ReachesBy(destroyed, Release(0), end, end);
    ReachesBy(erased, RunFunctor(1), destroyed, end);
    ReachesBy(written, RunFunctor(0), erased, end);
  }

  /** A run without the guard on `start_read`: the closed channel is reported again and closed twice. */
  lemma LateStartReadClosesTwice()
    ensures exists end ::
      Reaches(Started(2), end) && !end.sound && end.conns != [] && end.conns[0].log == [Established, Closed, Closed]
  {
    hide Reaches;
    var reading := OneClosed(multiset{}).(conns := [Conn(1, Disconnected, true, READS, true, [Established, Closed])]);
    var reported := reading.(active := [[], [0]]);
    var end := reading.(conns := [Conn(1, Disconnected, true, NONE, true, [Established, Closed, Closed])],
      queues := [[RemoveConnectionInLoop(0), RemoveConnectionInLoop(0)], []], sound := false);
    ReachesItself(end);
    ReachesBy(reported, Dispatch(1, true), end, end);
    ReachesBy(reading, Poll(1, [0]), reported, end);
    ReachesBy(OneClosed(multiset{}), SetReading(0, true), reading, end);
    OneClosedReached(multiset{}, end);
    OneOpenReached(end);
  }

  /** The server object, with the loops' queues and the connection objects it shares with them. */
  class TcpServer {
    var nextConnId: nat
    var connections: set<nat>
    var conns: seq<Conn>
    var queues: seq<seq<Functor>>
    var active: seq<seq<nat>>
    ghost var callers: multiset<Caller>
    ghost var sound: bool

    ghost function V(): Server
      reads this
    {
      Server(conns, connections, queues, active, callers, sound)
    }

    /** Connection number `k` is named after the `k + 1`st id, so names are never reused. */
    ghost predicate Valid()
      reads this
    {
      Inv(V()) && nextConnId == |conns| + 1
    }

    constructor (loops: nat)
      requires loops > 0
      ensures Valid() && V() == Started(loops)
    {
      nextConnId, connections, conns := 1, {}, [];
      queues, active := seq(loops, _ => []), seq(loops, _ => []);
      callers, sound := multiset{}, true;
      new;
      StartedInv(loops);
    }

    method QueueInLoop(l: nat, f: Functor)
      requires l < |queues|
      modifies this`queues
      ensures V() == Push(old(V()), l, f)
    {
      queues := queues[l := queues[l] + [f]];
    }

    /** On the connection's own loop. */
    method ConnectEstablished(c: nat)
      requires c < |conns|
      modifies this`conns, this`sound
      ensures V() == Establish(old(V()), c)
    {
      var k := conns[c];
      sound := sound && k.state.Connecting?;
      k := k.(state := Connected);
      k := k.(mask := Interest(true, k.mask.write));
      sound := sound && MayUpdate(k, k.mask);
      conns := conns[c := k.(registered := true, log := k.log + [Established])];
    }

    method ConnectDestroyed(c: nat)
      requires c < |conns|
      modifies this`conns, this`sound
      ensures V() == Destroy(old(V()), c)
    {
      var k := conns[c];
      if k.state.Connected? {
        k := k.(state := Disconnected, mask := NONE);
      }
      sound := sound && k.registered && k.mask == NONE;
      conns := conns[c := k.(registered := false, log := k.log + [Destroyed])];
    }

    /** On the base loop. */
    method RemoveConnectionInLoop(c: nat)
      requires c < |conns| && conns[c].loop < |queues|
      modifies this`connections, this`conns, this`queues, this`sound
      ensures V() == Erase(old(V()), c)
    {
      var n := if c in connections then 1 else 0;
      connections := connections - {c};
      sound := sound && n == 1;
      conns := conns[c := conns[c].(log := conns[c].log + [Erased(n)])];
      QueueInLoop(conns[c].loop, Functor.ConnectDestroyed(c));
    }

    /** The close callback: at once on the base loop, through its queue from another. */
    method RemoveConnection(c: nat, from: nat)
      requires c < |conns| && conns[c].loop < |queues|
      modifies this`connections, this`conns, this`queues, this`sound
      ensures V() == if from == 0 then Erase(old(V()), c) else Push(old(V()), 0, Functor.RemoveConnectionInLoop(c))
    {
      if from == 0 {
        RemoveConnectionInLoop(c);
      } else {
        QueueInLoop(0, Functor.RemoveConnectionInLoop(c));
      }
    }

    method HandleClose(c: nat)
      requires c < |conns| && conns[c].loop < |queues|
      modifies this`connections, this`conns, this`queues, this`sound
      ensures V() == Close(old(V()), c)
    {
      var k := conns[c];
      sound := sound && IsOpen(k.state) && MayUpdate(k, NONE);
      conns := conns[c := k.(state := Disconnected, mask := NONE, log := k.log + [Closed])];
      RemoveConnection(c, k.loop);
    }

    /** A connection on a loop: entered in the map, then established on that loop. */
    method NewConnection(l: nat)
      requires Valid() && l < |queues|
      modifies this
      ensures Valid() && V() == Accepted(old(V()), l)
      ensures nextConnId == old(nextConnId) + 1 && connections == old(connections) + {old(nextConnId) - 1}
    {
      AcceptKeepsInv(V(), l);
      var c := nextConnId - 1;
      nextConnId := nextConnId + 1;
      conns := conns + [Conn(l, Connecting, true, NONE, false, [])];
      connections := connections + {c};
      if l == 0 {
        ConnectEstablished(c);
      } else {
        QueueInLoop(l, Functor.ConnectEstablished(c));
      }
    }

    method RunTaken(f: Functor)
      requires f.id < |conns| && conns[f.id].loop < |queues|
      modifies this`connections, this`conns, this`queues, this`sound
      ensures V() == Run(old(V()), f)
    {
      hide Establish, Erase, Close, Destroy;
      match f
      case ConnectEstablished(c) => ConnectEstablished(c);
      case ForceCloseInLoop(c) =>
        if IsOpen(conns[c].state) {
          HandleClose(c);
        }
      case RemoveConnectionInLoop(c) => RemoveConnectionInLoop(c);
      case ConnectDestroyed(c) => ConnectDestroyed(c);
    }

    /** The head of a loop's queue is taken and run. */
    method RunOne(l: nat)
      requires Valid() && Enabled(V(), RunFunctor(l))
      modifies this
      ensures Valid() && V() == Next(old(V()), RunFunctor(l))
      ensures nextConnId == old(nextConnId)
    {
      hide Inv, Run;
      RunFunctorKeepsInv(V(), l);
      HomesExist(V());
      RunKeepsCount(V().(queues := queues[l := queues[l][1..]]), queues[l][0]);
      var f := queues[l][0];
      queues := queues[l := queues[l][1..]];
      RunTaken(f);
    }
  }

  lemma RunKeepsCount(s: Server, f: Functor)
    requires f.id < |s.conns|
    ensures |Run(s, f).conns| == |s.conns|
  {
  }

  lemma HomesExist(s: Server)
    requires Inv(s)
    ensures forall k <- s.conns :: k.loop < |s.queues|
  {
    forall c | 0 <= c < |s.conns|
      ensures s.conns[c].loop < |s.queues|
    {
      assert ConnInv(s, c);
    }
  }
}
