/**
 What one step does to the life of a connection, told from what happens: who is closed and
 who is erased, what becomes of each connection, which functor is left on which loop.
 */
module LifecycleSteps {
  import opened Bytes
  import opened Channels
  import opened ConnectionStates
  import opened Lifecycles

  /** The functor that a step runs. */
  function Runs(s: Server, step: Step): Option<Functor> {
    match step
    case RunFunctor(l) => if l < |s.queues| && s.queues[l] != [] then Some(s.queues[l][0]) else None
    case _ => None
  }

  /** A reported close, or a forced one that finds the connection open. */
  predicate Closes(s: Server, step: Step, c: nat)
    requires c < |s.conns|
  {
    match step
    case Dispatch(l, closes) => closes && l < |s.active| && s.active[l] != [] && s.active[l][0] == c
    case RunFunctor(_) =>
      Runs(s, step) == Some(ForceCloseInLoop(c)) && (s.conns[c].state.Connected? || s.conns[c].state.Disconnecting?)
    case _ => false
  }

  /** At once with a close on the base loop, and by a functor otherwise. */
  predicate Erases(s: Server, step: Step, c: nat)
    requires c < |s.conns|
  {
    (Closes(s, step, c) && s.conns[c].loop == 0) || Runs(s, step) == Some(RemoveConnectionInLoop(c))
  }

  function Found(s: Server, c: nat): Mark {
    Erased(if c in s.registry then 1 else 0)
  }

  // The handlers, on the connection they are for.

  function Opened(k: Conn): Conn {
    k.(state := Connected, mask := Interest(true, k.mask.write), registered := true, log := k.log + [Established])
  }

  function ClosedDown(k: Conn, found: Mark): Conn {
    k.(state := Disconnected, mask := NONE, log := k.log + (if k.loop == 0 then [Closed, found] else [Closed]))
  }

  /** A connection that nobody closed is closed by its destruction. */
  function TornDown(k: Conn): Conn {
    if k.state.Connected? then
      k.(state := Disconnected, mask := NONE, registered := false, log := k.log + [Destroyed])
    else k.(registered := false, log := k.log + [Destroyed])
  }

  function ReadingSet(k: Conn, on: bool): Conn {
    if k.wantsRead == on && k.mask.read == on then k
    else k.(wantsRead := on, mask := Interest(on, k.mask.write))
  }

  /** What becomes of a connection in a step of the server. */
  function Becomes(s: Server, step: Step, c: nat): Conn
    requires c < |s.conns|
  {
    var k := s.conns[c];
    match step
    case RunFunctor(_) =>
      if Runs(s, step) == Some(ConnectEstablished(c)) then Opened(k)
      else if Closes(s, step, c) then ClosedDown(k, Found(s, c))
      else if Runs(s, step) == Some(RemoveConnectionInLoop(c)) then k.(log := k.log + [Found(s, c)])
      else if Runs(s, step) == Some(ConnectDestroyed(c)) then TornDown(k)
      else k
    case Dispatch(_, _) => if Closes(s, step, c) then ClosedDown(k, Found(s, c)) else k
    case SetMask(d, mask) => if c == d then k.(mask := mask) else k
    case SetReading(d, on) => if c == d then ReadingSet(k, on) else k
    case Commit(caller) => if c == caller.id then k.(state := Disconnecting) else k
    case Release(d) => if c == d then k.(log := k.log + [Freed]) else k
    case _ => k
  }

  /** The queues with a functor at the back of one. */
  function Behind(queues: seq<seq<Functor>>, l: nat, f: Functor): seq<seq<Functor>> {
    if l < |queues| then queues[l := queues[l] + [f]] else queues
  }

  lemma EstablishDoes(s: Server, c: nat)
    requires c < |s.conns|
    ensures var t := Establish(s, c);
      t == s.(conns := s.conns[c := Opened(s.conns[c])], sound := t.sound)
  {
  }

  lemma EraseDoes(s: Server, c: nat)
    requires c < |s.conns|
    ensures var t := Erase(s, c); var k := s.conns[c];
      t == s.(conns := s.conns[c := k.(log := k.log + [Found(s, c)])], registry := s.registry - {c},
              queues := Behind(s.queues, k.loop, ConnectDestroyed(c)), sound := t.sound)
  {
  }

  /** A close leaves the erasing to the base loop, unless it runs there. */
  lemma CloseDoes(s: Server, c: nat)
    requires c < |s.conns|
    ensures var t := Close(s, c); var k := s.conns[c];
      t == s.(conns := s.conns[c := ClosedDown(k, Found(s, c))],
              registry := if k.loop == 0 then s.registry - {c} else s.registry,
              queues := Behind(s.queues, 0, if k.loop == 0 then ConnectDestroyed(c) else RemoveConnectionInLoop(c)),
              sound := t.sound)
  {
    hide Erase, MayUpdate;
    var k := s.conns[c];
    var j := k.(state := Disconnected, mask := NONE, log := k.log + [Closed]);
    EraseDoes(s.(conns := s.conns[c := j], sound := s.sound && IsOpen(k.state) && MayUpdate(k, NONE)), c);
    assert k.log + [Closed] + [Found(s, c)] == k.log + [Closed, Found(s, c)];
  }

  lemma DestroyDoes(s: Server, c: nat)
    requires c < |s.conns|
    ensures var t := Destroy(s, c);
      t == s.(conns := s.conns[c := TornDown(s.conns[c])], sound := t.sound)
  {
  }

  lemma ReadingDoes(s: Server, c: nat, on: bool)
    requires Enabled(s, SetReading(c, on))
    ensures var t := Next(s, SetReading(c, on));
      && c < |s.conns|
      && t == s.(conns := s.conns[c := ReadingSet(s.conns[c], on)], sound := t.sound)
  {
  }

  lemma RunDoes(s: Server, l: nat)
    requires Enabled(s, RunFunctor(l))
    ensures var f := s.queues[l][0]; var u := s.(queues := s.queues[l := s.queues[l][1..]]);
      var t := Next(s, RunFunctor(l));
      && f.id < |s.conns|
      && t.conns == s.conns[f.id := Becomes(s, RunFunctor(l), f.id)]
      && t.registry == (if Erases(s, RunFunctor(l), f.id) then s.registry - {f.id} else s.registry)
      && t.active == s.active && t.callers == s.callers
      && t.queues == (match f
           case ConnectEstablished(_) => u.queues
           case ForceCloseInLoop(c) =>
             if !Closes(s, RunFunctor(l), c) then u.queues
             else Behind(u.queues, 0, if s.conns[c].loop == 0 then ConnectDestroyed(c) else RemoveConnectionInLoop(c))
           case RemoveConnectionInLoop(c) => Behind(u.queues, s.conns[c].loop, ConnectDestroyed(c))
           case ConnectDestroyed(_) => u.queues)
  {
    hide Establish, Close, Erase, Destroy, Opened, ClosedDown, TornDown;
    var f, u := s.queues[l][0], s.(queues := s.queues[l := s.queues[l][1..]]);
    match f
    case ConnectEstablished(c) => EstablishDoes(u, c);
    case ForceCloseInLoop(c) => CloseDoes(u, c);
    case RemoveConnectionInLoop(c) => EraseDoes(u, c);
    case ConnectDestroyed(c) => DestroyDoes(u, c);
  }

  lemma DispatchDoes(s: Server, l: nat, closes: bool)
    requires Enabled(s, Dispatch(l, closes))
    ensures var c := s.active[l][0]; var t := Next(s, Dispatch(l, closes));
      && c < |s.conns|
      && t.conns == s.conns[c := Becomes(s, Dispatch(l, closes), c)]
      && t.registry == (if Erases(s, Dispatch(l, closes), c) then s.registry - {c} else s.registry)
      && t.active == s.active[l := s.active[l][1..]] && t.callers == s.callers
      && t.queues == (if !closes then s.queues
           else Behind(s.queues, 0, if s.conns[c].loop == 0 then ConnectDestroyed(c) else RemoveConnectionInLoop(c)))
  {
    hide Close, ClosedDown;
    CloseDoes(s.(active := s.active[l := s.active[l][1..]]), s.active[l][0]);
  }

  /** The connection a step is about. */
  function About(s: Server, step: Step): Option<nat> {
    match step
    case RunFunctor(l) => if l < |s.queues| && s.queues[l] != [] then Some(s.queues[l][0].id) else None
    case Dispatch(l, _) => if l < |s.active| && s.active[l] != [] then Some(s.active[l][0]) else None
    case SetMask(d, _) => Some(d)
    case SetReading(d, _) => Some(d)
    case Commit(caller) => Some(caller.id)
    case Release(d) => Some(d)
    case _ => None
  }

  lemma OthersStay(s: Server, step: Step, c: nat)
    requires c < |s.conns| && About(s, step) != Some(c)
    ensures Becomes(s, step, c) == s.conns[c] && !Erases(s, step, c)
  {
  }

  lemma OneBecomes(s: Server, step: Step)
    requires Enabled(s, step) && About(s, step).Some?
    ensures var c := About(s, step).value; var t := Next(s, step);
      && c < |s.conns|
      && t.conns == s.conns[c := Becomes(s, step, c)]
      && t.registry == (if Erases(s, step, c) then s.registry - {c} else s.registry)
  {
    hide Next, Opened, ClosedDown, TornDown, ReadingSet;
    match step
    case RunFunctor(l) => RunDoes(s, l);
    case Dispatch(l, closes) => DispatchDoes(s, l, closes);
    case SetReading(d, on) => ReadingDoes(s, d, on);
    case _ => RewriteDoes(s, step);
  }

  /**
   Every step does to every connection what it becomes, takes exactly the erased one from the
   map, and adds one at most.
   */
  lemma ConnectionBecomes(s: Server, step: Step, c: nat)
    requires Enabled(s, step) && c < |s.conns|
    ensures var t := Next(s, step);
      && |t.conns| == |s.conns| + (if step.Accept? then 1 else 0)
      && t.conns[c] == Becomes(s, step, c)
      && (c in t.registry <==> c in s.registry && !Erases(s, step, c))
  {
    hide Next, Enabled, Becomes, Erases;
    if About(s, step) == None {
      NoneBecomes(s, step, c);
    } else {
      OneBecomes(s, step);
      if About(s, step) != Some(c) {
        OthersStay(s, step, c);
      }
    }
  }

  lemma NoneBecomes(s: Server, step: Step, c: nat)
    requires Enabled(s, step) && About(s, step) == None && c < |s.conns|
    ensures var t := Next(s, step);
      && |t.conns| == |s.conns| + (if step.Accept? then 1 else 0)
      && t.conns[c] == s.conns[c] == Becomes(s, step, c)
      && (c in t.registry <==> c in s.registry) && !Erases(s, step, c)
  {
    hide Next;
    match step
    case Accept(l) => NewConnection(s, l);
    case Poll(_, _) | Check(_) | Queue(_) => ListDoes(s, step);
    case _ =>
  }

  /** The steps that rewrite a part of one connection. */
  lemma RewriteDoes(s: Server, step: Step)
    requires Enabled(s, step) && (step.SetMask? || step.Commit? || step.Release?)
    ensures var t := Next(s, step); var c := if step.Commit? then step.caller.id else step.id;
      && c < |s.conns|
      && t == s.(conns := s.conns[c := Becomes(s, step, c)], callers := t.callers, sound := t.sound)
      && t.callers == (match step
           case Commit(Closing(d)) => s.callers - multiset{Closing(d)} + multiset{Queueing(d)}
           case Commit(ShuttingDown(d)) => s.callers - multiset{ShuttingDown(d)}
           case _ => s.callers)
  {
    hide MayUpdate;
  }

  /** The steps that touch no connection. */
  lemma ListDoes(s: Server, step: Step)
    requires Enabled(s, step) && (step.Poll? || step.Check? || step.Queue?)
    ensures Next(s, step) == (match step
      case Poll(l, ready) => s.(active := s.active[l := ready])
      case Check(a) => s.(callers := s.callers + multiset{a})
      case Queue(c) =>
        s.(callers := s.callers - multiset{Queueing(c)}, queues := Behind(s.queues, s.conns[c].loop, ForceCloseInLoop(c)))
      case _ => s)
  {
  }

  /** A new connection is in the map, and established at once on the base loop. */
  lemma NewConnection(s: Server, l: nat)
    requires Enabled(s, Accept(l))
    ensures var t := Next(s, Accept(l)); var k := Conn(l, Connecting, true, NONE, false, []);
      && t.conns == s.conns + [if l == 0 then Opened(k) else k]
      && t.registry == s.registry + {|s.conns|}
      && t.queues == (if l == 0 then s.queues else Behind(s.queues, l, ConnectEstablished(|s.conns|)))
      && t.active == s.active && t.callers == s.callers
  {
  }

  /** What is queued, what was reported and waits, and what other threads are about to do. */
  lemma WaitingMoves(s: Server, step: Step)
    requires Enabled(s, step)
    ensures var t := Next(s, step);
      && t.active == (match step
           case Poll(l, ready) => s.active[l := ready]
           case Dispatch(l, _) => s.active[l := s.active[l][1..]]
           case _ => s.active)
      && t.callers == (match step
           case Check(a) => s.callers + multiset{a}
           case Commit(Closing(c)) => s.callers - multiset{Closing(c)} + multiset{Queueing(c)}
           case Commit(ShuttingDown(c)) => s.callers - multiset{ShuttingDown(c)}
           case Queue(c) => s.callers - multiset{Queueing(c)}
           case _ => s.callers)
      && (step.Queue? ==> t.queues == Behind(s.queues, s.conns[step.id].loop, ForceCloseInLoop(step.id)))
      && (!step.Queue? && !step.RunFunctor? && !step.Dispatch? && !step.Accept? ==> t.queues == s.queues)
  {
    hide Next, Enabled, Opened, ClosedDown, TornDown, ReadingSet, Becomes;
    match step
    case RunFunctor(l) => RunDoes(s, l);
    case Dispatch(l, closes) => DispatchDoes(s, l, closes);
    case SetReading(d, on) => ReadingDoes(s, d, on);
    case Accept(l) => NewConnection(s, l);
    case SetMask(_, _) | Commit(_) | Release(_) => RewriteDoes(s, step);
    case Poll(_, _) | Check(_) | Queue(_) => ListDoes(s, step);
  }

  // The assertions of the source.

  /** The poller takes an update of a channel it was not told to remove, the first one if it asks for something. */
  predicate Takes(k: Conn, mask: Interest) {
    Destroyed !in k.log && (k.registered || mask.read || mask.write)
  }

  /** What the source asserts of connection `c` in a step. */
  predicate Asserts(s: Server, step: Step, c: nat)
    requires c < |s.conns|
  {
    var k := s.conns[c];
    && (Runs(s, step) == Some(ConnectEstablished(c)) ==> k.state.Connecting? && Destroyed !in k.log)
    && (Closes(s, step, c) ==> (k.state.Connected? || k.state.Disconnecting?) && Takes(k, NONE))
    && (Erases(s, step, c) ==> c in s.registry)
    && (Runs(s, step) == Some(ConnectDestroyed(c)) ==> k.registered && (k.state.Connected? || k.mask == NONE))
    && (step.SetMask? && step.id == c ==> Takes(k, step.mask))
    && (step.SetReading? && step.id == c ==>
          (k.wantsRead == step.on && k.mask.read == step.on) || Takes(k, Interest(step.on, k.mask.write)))
    && (step.Release? && step.id == c ==> k.state.Disconnected?)
  }

  lemma CloseAsserts(s: Server, c: nat)
    requires c < |s.conns|
    ensures var k := s.conns[c];
      Close(s, c).sound == (s.sound && (k.state.Connected? || k.state.Disconnecting?) && Takes(k, NONE)
        && (k.loop == 0 ==> c in s.registry))
  {
  }

  lemma RunAsserts(s: Server, l: nat)
    requires Enabled(s, RunFunctor(l))
    ensures Next(s, RunFunctor(l)).sound == (s.sound && Asserts(s, RunFunctor(l), s.queues[l][0].id))
  {
    hide Close, Push;
    var u := s.(queues := s.queues[l := s.queues[l][1..]]);
    match s.queues[l][0]
    case ForceCloseInLoop(c) => CloseAsserts(u, c);
    case RemoveConnectionInLoop(c) => PushKeepsSound();
    case _ =>
  }

  lemma PushKeepsSound()
    ensures forall t: Server, l: nat, f: Functor :: Push(t, l, f).sound == t.sound
  {
  }

  lemma DispatchAsserts(s: Server, l: nat, closes: bool)
    requires Enabled(s, Dispatch(l, closes))
    ensures Next(s, Dispatch(l, closes)).sound == (s.sound && Asserts(s, Dispatch(l, closes), s.active[l][0]))
  {
    hide Close;
    CloseAsserts(s.(active := s.active[l := s.active[l][1..]]), s.active[l][0]);
  }

  lemma RewriteAsserts(s: Server, step: Step)
    requires Enabled(s, step) && (step.SetMask? || step.SetReading? || step.Commit? || step.Release?)
    ensures var c := if step.Commit? then step.caller.id else step.id;
      c < |s.conns| && Next(s, step).sound == (s.sound && Asserts(s, step, c))
  {
  }

  lemma ListAsserts(s: Server, step: Step)
    requires Enabled(s, step) && (step.Accept? || step.Poll? || step.Check? || step.Queue?)
    ensures Next(s, step).sound == s.sound
  {
    hide Push;
    PushKeepsSound();
  }

  /** No assertion fails in a step if and only if these hold of the connection it is about. */
  lemma SoundIff(s: Server, step: Step)
    requires Enabled(s, step)
    ensures Next(s, step).sound <==> s.sound && (match About(s, step)
      case Some(c) => c < |s.conns| && Asserts(s, step, c)
      case None => true)
  {
    if About(s, step).Some? {
      OneBecomes(s, step);
    }
    hide Next, Asserts, Becomes;
    match step
    case RunFunctor(l) => RunAsserts(s, l);
    case Dispatch(l, closes) => DispatchAsserts(s, l, closes);
    case SetMask(_, _) | SetReading(_, _) | Commit(_) | Release(_) => RewriteAsserts(s, step);
    case _ => ListAsserts(s, step);
  }
}
