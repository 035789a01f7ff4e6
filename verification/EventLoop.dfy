/**
 suduo/net/EventLoop.cpp: the functor queue and its wakeups, under every interleaving.

 A step is a critical section, an access to the eventfd, or a stretch of the loop thread
 that no other thread can observe in the middle.  `wakers` are the foreign threads between
 their push (or their `quit`) and the write to the eventfd that follows it.
 */
module EventLoops {
  import opened Bytes
  import opened Threads

  type Functor = nat

  datatype Pc = BeforeLoop | LoopTest | AtPoll | Dispatching(woken: bool) | Swapping | Running | Exited

  datatype Loop = Loop(
    pc: Pc,
    running: bool,
    calling: bool,
    pending: seq<Functor>,
    batch: seq<Functor>,
    counter: nat,
    wakers: set<Tid>,
    // history
    pushed: seq<Functor>,
    ran: seq<Functor>,
    disturbed: bool)

  const FRESH := Loop(BeforeLoop, false, false, [], [], 0, {}, [], [], false)

  datatype Step =
    | Start
    | Test
    | PollReturn(woken: bool)
    | ReadWakeup
    | EndDispatch
    | Swap
    | RunNext
    | EndBatch
    | LocalPush(f: Functor)
    | LocalQuit
    | ForeignPush(tid: Tid, f: Functor)
    | ForeignQuit(tid: Tid)
    | Wake(tid: Tid)

  /** `woken` says whether the wakeup channel is among the active ones: only if it is readable. */
  predicate Enabled(s: Loop, step: Step) {
    match step
    case Start => s.pc.BeforeLoop?
    case Test => s.pc.LoopTest?
    case PollReturn(woken) => s.pc.AtPoll? && (woken ==> s.counter > 0)
    case ReadWakeup => s.pc == Dispatching(true)
    case EndDispatch => s.pc == Dispatching(false)
    case Swap => s.pc.Swapping?
    case RunNext => s.pc.Running? && s.batch != []
    case EndBatch => s.pc.Running? && s.batch == []
    case LocalPush(_) => s.pc.BeforeLoop? || s.pc.Dispatching? || s.pc.Running?
    case LocalQuit => s.pc.BeforeLoop? || s.pc.Dispatching? || s.pc.Running?
    case ForeignPush(tid, _) => tid !in s.wakers
    case ForeignQuit(tid) => tid !in s.wakers
    case Wake(tid) => tid in s.wakers
  }

  function Pushed(s: Loop, f: Functor): Loop {
    s.(pending := s.pending + [f], pushed := s.pushed + [f])
  }

  function Quitted(s: Loop): Loop {
    s.(running := false)
  }

  /** The steps up to the first poll that the loop thread takes alone. */
  predicate Quiet(step: Step) {
    step.LocalPush? || step.LocalQuit? || step.Start? || step.Test?
  }

  function Next(s: Loop, step: Step): Loop
    requires Enabled(s, step)
  {
    Moved(s, step).(disturbed := s.disturbed || !Quiet(step))
  }

  function Moved(s: Loop, step: Step): Loop
    requires Enabled(s, step)
  {
    match step
    case Start => s.(pc := LoopTest, running := true)
    case Test => s.(pc := if s.running then AtPoll else Exited)
    case PollReturn(woken) => s.(pc := Dispatching(woken))
    case ReadWakeup => s.(pc := Dispatching(false), counter := 0)
    case EndDispatch => s.(pc := Swapping, calling := true)
    case Swap => s.(pc := Running, batch := s.pending, pending := [])
    case RunNext => s.(batch := s.batch[1..], ran := s.ran + [s.batch[0]])
    case EndBatch => s.(pc := LoopTest, calling := false)
    case LocalPush(f) =>
      var p := Pushed(s, f);
      p.(counter := if s.calling then s.counter + 1 else s.counter)
    case LocalQuit => Quitted(s)
    case ForeignPush(tid, f) => Pushed(s, f).(wakers := s.wakers + {tid})
    case ForeignQuit(tid) => Quitted(s).(wakers := s.wakers + {tid})
    case Wake(tid) => s.(counter := s.counter + 1, wakers := s.wakers - {tid})
  }

  predicate IsRun(s: Loop, steps: seq<Step>)
    decreases |steps|
  {
    steps == [] || (Enabled(s, steps[0]) && IsRun(Next(s, steps[0]), steps[1..]))
  }

  function After(s: Loop, steps: seq<Step>): Loop
    requires IsRun(s, steps)
    decreases |steps|
  {
    if steps == [] then s else After(Next(s, steps[0]), steps[1..])
  }

  /** The eventfd is readable, or a thread is on its way to writing it. */
  predicate WillWake(s: Loop) {
    s.counter > 0 || s.wakers != {}
  }

  ghost predicate Inv(s: Loop) {
    && (s.calling <==> s.pc.Swapping? || s.pc.Running?)
    && (!s.pc.Running? ==> s.batch == [])
    && s.pushed == s.ran + s.batch + s.pending
    && (s.pc == Dispatching(true) ==> s.counter > 0)
    // before anything else has happened nothing will wake the loop
    && (!s.disturbed ==>
          s.counter == 0 && s.wakers == {} && !s.pc.Dispatching? && !s.pc.Swapping? && !s.pc.Running?)
    // from the swap on, until the next dispatch, nothing is pending silently
    && (s.disturbed && s.pc.BeforeLoop? ==> WillWake(s))
    && (s.disturbed && (s.pc.LoopTest? || s.pc.AtPoll? || s.pc.Running?) && s.pending != [] ==> WillWake(s))
    && (s.pc.AtPoll? && !s.running ==> WillWake(s))
  }

  lemma StepKeepsInv(s: Loop, step: Step)
    requires Inv(s) && Enabled(s, step)
    ensures Inv(Next(s, step))
  {
    match step
    case RunNext =>
      assert s.ran + s.batch == s.ran + [s.batch[0]] + s.batch[1..];
    case Swap =>
      assert s.ran + [] + s.pending == s.ran + s.pending + [];
    case _ =>
  }

  lemma {:induction false} RunKeepsInv(s: Loop, steps: seq<Step>)
    requires Inv(s) && IsRun(s, steps)
    ensures Inv(After(s, steps))
    decreases |steps|
  {
    hide Inv, Next, Enabled;
    if steps != [] {
      StepKeepsInv(s, steps[0]);
      RunKeepsInv(Next(s, steps[0]), steps[1..]);
    }
  }

  lemma {:induction false} DisturbedIff(s: Loop, steps: seq<Step>)
    requires IsRun(s, steps)
    ensures After(s, steps).disturbed <==> s.disturbed || exists step <- steps :: !Quiet(step)
    decreases |steps|
  {
    if steps != [] {
      DisturbedIff(Next(s, steps[0]), steps[1..]);
      assert forall step :: step in steps <==> step == steps[0] || step in steps[1..];
    }
  }

  /**
   No lost wakeup, with its exact exception: a loop about to block with functors pending will
   be woken, except in its first poll, when only the loop thread has done anything yet, so
   that it queued them itself before `loop()`.  A loop that was told to quit is always woken.
   */
  lemma NoLostWakeup(steps: seq<Step>)
    requires IsRun(FRESH, steps) && After(FRESH, steps).pc.AtPoll?
    ensures var s := After(FRESH, steps);
      && (s.pending != [] ==> (WillWake(s) <==> exists step <- steps :: !Quiet(step)))
      && (!s.running ==> WillWake(s))
  {
    RunKeepsInv(FRESH, steps);
    DisturbedIff(FRESH, steps);
  }

  /** Functors run at most once, in queue order, and none is lost. */
  lemma FunctorsRunInOrder(steps: seq<Step>)
    requires IsRun(FRESH, steps)
    ensures var s := After(FRESH, steps);
      s.ran <= s.pushed && s.pushed == s.ran + s.batch + s.pending
  {
    RunKeepsInv(FRESH, steps);
  }

  /** The condition is needed: a functor queued by the loop thread before `loop()` waits unannounced. */
  lemma EarlyPushIsNotAnnounced(f: Functor)
    ensures var steps := [LocalPush(f), Start, Test];
      && IsRun(FRESH, steps)
      && var s := After(FRESH, steps); s.pc.AtPoll? && s.pending == [f] && !WillWake(s)
  {
    var s1 := Next(FRESH, LocalPush(f));
    var s2 := Next(s1, Start);
    RunCons(s2, Test, []);
    RunCons(s1, Start, [Test]);
    RunCons(FRESH, LocalPush(f), [Start, Test]);
  }

  /** Outside `loop()`'s first assignment nothing sets the flag again. */
  lemma {:induction false} QuitLasts(s: Loop, steps: seq<Step>)
    requires IsRun(s, steps) && !s.running && !s.pc.BeforeLoop?
    ensures !After(s, steps).running && !After(s, steps).pc.BeforeLoop?
    decreases |steps|
  {
    if steps != [] {
      QuitLasts(Next(s, steps[0]), steps[1..]);
    }
  }

  /**
   When a `quit` takes effect: the loop never runs again, over every continuation, if and
   only if it had been started.
   */
  lemma QuitTakesEffectIff(s: Loop, q: Step)
    requires Enabled(s, q) && (q.LocalQuit? || q.ForeignQuit?)
    ensures (forall steps | IsRun(Next(s, q), steps) :: !After(Next(s, q), steps).running) <==> !s.pc.BeforeLoop?
  {
    var t := Next(s, q);
    if s.pc.BeforeLoop? {
      RunCons(t, Start, []);
      assert After(t, [Start] + []).running;
    } else {
      forall steps | IsRun(t, steps) ensures !After(t, steps).running {
        QuitLasts(t, steps);
      }
    }
  }

  /** The loop then blocks no more but to be woken, and leaves at its next test. */
  lemma QuitLeaves(steps: seq<Step>, q: Step, more: seq<Step>)
    requires IsRun(FRESH, steps) && Enabled(After(FRESH, steps), q) && (q.LocalQuit? || q.ForeignQuit?)
    requires !After(FRESH, steps).pc.BeforeLoop? && IsRun(Next(After(FRESH, steps), q), more)
    ensures var s := After(Next(After(FRESH, steps), q), more);
      && (s.pc.AtPoll? ==> WillWake(s))
      && (s.pc.LoopTest? ==> Next(s, Test).pc.Exited?)
  {
    RunKeepsInv(FRESH, steps);
    StepKeepsInv(After(FRESH, steps), q);
    RunKeepsInv(Next(After(FRESH, steps), q), more);
    QuitLasts(Next(After(FRESH, steps), q), more);
  }

  /** The witness: a `quit` before `loop()` is overwritten. */
  lemma EarlyQuitIsLost(tid: Tid)
    ensures var steps := [ForeignQuit(tid), Start, Test];
      && IsRun(FRESH, steps)
      && var s := After(FRESH, steps); s.running && s.pc.AtPoll?
  {
    var s1 := Next(FRESH, ForeignQuit(tid));
    var s2 := Next(s1, Start);
    RunCons(s2, Test, []);
    RunCons(s1, Start, [Test]);
    RunCons(FRESH, ForeignQuit(tid), [Start, Test]);
  }

  lemma RunCons(s: Loop, step: Step, steps: seq<Step>)
    requires Enabled(s, step) && IsRun(Next(s, step), steps)
    ensures IsRun(s, [step] + steps)
    ensures After(s, [step] + steps) == After(Next(s, step), steps)
  {
    assert ([step] + steps)[1..] == steps;
  }

  /** The first `n` functors are taken care of by the turn of the loop that is under way. */
  predicate Due(s: Loop, n: nat) {
    match s.pc
    case Swapping => n <= |s.ran| + |s.batch| + |s.pending|
    case Running => n <= |s.ran| + |s.batch|
    case _ => n <= |s.ran|
  }

  lemma DueStep(s: Loop, step: Step, n: nat)
    requires Inv(s) && Enabled(s, step) && Due(s, n)
    ensures Due(Next(s, step), n)
  {
  }

  lemma {:induction false} DueStaysDue(s: Loop, steps: seq<Step>, n: nat)
    requires Inv(s) && IsRun(s, steps) && Due(s, n)
    ensures Due(After(s, steps), n)
    decreases |steps|
  {
    hide Inv, Next, Enabled, Due;
    if steps != [] {
      StepKeepsInv(s, steps[0]);
      DueStep(s, steps[0], n);
      DueStaysDue(Next(s, steps[0]), steps[1..], n);
    }
  }

  /**
   What is pending when a turn of the loop takes the queue has run by the end of that turn,
   and so at every later moment outside a batch; what functors queue meanwhile is not waited for.
   */
  lemma TurnRunsAllPending(steps: seq<Step>, more: seq<Step>)
    requires IsRun(FRESH, steps) && After(FRESH, steps).pc.Swapping?
    requires IsRun(After(FRESH, steps), more)
    requires var pc := After(After(FRESH, steps), more).pc; !pc.Swapping? && !pc.Running?
    ensures var s := After(FRESH, steps);
      s.pushed <= After(s, more).pushed && |s.pushed| <= |After(s, more).ran|
  {
    var s := After(FRESH, steps);
    RunKeepsInv(FRESH, steps);
    DueStaysDue(s, more, |s.pushed|);
    PushedGrows(s, more);
  }

  lemma {:induction false} PushedGrows(s: Loop, steps: seq<Step>)
    requires IsRun(s, steps)
    ensures s.pushed <= After(s, steps).pushed
    decreases |steps|
  {
    if steps != [] {
      assert s.pushed <= Next(s, steps[0]).pushed;
      PushedGrows(Next(s, steps[0]), steps[1..]);
    }
  }

  // What every step does, told from the calls.

  /** The loop's thread is in `do_pending_functors`. */
  predicate InPending(s: Loop) {
    s.pc.Swapping? || s.pc.Running?
  }

  /**
   The eventfd: reading it empties it; each wakeup counts one, that of the loop's own thread only
   while functors are being run, that of another thread always, after its push or its `quit`.
   */
  lemma WakeupsCounted(s: Loop, step: Step)
    requires Inv(s) && Enabled(s, step)
    ensures var t := Next(s, step);
      && t.counter == (match step
           case ReadWakeup => 0
           case Wake(_) => s.counter + 1
           case LocalPush(_) => s.counter + (if InPending(s) then 1 else 0)
           case _ => s.counter)
      && t.wakers == (match step
           case ForeignPush(tid, _) => s.wakers + {tid}
           case ForeignQuit(tid) => s.wakers + {tid}
           case Wake(tid) => s.wakers - {tid}
           case _ => s.wakers)
  {
  }

  /** The functors of the run's pushes, on whatever thread. */
  function PushesOf(steps: seq<Step>): seq<Functor> {
    if steps == [] then []
    else
      (match steps[0]
       case LocalPush(f) => [f]
       case ForeignPush(_, f) => [f]
       case _ => [])
      + PushesOf(steps[1..])
  }

  function RunsOf(steps: seq<Step>): nat {
    if steps == [] then 0 else (if steps[0].RunNext? then 1 else 0) + RunsOf(steps[1..])
  }

  lemma StepPushes(s: Loop, step: Step)
    requires Enabled(s, step)
    ensures Next(s, step).pushed == s.pushed + PushesOf([step])
    ensures |Next(s, step).ran| == |s.ran| + RunsOf([step])
  {
    assert [step][1..] == [];
    assert s.pushed + [] == s.pushed;
  }

  lemma {:induction false} RunPushes(s: Loop, steps: seq<Step>)
    requires IsRun(s, steps)
    ensures After(s, steps).pushed == s.pushed + PushesOf(steps)
    ensures |After(s, steps).ran| == |s.ran| + RunsOf(steps)
    decreases |steps|
  {
    hide Next, Enabled;
    if steps == [] {
      assert s.pushed + [] == s.pushed;
    } else {
      StepPushes(s, steps[0]);
      RunPushes(Next(s, steps[0]), steps[1..]);
      assert [steps[0]][1..] == [];
      assert PushesOf([steps[0]]) + PushesOf(steps[1..]) == PushesOf(steps);
      ConcatAssociative(s.pushed, PushesOf([steps[0]]), PushesOf(steps[1..]));
    }
  }

  /**
   Over every run, the functors that ran, then the rest of the batch, then the queue, are those
   given to `queue_in_loop`, in the order of the pushes; and each running of one counts.
   */
  lemma PushedAreGiven(steps: seq<Step>)
    requires IsRun(FRESH, steps)
    ensures var s := After(FRESH, steps);
      && s.ran + s.batch + s.pending == PushesOf(steps)
      && |s.ran| == RunsOf(steps)
  {
    RunKeepsInv(FRESH, steps);
    RunPushes(FRESH, steps);
    assert [] + PushesOf(steps) == PushesOf(steps);
  }

  /** The turn of the loop: test, poll, dispatch with the eventfd read if it was reported, swap, run. */
  lemma TurnInOrder(s: Loop, step: Step)
    requires Inv(s) && Enabled(s, step)
    ensures var t := Next(s, step);
      && t.pc == (match step
           case Start => LoopTest
           case Test => if s.running then AtPoll else Exited
           case PollReturn(woken) => Dispatching(woken)
           case ReadWakeup => Dispatching(false)
           case EndDispatch => Swapping
           case Swap => Running
           case EndBatch => LoopTest
           case _ => s.pc)
      && t.running == (step.Start? || (s.running && !step.LocalQuit? && !step.ForeignQuit?))
      && (step.Swap? ==> t.batch == s.pending && t.pending == [])
      && (step.EndBatch? ==> s.batch == [])
  {
  }

  /** The loop object; each method is one step. */
  class EventLoop {
    var running: bool
    var calling: bool
    var pending: seq<Functor>
    var functors: seq<Functor>
    var eventFd: nat
    ghost var pc: Pc
    ghost var wakers: set<Tid>
    ghost var pushed: seq<Functor>
    ghost var ran: seq<Functor>
    ghost var disturbed: bool

    ghost function S(): Loop
      reads this
    {
      Loop(pc, running, calling, pending, functors, eventFd, wakers, pushed, ran, disturbed)
    }

    constructor ()
      ensures S() == FRESH
    {
      running, calling, pending, functors, eventFd := false, false, [], [], 0;
      pc, wakers, pushed, ran, disturbed := BeforeLoop, {}, [], [], false;
    }

    /** `queue_in_loop` on the loop's thread: the push and the wakeup it calls for. */
    method QueueInLoop(f: Functor)
      requires Enabled(S(), LocalPush(f))
      modifies this
      ensures S() == Next(old(S()), LocalPush(f))
    {
      pending, pushed := pending + [f], pushed + [f];
      if calling {
        Wakeup();
      }
    }

    /** The critical section of `queue_in_loop` on another thread; `ForeignWakeup` follows. */
    method QueueFromOther(ghost tid: Tid, f: Functor)
      requires Enabled(S(), ForeignPush(tid, f))
      modifies this
      ensures S() == Next(old(S()), ForeignPush(tid, f))
    {
      pending, pushed := pending + [f], pushed + [f];
      wakers, disturbed := wakers + {tid}, true;
    }

    method Wakeup()
      modifies this`eventFd
      ensures eventFd == old(eventFd) + 1
    {
      eventFd := eventFd + 1;
    }

    method ForeignWakeup(ghost tid: Tid)
      requires Enabled(S(), Wake(tid))
      modifies this
      ensures S() == Next(old(S()), Wake(tid))
    {
      Wakeup();
      wakers, disturbed := wakers - {tid}, true;
    }

    method Quit(ghost tid: Tid, onLoopThread: bool)
      requires Enabled(S(), if onLoopThread then LocalQuit else ForeignQuit(tid))
      modifies this
      ensures S() == Next(old(S()), if onLoopThread then LocalQuit else ForeignQuit(tid))
    {
      running := false;
      if !onLoopThread {
        wakers, disturbed := wakers + {tid}, true;
      }
    }

    method HandleRead()
      requires Enabled(S(), ReadWakeup)
      modifies this
      ensures S() == Next(old(S()), ReadWakeup)
    {
      eventFd := 0;
      pc, disturbed := Dispatching(false), true;
    }

    /** The beginning of `do_pending_functors`: the flag, then the swap under the lock. */
    method BeginPending()
      requires Enabled(S(), EndDispatch)
      modifies this
      ensures S() == Next(old(S()), EndDispatch)
    {
      calling := true;
      pc, disturbed := Swapping, true;
    }

    method SwapPending()
      requires Enabled(S(), Swap) && functors == []
      modifies this
      ensures S() == Next(old(S()), Swap)
    {
      functors, pending := pending, functors;
      pc, disturbed := Running, true;
    }

    method EndPending()
      requires Enabled(S(), EndBatch)
      modifies this
      ensures S() == Next(old(S()), EndBatch)
    {
      calling := false;
      pc, disturbed := LoopTest, true;
    }

    /** The whole queue becomes the batch. */
    method TakePending()
      requires Inv(S()) && Enabled(S(), EndDispatch)
      modifies this
      ensures Inv(S()) && pc == Running && functors == old(pending) && pending == []
      ensures ran == old(ran) && pushed == old(pushed)
      ensures eventFd == old(eventFd) && wakers == old(wakers) && running == old(running)
    {
      StepKeepsInv(S(), EndDispatch);
      BeginPending();
      StepKeepsInv(S(), Swap);
      SwapPending();
    }

    /** The oldest functor of the batch runs, and queues some itself. */
    method RunNextFunctor(fs: seq<Functor>)
      requires Inv(S()) && Enabled(S(), RunNext)
      modifies this
      ensures Inv(S()) && pc == Running
      ensures functors == old(functors)[1..] && ran == old(ran) + [old(functors)[0]]
      ensures pending == old(pending) + fs && pushed == old(pushed) + fs
      ensures eventFd == old(eventFd) + |fs| && wakers == old(wakers) && running == old(running)
    {
      StepKeepsInv(S(), RunNext);
      ran := ran + [functors[0]];
      functors := functors[1..];
      QueueAll(fs);
    }

    /**
     `do_pending_functors`, where the k-th functor of the batch queues `queued[k]` itself:
     exactly the functors that were pending run, in order, and what they queue waits for the
     next turn, with a wakeup for each.
     */
    method DoPendingFunctors(queued: seq<seq<Functor>>)
      requires Inv(S()) && Enabled(S(), EndDispatch) && |queued| == |pending|
      modifies this
      ensures Inv(S()) && pc == LoopTest && functors == []
      ensures ran == old(ran) + old(pending)
      ensures pending == Flatten(queued) && pushed == old(pushed) + Flatten(queued)
      ensures eventFd == old(eventFd) + |Flatten(queued)| && wakers == old(wakers) && running == old(running)
    {
      hide Inv, Flatten;
      TakePending();
      var k := 0;
      ghost var batch := functors;
      FlattenEmpty();
      while functors != []
        invariant k <= |batch| == |queued| && functors == batch[k..] && pc == Running && Inv(S())
        invariant ran == old(ran) + batch[..k]
        invariant pending == Flatten(queued[..k]) && pushed == old(pushed) + Flatten(queued[..k])
        invariant eventFd == old(eventFd) + |Flatten(queued[..k])|
        invariant wakers == old(wakers) && running == old(running)
        decreases |functors|
      {
        RunNextFunctor(queued[k]);
        FlattenSnoc(queued[..k], queued[k]);
        assert queued[..k + 1] == queued[..k] + [queued[k]];
        assert batch[..k + 1] == batch[..k] + [batch[k]];
        ConcatAssociative(old(pushed), Flatten(queued[..k]), queued[k]);
        k := k + 1;
      }
      assert batch[..k] == batch && queued[..k] == queued;
      StepKeepsInv(S(), EndBatch);
      EndPending();
    }

    /** What one functor queues. */
    method QueueAll(fs: seq<Functor>)
      requires Inv(S()) && pc == Running
      modifies this
      ensures Inv(S()) && pc == Running && functors == old(functors) && ran == old(ran)
      ensures pending == old(pending) + fs && pushed == old(pushed) + fs
      ensures eventFd == old(eventFd) + |fs| && wakers == old(wakers) && running == old(running)
    {
      var k := 0;
      while k < |fs|
        invariant k <= |fs| && Inv(S()) && pc == Running && functors == old(functors) && ran == old(ran)
        invariant pending == old(pending) + fs[..k] && pushed == old(pushed) + fs[..k]
        invariant eventFd == old(eventFd) + k && wakers == old(wakers) && running == old(running)
      {
        StepKeepsInv(S(), LocalPush(fs[k]));
        QueueInLoop(fs[k]);
        assert fs[..k + 1] == fs[..k] + [fs[k]];
        k := k + 1;
      }
      assert fs[..k] == fs;
    }
  }

  lemma FlattenEmpty()
    ensures Flatten<Functor>([]) == []
  {
  }
}
