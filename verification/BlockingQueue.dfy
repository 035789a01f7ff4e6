/**
 suduo/base/BoundedBlockingQueue.h: a monitor with two conditions over a ring.

 A step is one critical section: a thread's first pass through `push` or `pop`, or the
 recheck of a thread that was signalled.
 */
module BlockingQueues {
  import opened Bytes
  import opened Conditions
  import opened Threads
  import opened CircularBuffers

  /** A producer waits with its value in hand. */
  datatype Monitor<T> = Monitor(
    slots: nat,
    items: seq<T>,
    notFull: Condition<T>,
    notEmpty: Condition<()>,
    // history
    pushed: seq<T>,
    popped: seq<T>)
  {
    predicate Full() {
      |items| == slots
    }
  }

  function Fresh<T>(slots: nat): Monitor<T> {
    Monitor(slots, [], NoWaiters(), NoWaiters(), [], [])
  }

  /** `woken` is the waiter that the notification at the end of the section wakes. */
  datatype Step<T> =
    | Push(tid: Tid, x: T, woken: Option<Tid>)
    | ResumePush(tid: Tid, woken: Option<Tid>)
    | Pop(tid: Tid, woken: Option<Tid>)
    | ResumePop(tid: Tid, woken: Option<Tid>)
    | SpuriousProducer(tid: Tid)
    | SpuriousConsumer(tid: Tid)

  predicate Idle<T>(m: Monitor<T>, tid: Tid) {
    !m.notFull.Has(tid) && !m.notEmpty.Has(tid)
  }

  predicate MayPush<T>(m: Monitor<T>, woken: Option<Tid>) {
    m.Full() || m.notEmpty.MayNotify(woken)
  }

  predicate MayPop<T>(m: Monitor<T>, woken: Option<Tid>) {
    m.items == [] || m.notFull.MayNotify(woken)
  }

  predicate Enabled<T>(m: Monitor<T>, step: Step<T>) {
    match step
    case Push(tid, _, woken) => Idle(m, tid) && MayPush(m, woken)
    case ResumePush(tid, woken) => tid in m.notFull.signalled && MayPush(m, woken)
    case Pop(tid, woken) => Idle(m, tid) && MayPop(m, woken)
    case ResumePop(tid, woken) => tid in m.notEmpty.signalled && MayPop(m, woken)
    case SpuriousProducer(tid) => tid in m.notFull.asleep
    case SpuriousConsumer(tid) => tid in m.notEmpty.asleep
  }

  /** The ring drops what does not fit; the producer believes it pushed. */
  function RingPush<T>(items: seq<T>, slots: nat, x: T): seq<T> {
    if |items| == slots then items else items + [x]
  }

  function PushSection<T>(m: Monitor<T>, tid: Tid, x: T, woken: Option<Tid>): Monitor<T>
    requires MayPush(m, woken)
  {
    if m.Full() then m.(notFull := m.notFull.Wait(tid, x))
    else
      m.(items := RingPush(m.items, m.slots, x), pushed := m.pushed + [x],
         notEmpty := m.notEmpty.Notify(woken))
  }

  function PopSection<T>(m: Monitor<T>, tid: Tid, woken: Option<Tid>): Monitor<T>
    requires MayPop(m, woken)
  {
    if m.items == [] then m.(notEmpty := m.notEmpty.Wait(tid, ()))
    else
      m.(items := m.items[1..], popped := m.popped + [m.items[0]],
         notFull := m.notFull.Notify(woken))
  }

  function Next<T>(m: Monitor<T>, step: Step<T>): Monitor<T>
    requires Enabled(m, step)
  {
    match step
    case Push(tid, x, woken) => PushSection(m, tid, x, woken)
    case ResumePush(tid, woken) =>
      PushSection(m.(notFull := m.notFull.Leave(tid)), tid, m.notFull.signalled[tid], woken)
    case Pop(tid, woken) => PopSection(m, tid, woken)
    case ResumePop(tid, woken) => PopSection(m.(notEmpty := m.notEmpty.Leave(tid)), tid, woken)
    case SpuriousProducer(tid) => m.(notFull := m.notFull.Signal(tid))
    case SpuriousConsumer(tid) => m.(notEmpty := m.notEmpty.Signal(tid))
  }

  predicate IsRun<T>(m: Monitor<T>, steps: seq<Step<T>>)
    decreases |steps|
  {
    steps == [] || (Enabled(m, steps[0]) && IsRun(Next(m, steps[0]), steps[1..]))
  }

  function After<T>(m: Monitor<T>, steps: seq<Step<T>>): Monitor<T>
    requires IsRun(m, steps)
    decreases |steps|
  {
    if steps == [] then m else After(Next(m, steps[0]), steps[1..])
  }

  /**
   Sleepers are outnumbered: what they wait for is promised to threads already signalled,
   but for the `off` ones that have just left the signalled set and hold the mutex.
   */
  ghost predicate Covered<T>(m: Monitor<T>, producersOff: nat, consumersOff: nat) {
    && |m.items| <= m.slots
    && m.pushed == m.popped + m.items
    && m.notFull.Valid() && m.notEmpty.Valid()
    && (!m.notEmpty.NobodyAsleep() ==> |m.items| <= |m.notEmpty.signalled| + consumersOff)
    && (!m.notFull.NobodyAsleep() ==> m.slots - |m.items| <= |m.notFull.signalled| + producersOff)
  }

  ghost predicate Inv<T>(m: Monitor<T>) {
    Covered(m, 0, 0)
  }

  lemma PushKeepsInv<T>(m: Monitor<T>, tid: Tid, x: T, woken: Option<Tid>)
    requires Covered(m, 1, 0) && tid !in m.notFull.signalled && MayPush(m, woken)
    ensures Inv(PushSection(m, tid, x, woken))
  {
    if !m.Full() {
      NotifyCounts(m.notEmpty, woken);
      assert m.pushed + [x] == m.popped + (m.items + [x]);
    }
  }

  lemma PopKeepsInv<T>(m: Monitor<T>, tid: Tid, woken: Option<Tid>)
    requires Covered(m, 0, 1) && tid !in m.notEmpty.signalled && MayPop(m, woken)
    ensures Inv(PopSection(m, tid, woken))
  {
    if m.items != [] {
      NotifyCounts(m.notFull, woken);
      assert m.pushed == m.popped + [m.items[0]] + m.items[1..];
    }
  }

  lemma StepKeepsInv<T>(m: Monitor<T>, step: Step<T>)
    requires Inv(m) && Enabled(m, step)
    ensures Inv(Next(m, step))
  {
    match step
    case Push(tid, x, woken) => PushKeepsInv(m, tid, x, woken);
    case ResumePush(tid, woken) =>
      LeaveCounts(m.notFull, tid);
      PushKeepsInv(m.(notFull := m.notFull.Leave(tid)), tid, m.notFull.signalled[tid], woken);
    case Pop(tid, woken) => PopKeepsInv(m, tid, woken);
    case ResumePop(tid, woken) =>
      LeaveCounts(m.notEmpty, tid);
      PopKeepsInv(m.(notEmpty := m.notEmpty.Leave(tid)), tid, woken);
    case SpuriousProducer(tid) => SignalCounts(m.notFull, tid);
    case SpuriousConsumer(tid) => SignalCounts(m.notEmpty, tid);
  }

  lemma {:induction false} RunKeepsInv<T>(m: Monitor<T>, steps: seq<Step<T>>)
    requires Inv(m) && IsRun(m, steps)
    ensures Inv(After(m, steps)) && After(m, steps).slots == m.slots
    decreases |steps|
  {
    hide Inv, Enabled;
    if steps != [] {
      StepKeepsInv(m, steps[0]);
      RunKeepsInv(Next(m, steps[0]), steps[1..]);
    }
  }

  /**
   Over every run, sleeping consumers imply no more elements than signalled consumers, and
   sleeping producers no more free slots than signalled producers; with a slot to use, the
   two sides are never asleep together without some thread being signalled.
   */
  lemma NeverAllStuck<T>(slots: nat, steps: seq<Step<T>>)
    requires IsRun(Fresh(slots), steps)
    ensures var m := After(Fresh(slots), steps);
      && (!m.notEmpty.NobodyAsleep() ==> |m.items| <= |m.notEmpty.signalled|)
      && (!m.notFull.NobodyAsleep() ==> slots - |m.items| <= |m.notFull.signalled|)
      && (slots > 0 && !m.notEmpty.NobodyAsleep() && !m.notFull.NobodyAsleep() ==>
            |m.notEmpty.signalled| + |m.notFull.signalled| > 0)
  {
    RunKeepsInv(Fresh(slots), steps);
  }

  /** The condition on the slots is exact: without any, no value is ever pushed or popped. */
  lemma {:induction false} NoSlotsMoveNothing<T>(m: Monitor<T>, steps: seq<Step<T>>)
    requires IsRun(m, steps) && m.slots == 0 && m.items == [] && m.pushed == [] && m.popped == []
    ensures var n := After(m, steps); n.slots == 0 && n.items == [] && n.pushed == [] && n.popped == []
    decreases |steps|
  {
    if steps != [] {
      NoSlotsMoveNothing(Next(m, steps[0]), steps[1..]);
    }
  }

  /** So both sides can be asleep at once, with nobody signalled. */
  lemma NoSlotsGetStuck(x: int)
    ensures var steps := [Push(1, x, None), Pop(2, None)];
      && IsRun(Fresh(0), steps)
      && var m := After(Fresh(0), steps);
        m.notFull == Condition(map[1 := x], map[]) && m.notEmpty == Condition(map[2 := ()], map[])
  {
    var m0: Monitor<int> := Fresh(0);
    var m1 := Next(m0, Push(1, x, None));
    var m2 := Next(m1, Pop(2, None));
    assert IsRun(m2, []) && After(m2, []) == m2;
    assert IsRun(m1, [Pop(2, None)]) && After(m1, [Pop(2, None)]) == m2;
    assert [Push(1, x, None), Pop(2, None)][1..] == [Pop(2, None)];
  }

  /** First in, first out, and the ring's silent drop never happens: everything pushed is there. */
  lemma FifoNoLoss<T>(slots: nat, steps: seq<Step<T>>)
    requires IsRun(Fresh(slots), steps)
    ensures var m := After(Fresh(slots), steps);
      m.pushed == m.popped + m.items && |m.items| <= slots
  {
    RunKeepsInv(Fresh(slots), steps);
  }

  // Where every value and every caller is.

  /** The values of the run's `Push` steps. */
  function ValuesOf<T>(steps: seq<Step<T>>): seq<T> {
    if steps == [] then []
    else (if steps[0].Push? then [steps[0].x] else []) + ValuesOf(steps[1..])
  }

  function PopsOf<T>(steps: seq<Step<T>>): nat {
    if steps == [] then 0 else (if steps[0].Pop? then 1 else 0) + PopsOf(steps[1..])
  }

  /** In the queue or gone through it, or in the hands of a producer that waits or is on its way. */
  ghost function Known<T>(m: Monitor<T>): multiset<T> {
    multiset(m.pushed) + Hands(m.notFull)
  }

  /** The callers of `pop` that got a value or still wait for one. */
  ghost function Poppers<T>(m: Monitor<T>): nat {
    |m.popped| + |Hands(m.notEmpty)|
  }

  lemma PushKnows<T>(m: Monitor<T>, tid: Tid, x: T, woken: Option<Tid>)
    requires MayPush(m, woken) && !m.notFull.Has(tid) && m.notEmpty.Valid()
    ensures var n := PushSection(m, tid, x, woken);
      Known(n) == Known(m) + multiset{x} && Poppers(n) == Poppers(m)
  {
    hide Hands;
    if m.Full() {
      WaitHolds(m.notFull, tid, x);
    } else {
      NotifyHolds(m.notEmpty, woken);
    }
  }

  lemma PopKnows<T>(m: Monitor<T>, tid: Tid, woken: Option<Tid>)
    requires MayPop(m, woken) && !m.notEmpty.Has(tid) && m.notFull.Valid()
    ensures var n := PopSection(m, tid, woken);
      Known(n) == Known(m) && Poppers(n) == Poppers(m) + 1
  {
    hide Hands;
    if m.items == [] {
      WaitHolds(m.notEmpty, tid, ());
    } else {
      NotifyHolds(m.notFull, woken);
    }
  }

  lemma ResumeKnows<T>(m: Monitor<T>, tid: Tid, woken: Option<Tid>)
    requires Inv(m)
    ensures Enabled(m, ResumePush(tid, woken)) ==>
      var n := Next(m, ResumePush(tid, woken)); Known(n) == Known(m) && Poppers(n) == Poppers(m)
    ensures Enabled(m, ResumePop(tid, woken)) ==>
      var n := Next(m, ResumePop(tid, woken)); Known(n) == Known(m) && Poppers(n) == Poppers(m)
  {
    hide Hands, PushSection, PopSection;
    if Enabled(m, ResumePush(tid, woken)) {
      LeaveCounts(m.notFull, tid);
      LeaveReleases(m.notFull, tid);
      PushKnows(m.(notFull := m.notFull.Leave(tid)), tid, m.notFull.signalled[tid], woken);
    }
    if Enabled(m, ResumePop(tid, woken)) {
      LeaveCounts(m.notEmpty, tid);
      LeaveReleases(m.notEmpty, tid);
      PopKnows(m.(notEmpty := m.notEmpty.Leave(tid)), tid, woken);
    }
  }

  lemma StepKnows<T>(m: Monitor<T>, step: Step<T>)
    requires Inv(m) && Enabled(m, step)
    ensures var n := Next(m, step);
      && Known(n) == Known(m) + multiset(ValuesOf([step]))
      && Poppers(n) == Poppers(m) + PopsOf([step])
  {
    hide Hands, PushSection, PopSection;
    assert [step][1..] == [];
    match step
    case Push(tid, x, woken) => PushKnows(m, tid, x, woken);
    case Pop(tid, woken) => PopKnows(m, tid, woken);
    case ResumePush(tid, woken) => ResumeKnows(m, tid, woken);
    case ResumePop(tid, woken) => ResumeKnows(m, tid, woken);
    case SpuriousProducer(tid) => SignalHolds(m.notFull, tid);
    case SpuriousConsumer(tid) => SignalHolds(m.notEmpty, tid);
  }

  lemma {:induction false} RunKnows<T>(m: Monitor<T>, steps: seq<Step<T>>)
    requires Inv(m) && IsRun(m, steps)
    ensures Known(After(m, steps)) == Known(m) + multiset(ValuesOf(steps))
    ensures Poppers(After(m, steps)) == Poppers(m) + PopsOf(steps)
    decreases |steps|
  {
    hide Inv, Enabled, Next, Known, Poppers;
    if steps == [] {
      assert multiset(ValuesOf(steps)) == multiset{};
    } else {
      StepKeepsInv(m, steps[0]);
      StepKnows(m, steps[0]);
      RunKnows(Next(m, steps[0]), steps[1..]);
      assert [steps[0]][1..] == [];
    }
  }

  /**
   Over every run no value and no caller is lost: the values given to `push` are those that
   were stored and those that waiting producers hold, and every call of `pop` got a value or waits.
   */
  lemma EveryCallIsSomewhere<T>(slots: nat, steps: seq<Step<T>>)
    requires IsRun(Fresh(slots), steps)
    ensures var m := After(Fresh(slots), steps);
      && multiset(m.pushed) + Hands(m.notFull) == multiset(ValuesOf(steps))
      && |m.popped| + |Hands(m.notEmpty)| == PopsOf(steps)
  {
    RunKnows(Fresh(slots), steps);
    NoValues<T>();
    NoValues<()>();
  }

  /** The monitor on the real ring; each method is one critical section. */
  class BoundedBlockingQueue<T(0)> {
    const queue: CircularBuffer<T>
    var notFull: Condition<T>
    var notEmpty: Condition<()>
    ghost var pushed: seq<T>
    ghost var popped: seq<T>

    ghost predicate Valid()
      reads this, queue
    {
      queue.Valid()
    }

    ghost function M(): Monitor<T>
      requires Valid()
      reads this, queue, queue.buffer
    {
      Monitor(queue.buffer.Length, queue.Contents(), notFull, notEmpty, pushed, popped)
    }

    constructor (maxSize: nat)
      ensures Valid() && fresh(queue) && fresh(queue.buffer)
      ensures M() == Fresh(maxSize)
    {
      queue := new CircularBuffer<T>(maxSize);
      notFull, notEmpty := NoWaiters(), NoWaiters();
      pushed, popped := [], [];
    }

    /** One pass of `push`: false if it goes to sleep. */
    method PushPass(tid: Tid, val: T, woken: Option<Tid>) returns (done: bool)
      requires Valid() && MayPush(M(), woken)
      modifies this, queue, queue.buffer
      ensures Valid()
      ensures M() == PushSection(old(M()), tid, val, woken)
      ensures done <==> !old(M()).Full()
    {
      if queue.Full() {
        notFull := notFull.Wait(tid, val);
        done := false;
      } else {
        queue.Push(val);
        pushed := pushed + [val];
        notEmpty := notEmpty.Notify(woken);
        done := true;
      }
    }

    /** One pass of `pop`. */
    method PopPass(tid: Tid, woken: Option<Tid>) returns (val: Option<T>)
      requires Valid() && MayPop(M(), woken)
      modifies this, queue
      ensures Valid()
      ensures M() == PopSection(old(M()), tid, woken)
      ensures val == if old(M()).items == [] then None else Some(old(M()).items[0])
    {
      if queue.Empty() {
        notEmpty := notEmpty.Wait(tid, ());
        val := None;
      } else {
        var x := queue.Pop();
        popped := popped + [x];
        notFull := notFull.Notify(woken);
        val := Some(x);
      }
    }

    /** A signalled producer takes the lock again and rechecks. */
    method ResumePushPass(tid: Tid, woken: Option<Tid>) returns (done: bool)
      requires Valid() && Enabled(M(), ResumePush(tid, woken))
      modifies this, queue, queue.buffer
      ensures Valid() && M() == Next(old(M()), ResumePush(tid, woken))
      ensures done <==> !old(M()).Full()
    {
      var val := notFull.signalled[tid];
      notFull := notFull.Leave(tid);
      done := PushPass(tid, val, woken);
    }

    /** A signalled consumer takes the lock again and rechecks. */
    method ResumePopPass(tid: Tid, woken: Option<Tid>) returns (val: Option<T>)
      requires Valid() && Enabled(M(), ResumePop(tid, woken))
      modifies this, queue
      ensures Valid() && M() == Next(old(M()), ResumePop(tid, woken))
      ensures val == if old(M()).items == [] then None else Some(old(M()).items[0])
    {
      notEmpty := notEmpty.Leave(tid);
      val := PopPass(tid, woken);
    }
  }
}
