/**
 When timers fire, told from the calls: over every run each timer that was added fires on its
 own schedule, never early, until the cancel functor of its id has run.
 */
module TimerSchedules {
  import opened Bytes
  import opened TimerQueues

  /**
   What the calls of a run say: the timers added under their ids, the ids whose cancelling was
   queued, in order, and how many of those functors have run.
   */
  datatype Calls = Calls(nextId: Id, given: map<Id, Timer>, asked: seq<Id>, ran: nat) {
    predicate CancelRan(id: Id) {
      exists k :: 0 <= k < ran && k < |asked| && asked[k] == id
    }
  }

  const NO_CALLS := Calls(1, map[], [], 0)

  function Noted(r: Calls, step: Step): Calls {
    match step
    case AddTimer(_, when, interval) =>
      r.(nextId := r.nextId + 1, given := r.given[r.nextId := Timer(r.nextId, when, interval)])
    case ForeignTimer => r.(nextId := r.nextId + 1)
    case Cancel(id) => r.(asked := r.asked + [id])
    case HandleRead(_, _, asked) => r.(asked := r.asked + asked)
    case RunCancel => r.(ran := r.ran + 1)
  }

  function CallsOf(r: Calls, steps: seq<Step>): Calls
    decreases |steps|
  {
    if steps == [] then r else CallsOf(Noted(r, steps[0]), steps[1..])
  }

  // Schedules.

  predicate HasFired(fired: seq<Firing>, id: Id) {
    exists f <- fired :: f.id == id
  }

  /** When a timer is to fire next: first when it was set for, then an interval after it last ran. */
  function Due(g: Timer, fired: seq<Firing>): int
    decreases |fired|
  {
    if fired == [] then g.expiry
    else
      var last := fired[|fired| - 1];
      if last.id == g.id then last.at + g.interval else Due(g, fired[..|fired| - 1])
  }

  /** The last firing was of a known timer, when it was due, not early, and no second one of a one-shot timer. */
  predicate LastOnSchedule(given: map<Id, Timer>, fired: seq<Firing>)
    requires fired != []
  {
    var f, before := fired[|fired| - 1], fired[..|fired| - 1];
    && f.id in given
    && f.expiry == Due(given[f.id], before) && f.expiry <= f.at
    && (given[f.id].interval == 0 ==> !HasFired(before, f.id))
  }

  predicate OnSchedule(given: map<Id, Timer>, fired: seq<Firing>)
    decreases |fired|
  {
    fired == [] || (LastOnSchedule(given, fired) && OnSchedule(given, fired[..|fired| - 1]))
  }

  lemma SnocSplits(fired: seq<Firing>, f: Firing)
    ensures (fired + [f])[..|fired|] == fired
    ensures forall id :: HasFired(fired + [f], id) <==> HasFired(fired, id) || f.id == id
  {
    forall id ensures HasFired(fired + [f], id) <==> HasFired(fired, id) || f.id == id {
      if f.id == id {
        assert f in fired + [f];
      }
    }
  }

  lemma {:induction false} DueUnfired(g: Timer, fired: seq<Firing>)
    requires !HasFired(fired, g.id)
    ensures Due(g, fired) == g.expiry
    decreases |fired|
  {
    if fired != [] {
      assert fired[|fired| - 1] in fired;
      assert forall f <- fired[..|fired| - 1] :: f in fired;
      DueUnfired(g, fired[..|fired| - 1]);
    }
  }

  lemma {:induction false} OnScheduleAt(given: map<Id, Timer>, fired: seq<Firing>, i: nat)
    requires OnSchedule(given, fired) && i < |fired|
    ensures LastOnSchedule(given, fired[..i + 1]) && OnSchedule(given, fired[..i])
    decreases |fired|
  {
    hide LastOnSchedule;
    if i + 1 == |fired| {
      assert fired[..i + 1] == fired;
    } else {
      var before := fired[..|fired| - 1];
      OnScheduleAt(given, before, i);
      assert before[..i + 1] == fired[..i + 1] && before[..i] == fired[..i];
    }
  }

  /** On schedule is never before the time a timer was set for. */
  lemma {:induction false} NeverEarly(given: map<Id, Timer>, fired: seq<Firing>, g: Timer)
    requires OnSchedule(given, fired) && g.id in given && given[g.id] == g
    ensures Due(g, fired) >= g.expiry
    decreases |fired|
  {
    if fired != [] {
      NeverEarly(given, fired[..|fired| - 1], g);
    }
  }

  lemma {:induction false} OnScheduleGiven(given: map<Id, Timer>, fired: seq<Firing>, g: Timer)
    requires OnSchedule(given, fired) && g.id !in given
    ensures OnSchedule(given[g.id := g], fired)
    decreases |fired|
  {
    if fired != [] {
      OnScheduleGiven(given, fired[..|fired| - 1], g);
    }
  }

  lemma {:induction false} FiredAreGiven(given: map<Id, Timer>, fired: seq<Firing>, id: Id)
    requires OnSchedule(given, fired) && HasFired(fired, id)
    ensures id in given
    decreases |fired|
  {
    var before := fired[..|fired| - 1];
    if fired[|fired| - 1].id != id {
      var f :| f in fired && f.id == id;
      assert f in before;
      FiredAreGiven(given, before, id);
    }
  }

  // One dispatch.

  predicate Distinct(s: seq<Timer>) {
    forall i, j :: 0 <= i < j < |s| ==> s[i].id != s[j].id
  }

  predicate Names(s: seq<Timer>, id: Id) {
    exists t <- s :: t.id == id
  }

  /** Splitting off the last of the due timers. */
  lemma LastFired(fired: seq<Firing>, s: seq<Timer>, now: int)
    requires s != [] && Distinct(s)
    ensures var last, init := s[|s| - 1], s[..|s| - 1];
      && fired + Firings(s, now) == fired + Firings(init, now) + [Firing(last.id, last.expiry, now)]
      && Distinct(init) && !Names(init, last.id)
      && (forall id :: Names(s, id) <==> Names(init, id) || last.id == id)
  {
    hide Firings;
    var last, init := s[|s| - 1], s[..|s| - 1];
    assert s == init + [last];
    FiringsSnoc(init, last, now);
    ConcatAssociative(fired, Firings(init, now), [Firing(last.id, last.expiry, now)]);
    assert last in s && forall t <- init :: t in s;
    forall id ensures Names(s, id) <==> Names(init, id) || last.id == id {
      if Names(s, id) && last.id != id {
        var t :| t in s && t.id == id;
        assert t in init;
      }
    }
  }

  lemma {:induction false} FiredAfter(fired: seq<Firing>, s: seq<Timer>, now: int, id: Id)
    requires Distinct(s)
    ensures HasFired(fired + Firings(s, now), id) <==> HasFired(fired, id) || Names(s, id)
    decreases |s|
  {
    hide HasFired, Names, Distinct, Firings;
    if s == [] {
      NoFirings(now);
      NobodyNamed(id);
      assert fired + [] == fired;
    } else {
      var last, init := s[|s| - 1], s[..|s| - 1];
      LastFired(fired, s, now);
      FiredAfter(fired, init, now, id);
      SnocSplits(fired + Firings(init, now), Firing(last.id, last.expiry, now));
    }
  }

  lemma NobodyNamed(id: Id)
    ensures !Names([], id)
  {
  }

  lemma {:induction false} DueAfter(g: Timer, fired: seq<Firing>, s: seq<Timer>, now: int)
    requires Distinct(s)
    ensures Due(g, fired + Firings(s, now)) == if Names(s, g.id) then now + g.interval else Due(g, fired)
    decreases |s|
  {
    hide HasFired, Names, Distinct, Firings;
    if s == [] {
      NoFirings(now);
      NobodyNamed(g.id);
      assert fired + [] == fired;
    } else {
      var last, init := s[|s| - 1], s[..|s| - 1];
      LastFired(fired, s, now);
      DueAfter(g, fired, init, now);
      SnocSplits(fired + Firings(init, now), Firing(last.id, last.expiry, now));
    }
  }

  /** A queued timer waits for its due time, and a one-shot timer has not fired. */
  predicate Waiting(given: map<Id, Timer>, fired: seq<Firing>, t: Timer) {
    && t.id in given && t.interval == given[t.id].interval && given[t.id].id == t.id
    && t.expiry == Due(given[t.id], fired)
    && (t.interval == 0 ==> !HasFired(fired, t.id))
  }

  lemma {:induction false} FiringOnSchedule(given: map<Id, Timer>, fired: seq<Firing>, s: seq<Timer>, now: int)
    requires OnSchedule(given, fired) && Distinct(s)
    requires forall t <- s :: Waiting(given, fired, t) && t.expiry <= now
    ensures OnSchedule(given, fired + Firings(s, now))
    decreases |s|
  {
    hide HasFired, Names, Distinct, Firings, Due, Waiting;
    if s == [] {
      NoFirings(now);
      assert fired + [] == fired;
    } else {
      var last, init := s[|s| - 1], s[..|s| - 1];
      LastFired(fired, s, now);
      assert last in s && forall t <- init :: t in s;
      FiringOnSchedule(given, fired, init, now);
      var before := fired + Firings(init, now);
      SnocSplits(before, Firing(last.id, last.expiry, now));
      OneMoreFiring(given, fired, init, last, now);
    }
  }

  lemma OneMoreFiring(given: map<Id, Timer>, fired: seq<Firing>, init: seq<Timer>, last: Timer, now: int)
    requires Waiting(given, fired, last) && last.expiry <= now && Distinct(init) && !Names(init, last.id)
    ensures LastOnSchedule(given, fired + Firings(init, now) + [Firing(last.id, last.expiry, now)])
  {
    hide HasFired, Names, Distinct, Firings, Due;
    SnocSplits(fired + Firings(init, now), Firing(last.id, last.expiry, now));
    DueAfter(given[last.id], fired, init, now);
    FiredAfter(fired, init, now, last.id);
  }

  // Every run.

  /** The queue's numbers and lists are those of the calls. */
  ghost predicate Counted(q: Queue, r: Calls) {
    && q.nextId == r.nextId
    && (forall id <- r.given :: r.given[id].id == id && id < r.nextId)
    && r.ran <= |r.asked| && q.posted == r.asked[r.ran..]
    && (forall id :: id in q.cancelled <==> r.CancelRan(id))
  }

  /** No timer is lost: it waits, or was one-shot and has fired, or its cancel functor has run. */
  predicate Followed(q: Queue, g: Timer) {
    g.id in q.active || (g.interval == 0 && HasFired(q.fired, g.id)) || g.id in q.cancelled
  }

  ghost predicate Scheduled(q: Queue, given: map<Id, Timer>) {
    && OnSchedule(given, q.fired)
    && (forall t <- q.timers :: Waiting(given, q.fired, t))
    && (forall id <- given :: given[id].id == id && Followed(q, given[id]))
  }

  lemma StepCounts(q: Queue, r: Calls, step: Step)
    requires Counted(q, r) && Enabled(q, step)
    ensures Counted(Next(q, step), Noted(r, step))
  {
    hide Rearmed, PutBack, InsertSorted, Erase, Firings, DueCount, DelayFrom;
    var p, n := Next(q, step), Noted(r, step);
    if step.HandleRead? {
      PutBackCounts(q, step);
    }
    forall id ensures id in p.cancelled <==> n.CancelRan(id) {
      if step.RunCancel? {
        assert q.posted[0] == r.asked[r.ran];
        if id in q.cancelled {
          var k :| 0 <= k < r.ran && k < |r.asked| && r.asked[k] == id;
          assert n.asked[k] == id;
        }
      } else {
        assert forall k :: 0 <= k < r.ran ==> n.asked[k] == r.asked[k];
      }
    }
  }

  lemma PutBackCounts(q: Queue, step: Step)
    requires step.HandleRead? && Enabled(q, step)
    ensures var p := Next(q, step);
      p.nextId == q.nextId && p.cancelled == q.cancelled && p.posted == q.posted + step.asked
  {
    hide DueCount, Firings, DelayFrom;
    var ran := RanExpired(FdRead(q, step.now), step.now);
    PutBackFrame(ran.(posted := ran.posted + step.asked), q.timers[..DueCount(q.timers, step.now)], step.now);
  }

  lemma AddSchedules(q: Queue, given: map<Id, Timer>, now: int, when: int, interval: nat)
    requires Inv(q) && Scheduled(q, given) && (forall id <- given :: id < q.nextId)
    ensures Scheduled(Added(q, now, when, interval), given[q.nextId := Timer(q.nextId, when, interval)])
  {
    hide Due, OnSchedule, HasFired, DelayFrom, InsertSorted;
    var g := Timer(q.nextId, when, interval);
    var p, more := Added(q, now, when, interval), given[q.nextId := g];
    AddedMembers(q, now, when, interval);
    OnScheduleGiven(given, q.fired, g);
    assert !HasFired(q.fired, g.id) by {
      if HasFired(q.fired, g.id) {
        FiredAreGiven(given, q.fired, g.id);
      }
    }
    DueUnfired(g, q.fired);
    forall id | id in more ensures Followed(p, more[id]) {
      if id != g.id {
        assert Followed(q, given[id]);
      }
    }
  }

  /** The ids that are due are the ones that fire; the others keep what they wait for. */
  lemma ReadSchedules(q: Queue, given: map<Id, Timer>, now: int, armNow: int, asked: seq<Id>)
    requires Inv(q) && Scheduled(q, given) && Enabled(q, HandleRead(now, armNow, asked))
    ensures Scheduled(ReadHandled(q, now, armNow, asked), given)
  {
    hide Inv, Due, OnSchedule, HasFired, Waiting, Followed, Firings, DueCount, Agree, Sorted, ReadHandled, Enabled, Distinct;
    var due := q.timers[..DueCount(q.timers, now)];
    var p := ReadHandled(q, now, armNow, asked);
    FiresExactlyTheDue(q, now, armNow, asked);
    InvSorted(q);
    DueMembers(q.timers, now);
    DueDistinct(q, now);
    FiringOnSchedule(given, q.fired, due, now);
    forall t | t in p.timers ensures Waiting(given, p.fired, t) {
      ReadWaiting(q, given, now, armNow, asked, t);
    }
    forall id | id in given ensures Followed(p, given[id]) {
      ReadFollows(q, given, now, armNow, asked, id);
    }
  }

  lemma DueDistinct(q: Queue, now: int)
    requires Inv(q)
    ensures Distinct(q.timers[..DueCount(q.timers, now)])
    ensures forall t <- q.timers :: Names(q.timers[..DueCount(q.timers, now)], t.id) <==> t.expiry <= now
  {
    hide DueCount;
    DueMembers(q.timers, now);
    var due := q.timers[..DueCount(q.timers, now)];
    forall i, j | 0 <= i < j < |due| ensures due[i].id != due[j].id {
      assert Less(q.timers[i], q.timers[j]) && q.timers[i] in q.timers && q.timers[j] in q.timers;
    }
    forall t | t in q.timers ensures Names(due, t.id) <==> t.expiry <= now {
      if Names(due, t.id) {
        var u :| u in due && u.id == t.id;
        assert u in q.timers && q.active[u.id] == u && q.active[t.id] == t;
      }
    }
  }

  /** A timer of the queue after a dispatch was there before and not due, or has just run. */
  lemma ReadWaiting(q: Queue, given: map<Id, Timer>, now: int, armNow: int, asked: seq<Id>, t: Timer)
    requires Inv(q) && Scheduled(q, given) && Enabled(q, HandleRead(now, armNow, asked))
    requires t in ReadHandled(q, now, armNow, asked).timers
    ensures Waiting(given, ReadHandled(q, now, armNow, asked).fired, t)
  {
    hide Inv, Due, OnSchedule, HasFired, Firings, DueCount, Agree, Sorted, ReadHandled, Enabled, Followed, Distinct, Names;
    var due := q.timers[..DueCount(q.timers, now)];
    FiresExactlyTheDue(q, now, armNow, asked);
    DueDistinct(q, now);
    if t in q.timers && t.expiry > now {
      DueAfter(given[t.id], q.fired, due, now);
      FiredAfter(q.fired, due, now, t.id);
    } else {
      var u :| u in q.timers && u.expiry <= now && u.Repeated() && t == u.Restarted(now);
      DueAfter(given[u.id], q.fired, due, now);
    }
  }

  lemma ReadFollows(q: Queue, given: map<Id, Timer>, now: int, armNow: int, asked: seq<Id>, id: Id)
    requires Inv(q) && Scheduled(q, given) && Enabled(q, HandleRead(now, armNow, asked)) && id in given
    ensures Followed(ReadHandled(q, now, armNow, asked), given[id])
  {
    hide Due, OnSchedule, HasFired, Firings, DueCount, ReadHandled, Distinct, Names, Inv;
    var p := ReadHandled(q, now, armNow, asked);
    var due := q.timers[..DueCount(q.timers, now)];
    FiresExactlyTheDue(q, now, armNow, asked);
    HandleReadKeepsInv(q, now, armNow, asked);
    DueDistinct(q, now);
    FiredAfter(q.fired, due, now, id);
    PutBackCounts(q, HandleRead(now, armNow, asked));
    assert Followed(q, given[id]);
    if id in q.active {
      ActiveIsQueued(q, id);
      var t := q.active[id];
      if t.expiry > now {
        QueuedIsActive(p, t);
      } else if t.Repeated() {
        QueuedIsActive(p, t.Restarted(now));
      }
    }
  }

  lemma ActiveIsQueued(q: Queue, id: Id)
    requires Inv(q) && id in q.active
    ensures q.active[id] in q.timers && q.active[id].id == id
  {
  }

  lemma QueuedIsActive(q: Queue, t: Timer)
    requires Inv(q) && t in q.timers
    ensures t.id in q.active && q.active[t.id] == t
  {
  }

  lemma CancelSchedules(q: Queue, given: map<Id, Timer>, id: Id)
    requires Inv(q) && Scheduled(q, given)
    ensures Scheduled(Cancelled(q, id), given)
  {
    hide Due, OnSchedule, HasFired, Waiting;
    CancelTakesOnly(q, id);
    var p := Cancelled(q, id);
    forall k | k in given ensures Followed(p, given[k]) {
      assert Followed(q, given[k]);
    }
  }

  lemma StepSchedules(q: Queue, r: Calls, step: Step)
    requires Inv(q) && Counted(q, r) && Scheduled(q, r.given) && Enabled(q, step)
    ensures Scheduled(Next(q, step), Noted(r, step).given)
  {
    hide Due, OnSchedule, HasFired, Waiting, Added, ReadHandled, Cancelled, Inv, Followed;
    match step
    case AddTimer(now, when, interval) => AddSchedules(q, r.given, now, when, interval);
    case RunCancel => CancelLater(q, r.given);
    case HandleRead(now, armNow, asked) => ReadSchedules(q, r.given, now, armNow, asked);
    case Cancel(id) => SameTimers(q, Next(q, step), r.given);
    case ForeignTimer => SameTimers(q, Next(q, step), r.given);
  }

  lemma SameTimers(q: Queue, p: Queue, given: map<Id, Timer>)
    requires Scheduled(q, given) && p == q.(nextId := p.nextId, posted := p.posted)
    ensures Scheduled(p, given)
  {
    hide Due, OnSchedule, HasFired, Waiting;
    forall id | id in given ensures Followed(p, given[id]) {
      assert Followed(q, given[id]);
    }
  }

  lemma CancelLater(q: Queue, given: map<Id, Timer>)
    requires Inv(q) && Scheduled(q, given) && q.posted != []
    ensures Scheduled(Next(q, RunCancel), given)
  {
    hide Due, OnSchedule, HasFired, Waiting, Followed, Cancelled;
    var p := q.(posted := q.posted[1..]);
    SameTimers(q, p, given);
    assert Inv(p) by {
      assert forall id <- q.posted[1..] :: id in q.posted;
    }
    CancelSchedules(p, given, q.posted[0]);
  }

  lemma {:induction false} RunSchedules(q: Queue, r: Calls, steps: seq<Step>)
    requires Inv(q) && Counted(q, r) && Scheduled(q, r.given) && IsRun(q, steps)
    ensures var p, n := After(q, steps), CallsOf(r, steps);
      Inv(p) && Counted(p, n) && Scheduled(p, n.given)
    decreases |steps|
  {
    hide Inv, Enabled, Next, Counted, Scheduled, Noted;
    if steps != [] {
      StepKeepsInv(q, steps[0]);
      StepCounts(q, r, steps[0]);
      StepSchedules(q, r, steps[0]);
      RunSchedules(Next(q, steps[0]), Noted(r, steps[0]), steps[1..]);
    }
  }

  /**
   Over every run: every firing is of a timer that was added, at a time that was then its due
   time and not before it, nor before the time it was added for; and of a one-shot timer it is
   the first.
   */
  lemma FiringsOnSchedule(clock: int, steps: seq<Step>, i: nat)
    requires clock > 0 && IsRun(Fresh(clock), steps) && i < |After(Fresh(clock), steps).fired|
    ensures var fired, given := After(Fresh(clock), steps).fired, CallsOf(NO_CALLS, steps).given;
      var f := fired[i];
      && f.id in given
      && f.expiry == Due(given[f.id], fired[..i])
      && given[f.id].expiry <= f.expiry <= f.at
      && (given[f.id].interval == 0 ==> forall k :: 0 <= k < i ==> fired[k].id != f.id)
  {
    hide Inv, Next, Due, IsRun, Enabled, Followed;
    FreshSchedules(clock);
    RunSchedules(Fresh(clock), NO_CALLS, steps);
    var fired, given := After(Fresh(clock), steps).fired, CallsOf(NO_CALLS, steps).given;
    OnScheduleAt(given, fired, i);
    assert fired[..i + 1][..i] == fired[..i];
    NeverEarly(given, fired[..i], given[fired[i].id]);
    forall k | 0 <= k < i && given[fired[i].id].interval == 0 ensures fired[k].id != fired[i].id {
      assert fired[..i][k] in fired[..i];
    }
  }

  lemma FreshSchedules(clock: int)
    requires clock > 0
    ensures Inv(Fresh(clock)) && Counted(Fresh(clock), NO_CALLS) && Scheduled(Fresh(clock), NO_CALLS.given)
  {
  }

  /**
   Over every run: the queue holds exactly the timers that were added and whose cancel functor
   has not run, but for the one-shot ones that have fired; each with the interval it was given,
   and an expiry that is its due time.
   */
  lemma QueueHoldsTheRest(clock: int, steps: seq<Step>)
    requires clock > 0 && IsRun(Fresh(clock), steps)
    ensures var q, r := After(Fresh(clock), steps), CallsOf(NO_CALLS, steps);
      && (forall t <- q.timers :: t.id in r.given && t.interval == r.given[t.id].interval
            && t.expiry == Due(r.given[t.id], q.fired))
      && (forall id <- r.given :: id in q.active <==>
            !r.CancelRan(id) && (r.given[id].interval > 0 || !HasFired(q.fired, id)))
      && r.ran <= |r.asked| && q.posted == r.asked[r.ran..]
  {
    hide Next, Due, IsRun, Enabled, OnSchedule, HasFired;
    FreshSchedules(clock);
    RunSchedules(Fresh(clock), NO_CALLS, steps);
    var q, r := After(Fresh(clock), steps), CallsOf(NO_CALLS, steps);
    forall id | id in r.given
      ensures id in q.active <==> !r.CancelRan(id) && (r.given[id].interval > 0 || !HasFired(q.fired, id))
    {
      assert Followed(q, r.given[id]);
      if id in q.active {
        assert q.active[id] in q.timers && Waiting(r.given, q.fired, q.active[id]);
      }
    }
  }
}
