/**
 suduo/net/TimerQueue.cpp and Timer.h, for callers on the loop's thread.

 Times are integer nanoseconds of one clock.  The ordered map from (expiry, id) to timers is
 a sequence in key order; the id map, the timer fd and the queue of cancel functors are
 beside it.  Callbacks may cancel timers but add none.
 */
module TimerQueues {
  import opened Bytes

  type Id = nat

  datatype Timer = Timer(id: Id, expiry: int, interval: nat) {
    predicate Repeated() {
      interval > 0
    }

    function Restarted(now: int): Timer {
      this.(expiry := now + interval)
    }
  }

  /** Key order: by expiry, then by id. */
  predicate Less(a: Timer, b: Timer) {
    a.expiry < b.expiry || (a.expiry == b.expiry && a.id < b.id)
  }

  predicate Sorted(s: seq<Timer>) {
    forall i, j :: 0 <= i < j < |s| ==> Less(s[i], s[j])
  }

  /** The id map is the inverse index of the ordered map. */
  predicate Agree(timers: seq<Timer>, active: map<Id, Timer>) {
    && (forall t <- timers :: t.id in active && active[t.id] == t)
    && (forall id <- active :: active[id].id == id && active[id] in timers)
  }

  const MICROSECOND := 1000
  const MIN_DELAY := 100 * MICROSECOND

  /** Conversion to microseconds drops the fraction. */
  function Truncate(nanoseconds: int): int {
    if nanoseconds >= 0 then nanoseconds / MICROSECOND else -(-nanoseconds / MICROSECOND)
  }

  /** `how_much_time_from_now`: at least 100 microseconds. */
  function DelayFrom(now: int, when: int): int {
    if Truncate(when - now) < 100 then MIN_DELAY else when - now
  }

  function Max(a: int, b: int): int {
    if a < b then b else a
  }

  datatype Arming = Arming(deadline: int, at: int)

  function Arm(when: int, now: int): Arming {
    Arming(now + DelayFrom(now, when), now)
  }

  lemma ArmDeadline(when: int, now: int)
    ensures Arm(when, now).deadline == Max(when, now + 100 * 1000) && MIN_DELAY == 100 * 1000
    ensures Arm(when, now).at == now
  {
  }

  datatype Firing = Firing(id: Id, expiry: int, at: int)

  datatype Queue = Queue(
    timers: seq<Timer>,
    active: map<Id, Timer>,
    fd: Option<Arming>,
    clock: int,
    nextId: Id,
    posted: seq<Id>,
    // history
    fired: seq<Firing>,
    cancelled: set<Id>)

  function Fresh(clock: int): Queue {
    Queue([], map[], None, clock, 1, [], [], {})
  }

  function InsertSorted(s: seq<Timer>, t: Timer): (r: seq<Timer>)
    ensures |r| == |s| + 1
  {
    if s == [] || Less(t, s[0]) then [t] + s else [s[0]] + InsertSorted(s[1..], t)
  }

  /** Erasing by key. */
  function Erase(s: seq<Timer>, expiry: int, id: Id): (r: seq<Timer>)
    ensures |r| <= |s|
  {
    if s == [] then []
    else if s[0].expiry == expiry && s[0].id == id then s[1..]
    else [s[0]] + Erase(s[1..], expiry, id)
  }

  function Inserted(q: Queue, t: Timer): Queue {
    q.(timers := InsertSorted(q.timers, t), active := q.active[t.id := t])
  }

  predicate Earliest(q: Queue, when: int) {
    q.timers == [] || when < q.timers[0].expiry
  }

  function Added(q: Queue, now: int, when: int, interval: nat): Queue {
    var p := Inserted(q.(clock := now, nextId := q.nextId + 1), Timer(q.nextId, when, interval));
    if Earliest(q, when) then p.(fd := Some(Arm(when, now))) else p
  }

  /** `cancel_in_loop`.  The timer fd is left as it is. */
  function Cancelled(q: Queue, id: Id): Queue {
    var p := q.(cancelled := q.cancelled + {id});
    if id in q.active then
      p.(timers := Erase(q.timers, q.active[id].expiry, id), active := q.active - {id})
    else p
  }

  /** How many timers are due: `lower_bound` of (now, largest id). */
  function DueCount(s: seq<Timer>, now: int): (k: nat)
    ensures k <= |s|
  {
    if s == [] || s[0].expiry > now then 0 else 1 + DueCount(s[1..], now)
  }

  function Firings(s: seq<Timer>, now: int): seq<Firing> {
    if s == [] then [] else [Firing(s[0].id, s[0].expiry, now)] + Firings(s[1..], now)
  }

  function Ids(s: seq<Timer>): set<Id> {
    set t <- s :: t.id
  }

  /** The repeating ones are put back, one after the other. */
  function PutBack(q: Queue, expired: seq<Timer>, now: int): Queue
    decreases |expired|
  {
    if expired == [] then q
    else
      PutBack(if expired[0].Repeated() then Inserted(q, expired[0].Restarted(now)) else q, expired[1..], now)
  }

  /** The expired timers have run and are out of both maps. */
  function RanExpired(q: Queue, now: int): Queue {
    var k := DueCount(q.timers, now);
    q.(timers := q.timers[k..], active := q.active - Ids(q.timers[..k]),
       fired := q.fired + Firings(q.timers[..k], now))
  }

  function Rearmed(q: Queue, now: int): Queue {
    if q.timers != [] && q.timers[0].expiry != 0
    then q.(fd := Some(Arm(q.timers[0].expiry, now)), clock := now)
    else q.(clock := now)
  }

  /** Reading the fd disarms it iff it had expired. */
  function FdRead(q: Queue, now: int): Queue {
    if q.fd.Some? && q.fd.value.deadline <= now then q.(fd := None) else q
  }

  /** `asked` are the ids that the callbacks cancel; `armNow` is the time of the re-arming. */
  function ReadHandled(q: Queue, now: int, armNow: int, asked: seq<Id>): Queue {
    var expired := q.timers[..DueCount(q.timers, now)];
    var ran := RanExpired(FdRead(q, now), now);
    Rearmed(PutBack(ran.(posted := ran.posted + asked), expired, now), armNow)
  }

  datatype Step =
    | AddTimer(now: int, when: int, interval: nat)
    | Cancel(id: Id)
    | RunCancel
    | HandleRead(now: int, armNow: int, asked: seq<Id>)
    | ForeignTimer

  /** `ForeignTimer`: another queue takes an id from the counter that all queues share. */
  predicate Enabled(q: Queue, step: Step) {
    match step
    case AddTimer(now, _, _) => q.clock <= now
    case Cancel(id) => id < q.nextId
    case RunCancel => q.posted != []
    case HandleRead(now, armNow, asked) => q.clock <= now <= armNow && (forall id <- asked :: id < q.nextId)
    case ForeignTimer => true
  }

  function Next(q: Queue, step: Step): Queue
    requires Enabled(q, step)
  {
    match step
    case AddTimer(now, when, interval) => Added(q, now, when, interval)
    case Cancel(id) => q.(posted := q.posted + [id])
    case RunCancel => Cancelled(q.(posted := q.posted[1..]), q.posted[0])
    case HandleRead(now, armNow, asked) => ReadHandled(q, now, armNow, asked)
    case ForeignTimer => q.(nextId := q.nextId + 1)
  }

  predicate IsRun(q: Queue, steps: seq<Step>)
    decreases |steps|
  {
    steps == [] || (Enabled(q, steps[0]) && IsRun(Next(q, steps[0]), steps[1..]))
  }

  function After(q: Queue, steps: seq<Step>): Queue
    requires IsRun(q, steps)
    decreases |steps|
  {
    if steps == [] then q else After(Next(q, steps[0]), steps[1..])
  }

  // Sorted sequences.

  lemma {:induction false} InsertSortedKeeps(s: seq<Timer>, t: Timer)
    requires Sorted(s) && forall x <- s :: x.id != t.id
    ensures var r := InsertSorted(s, t);
      && Sorted(r)
      && (forall x :: x in r <==> x == t || x in s)
      && r[0] == (if s == [] || Less(t, s[0]) then t else s[0])
  {
    if s != [] && !Less(t, s[0]) {
      assert s[0] in s;
      var r := InsertSorted(s[1..], t);
      InsertSortedKeeps(s[1..], t);
      assert forall x :: x in s <==> x == s[0] || x in s[1..];
      forall j | 0 < j < |s| + 1 ensures Less(s[0], InsertSorted(s, t)[j]) {
        assert r[j - 1] in r;
      }
    } else {
      forall j | 0 < j < |s| + 1 ensures Less(t, ([t] + s)[j]) {
        assert j > 1 ==> Less(s[0], s[j - 1]);
      }
    }
  }

  lemma InsertAgrees(s: seq<Timer>, active: map<Id, Timer>, t: Timer)
    requires Sorted(s) && Agree(s, active) && t.id !in active
    ensures Sorted(InsertSorted(s, t)) && Agree(InsertSorted(s, t), active[t.id := t])
    ensures InsertSorted(s, t)[0] == (if s == [] || Less(t, s[0]) then t else s[0])
  {
    hide InsertSorted;
    InsertSortedKeeps(s, t);
  }

  lemma {:induction false} EraseKeeps(s: seq<Timer>, t: Timer)
    requires Sorted(s) && t in s
    ensures var r := Erase(s, t.expiry, t.id);
      && Sorted(r) && |r| == |s| - 1
      && (forall x :: x in r <==> x in s && x != t)
      && (r != [] ==> r[0].expiry >= s[0].expiry)
  {
    assert forall x :: x in s <==> x == s[0] || x in s[1..];
    if s[0].expiry == t.expiry && s[0].id == t.id {
      assert forall x <- s[1..] :: Less(s[0], x);
    } else {
      EraseKeeps(s[1..], t);
      var r := Erase(s[1..], t.expiry, t.id);
      forall j | 0 <= j < |r| ensures Less(s[0], r[j]) {
        assert r[j] in r;
      }
    }
  }

  lemma EraseAgrees(s: seq<Timer>, active: map<Id, Timer>, id: Id)
    requires Sorted(s) && Agree(s, active) && id in active
    ensures var r := Erase(s, active[id].expiry, id);
      && Sorted(r) && Agree(r, active - {id})
      && |r| == |s| - 1
      && (r != [] ==> r[0].expiry >= s[0].expiry)
  {
    hide Erase;
    EraseKeeps(s, active[id]);
  }

  /** The due timers are exactly those with an expiry not after now. */
  lemma {:induction false} DueExactly(s: seq<Timer>, now: int)
    requires Sorted(s)
    ensures var k := DueCount(s, now);
      && (forall i :: 0 <= i < k ==> s[i].expiry <= now)
      && (forall i :: k <= i < |s| ==> s[i].expiry > now)
  {
    if s != [] && s[0].expiry <= now {
      DueExactly(s[1..], now);
      var k := DueCount(s, now);
      forall i | 0 <= i < |s| ensures i < k <==> s[i].expiry <= now {
        if i > 0 {
          assert s[i] == s[1..][i - 1];
        }
      }
    } else if s != [] {
      assert forall i :: 0 < i < |s| ==> Less(s[0], s[i]);
    }
  }

  /** What is behind the first `k` is none of them, by its id. */
  lemma LaterApart(s: seq<Timer>, active: map<Id, Timer>, k: nat)
    requires Sorted(s) && Agree(s, active) && k <= |s|
    ensures forall t <- s[k..] :: t.id !in Ids(s[..k])
  {
    forall t | t in s[k..] ensures t.id !in Ids(s[..k]) {
      var j :| k <= j < |s| && s[j] == t;
      forall u | u in s[..k] ensures u.id != t.id {
        var i :| 0 <= i < k && s[i] == u;
        assert u in s && t in s;
        assert Less(s[i], s[j]);
      }
    }
  }

  lemma DropAgrees(s: seq<Timer>, active: map<Id, Timer>, k: nat)
    requires Sorted(s) && Agree(s, active) && k <= |s|
    ensures Sorted(s[k..]) && Agree(s[k..], active - Ids(s[..k]))
    ensures forall t <- s[..k] :: t.id !in active - Ids(s[..k])
  {
    LaterApart(s, active, k);
    assert Sorted(s[k..]) by {
      assert forall i :: 0 <= i < |s| - k ==> s[k..][i] == s[k + i];
    }
    hide Sorted;
    assert forall t <- s :: t in s[..k] || t in s[k..] by {
      SplitAt(s, k);
    }
    assert forall t <- s[..k] :: t.id in Ids(s[..k]);
  }

  // The invariant.

  ghost predicate Inv(q: Queue) {
    && Sorted(q.timers) && Agree(q.timers, q.active)
    && (forall id <- q.active :: id < q.nextId)
    && q.cancelled !! q.active.Keys
    && (forall id <- q.cancelled :: id < q.nextId)
    && (forall id <- q.posted :: id < q.nextId)
    && q.clock > 0
    && (q.timers != [] ==> Timely(q))
  }

  /** The fd is armed, or has expired, for a time not after the earliest expiry and the granularity. */
  predicate Timely(q: Queue)
    requires q.timers != []
  {
    q.fd.Some? && q.fd.value.deadline <= Max(q.timers[0].expiry, q.fd.value.at + MIN_DELAY)
  }

  lemma AddKeepsInv(q: Queue, now: int, when: int, interval: nat)
    requires Inv(q) && Enabled(q, AddTimer(now, when, interval))
    ensures Inv(Added(q, now, when, interval))
  {
    hide InsertSorted, DelayFrom;
    var t := Timer(q.nextId, when, interval);
    assert t.id !in q.active;
    InsertAgrees(q.timers, q.active, t);
    ArmDeadline(when, now);
    InsertSortedMembers(q.timers, t);
  }

  lemma {:induction false} InsertSortedMembers(s: seq<Timer>, t: Timer)
    ensures forall x :: x in InsertSorted(s, t) <==> x == t || x in s
  {
    if s != [] && !Less(t, s[0]) {
      InsertSortedMembers(s[1..], t);
      assert forall x :: x in s <==> x == s[0] || x in s[1..];
    }
  }

  lemma {:induction false} EraseMembers(s: seq<Timer>, expiry: int, id: Id)
    ensures forall x <- Erase(s, expiry, id) :: x in s
  {
    if s != [] && !(s[0].expiry == expiry && s[0].id == id) {
      EraseMembers(s[1..], expiry, id);
    }
  }

  lemma CancelKeepsInv(q: Queue, id: Id)
    requires Inv(q) && id < q.nextId
    ensures Inv(Cancelled(q, id))
  {
    hide Erase;
    if id in q.active {
      EraseAgrees(q.timers, q.active, id);
      EraseMembers(q.timers, q.active[id].expiry, id);
    }
  }

  /** What is left of the invariant while `reset` runs, before the fd is armed again. */
  ghost predicate Resetting(q: Queue, expired: seq<Timer>, now: int) {
    && Sorted(q.timers) && Agree(q.timers, q.active)
    && (forall id <- q.active :: id < q.nextId)
    && (forall t <- q.timers :: t.expiry > 0)
    && q.cancelled !! q.active.Keys
    && now > 0
    && (forall t <- expired :: t.id !in q.active && t.id < q.nextId && t.id !in q.cancelled)
    && (forall i, j :: 0 <= i < j < |expired| ==> expired[i].id != expired[j].id)
  }

  lemma PutBackOne(q: Queue, expired: seq<Timer>, now: int)
    requires Resetting(q, expired, now) && expired != [] && expired[0].Repeated()
    ensures Resetting(Inserted(q, expired[0].Restarted(now)), expired[1..], now)
  {
    hide InsertSorted;
    var t := expired[0].Restarted(now);
    assert expired[0] in expired;
    InsertAgrees(q.timers, q.active, t);
    InsertSortedMembers(q.timers, t);
    forall u | u in expired[1..] ensures u in expired && u.id != t.id {
      var i :| 0 <= i < |expired[1..]| && expired[1..][i] == u;
      assert expired[i + 1] == u;
    }
  }

  lemma {:induction false} PutBackKeeps(q: Queue, expired: seq<Timer>, now: int)
    requires Resetting(q, expired, now)
    ensures var r := PutBack(q, expired, now);
      && Resetting(r, [], now)
      && r.nextId == q.nextId && r.cancelled == q.cancelled && r.posted == q.posted
      && r.fired == q.fired && r.fd == q.fd
      && (forall t :: t in r.timers <==>
            t in q.timers || exists u <- expired :: u.Repeated() && t == u.Restarted(now))
    decreases |expired|
  {
    if expired != [] {
      var first, more := expired[0], expired[1..];
      assert forall u :: u in expired <==> u == first || u in more;
      assert forall i :: 0 <= i < |more| ==> more[i] == expired[i + 1];
      if first.Repeated() {
        PutBackOne(q, expired, now);
        InsertSortedMembers(q.timers, first.Restarted(now));
        PutBackKeeps(Inserted(q, first.Restarted(now)), more, now);
      } else {
        PutBackKeeps(q, more, now);
      }
    }
  }

  /** What is not due yet expires later, and so not at time zero. */
  lemma KeptAreLater(q: Queue, now: int)
    requires Inv(q) && q.clock <= now
    ensures forall t <- q.timers[DueCount(q.timers, now)..] :: t.expiry > 0
  {
    hide DueCount;
    DueExactly(q.timers, now);
  }

  lemma ExpiredAreResetting(q: Queue, now: int, asked: seq<Id>)
    requires Inv(q) && q.clock <= now
    ensures var k := DueCount(q.timers, now); var ran := RanExpired(FdRead(q, now), now);
      Resetting(ran.(posted := ran.posted + asked), q.timers[..k], now)
  {
    hide DueCount, Firings, Erase, InsertSorted;
    var k := DueCount(q.timers, now);
    KeptAreLater(q, now);
    DropAgrees(q.timers, q.active, k);
    forall t | t in q.timers[..k] ensures t.id in q.active {
      assert t in q.timers;
    }
    forall i, j | 0 <= i < j < k ensures q.timers[i].id != q.timers[j].id {
      assert Less(q.timers[i], q.timers[j]) && q.timers[i] in q.timers && q.timers[j] in q.timers;
    }
  }

  /** Arming for the earliest expiry completes the invariant. */
  lemma RearmCompletes(q: Queue, now: int, armNow: int)
    requires Resetting(q, [], now) && now <= armNow
    requires (forall id <- q.posted :: id < q.nextId) && (forall id <- q.cancelled :: id < q.nextId)
    ensures Inv(Rearmed(q, armNow))
  {
    hide DelayFrom;
    if q.timers != [] {
      assert q.timers[0] in q.timers;
      ArmDeadline(q.timers[0].expiry, armNow);
    }
  }

  lemma HandleReadKeepsInv(q: Queue, now: int, armNow: int, asked: seq<Id>)
    requires Inv(q) && Enabled(q, HandleRead(now, armNow, asked))
    ensures Inv(ReadHandled(q, now, armNow, asked))
  {
    hide DueCount, Firings, PutBack, Inv, Resetting, Rearmed;
    ExpiredAreResetting(q, now, asked);
    var expired := q.timers[..DueCount(q.timers, now)];
    var ran := RanExpired(FdRead(q, now), now);
    var before := ran.(posted := ran.posted + asked);
    PutBackKeeps(before, expired, now);
    KnownIds(q);
    RearmCompletes(PutBack(before, expired, now), now, armNow);
  }

  lemma KnownIds(q: Queue)
    requires Inv(q)
    ensures (forall id <- q.posted :: id < q.nextId) && (forall id <- q.cancelled :: id < q.nextId)
  {
  }

  lemma StepKeepsInv(q: Queue, step: Step)
    requires Inv(q) && Enabled(q, step)
    ensures Inv(Next(q, step))
  {
    hide Added, Cancelled, ReadHandled;
    match step
    case AddTimer(now, when, interval) => AddKeepsInv(q, now, when, interval);
    case RunCancel =>
      assert q.posted[0] in q.posted && forall id <- q.posted[1..] :: id in q.posted;
      CancelKeepsInv(q.(posted := q.posted[1..]), q.posted[0]);
    case HandleRead(now, armNow, asked) => HandleReadKeepsInv(q, now, armNow, asked);
    case _ =>
  }

  lemma {:induction false} RunKeepsInv(q: Queue, steps: seq<Step>)
    requires Inv(q) && IsRun(q, steps)
    ensures Inv(After(q, steps))
    decreases |steps|
  {
    hide Inv, Enabled, Next;
    if steps != [] {
      StepKeepsInv(q, steps[0]);
      RunKeepsInv(Next(q, steps[0]), steps[1..]);
    }
  }

  /** Agreement: over every run the id map is exactly the inverse index of the ordered map. */
  lemma MapsAgree(clock: int, steps: seq<Step>)
    requires clock > 0 && IsRun(Fresh(clock), steps)
    ensures var q := After(Fresh(clock), steps);
      && Sorted(q.timers) && Agree(q.timers, q.active)
      && |q.timers| == |q.active|
  {
    RunKeepsInv(Fresh(clock), steps);
    var q := After(Fresh(clock), steps);
    SizesAgree(q.timers, q.active);
  }

  lemma {:induction false} SizesAgree(s: seq<Timer>, active: map<Id, Timer>)
    requires Sorted(s) && Agree(s, active)
    ensures |s| == |active|
    decreases |s|
  {
    if s == [] {
      assert active == map[];
    } else {
      assert s[0] in s && s[..1] == [s[0]];
      DropAgrees(s, active, 1);
      assert Ids(s[..1]) == {s[0].id};
      var less := active - Ids(s[..1]);
      assert less.Keys == active.Keys - {s[0].id};
      assert |less.Keys| == |active.Keys| - 1;
      SizesAgree(s[1..], less);
    }
  }

  /**
   Arming: over every run, while timers are queued the fd is armed or already readable, for a
   deadline not after the earliest expiry or 100 microseconds after the arming, whichever is
   later; although cancelling never re-arms it.
   */
  lemma FdIsTimely(clock: int, steps: seq<Step>)
    requires clock > 0 && IsRun(Fresh(clock), steps)
    requires After(Fresh(clock), steps).timers != []
    ensures Timely(After(Fresh(clock), steps))
  {
    RunKeepsInv(Fresh(clock), steps);
  }

  /**
   Firing: `handle_read` runs exactly the timers that are due, once each in key order, keeps
   the others, and puts back exactly the repeating ones an interval after now.
   */
  lemma FiresExactlyTheDue(q: Queue, now: int, armNow: int, asked: seq<Id>)
    requires Inv(q) && Enabled(q, HandleRead(now, armNow, asked))
    ensures var r := ReadHandled(q, now, armNow, asked); var k := DueCount(q.timers, now);
      && (forall i :: 0 <= i < |q.timers| ==> (i < k <==> q.timers[i].expiry <= now))
      && r.fired == q.fired + Firings(q.timers[..k], now)
      && (forall t :: t in r.timers <==>
            || (t in q.timers && t.expiry > now)
            || (exists u <- q.timers :: u.expiry <= now && u.Repeated() && t == u.Restarted(now)))
  {
    hide DueCount, Firings, PutBack, DelayFrom, Inserted, Resetting, Inv, Agree, Sorted;
    ExpiredAreResetting(q, now, asked);
    InvSorted(q);
    DueMembers(q.timers, now);
    var k := DueCount(q.timers, now);
    var ran := RanExpired(FdRead(q, now), now);
    PutBackKeeps(ran.(posted := ran.posted + asked), q.timers[..k], now);
  }

  lemma InvSorted(q: Queue)
    requires Inv(q)
    ensures Sorted(q.timers)
  {
  }

  lemma DueMembers(s: seq<Timer>, now: int)
    requires Sorted(s)
    ensures var k := DueCount(s, now);
      && (forall i :: 0 <= i < |s| ==> (i < k <==> s[i].expiry <= now))
      && (forall t :: t in s[..k] <==> t in s && t.expiry <= now)
      && (forall t :: t in s[k..] <==> t in s && t.expiry > now)
  {
    hide DueCount;
    DueExactly(s, now);
    var k := DueCount(s, now);
    forall t ensures t in s[..k] <==> t in s && t.expiry <= now {
      if t in s && t.expiry <= now {
        var i :| 0 <= i < |s| && s[i] == t;
      }
    }
    forall t ensures t in s[k..] <==> t in s && t.expiry > now {
      if t in s && t.expiry > now {
        var i :| 0 <= i < |s| && s[i] == t;
      }
    }
  }

  lemma {:induction false} FiringsAt(s: seq<Timer>, now: int, k: nat)
    requires k < |s|
    ensures |Firings(s, now)| == |s| && Firings(s, now)[k] == Firing(s[k].id, s[k].expiry, now)
  {
    if |s| > 1 {
      FiringsAt(s[1..], now, if k == 0 then 0 else k - 1);
    } else {
      assert Firings(s[1..], now) == [];
    }
  }

  /** A step fires only timers that are active. */
  lemma FiringsAreActive(q: Queue, step: Step)
    requires Inv(q) && Enabled(q, step)
    ensures q.fired <= Next(q, step).fired
    ensures forall f <- Next(q, step).fired[|q.fired|..] :: f.id in q.active
    ensures q.cancelled <= Next(q, step).cancelled
  {
    hide InsertSorted, Erase, DelayFrom, PutBack, DueCount, Firings;
    if step.HandleRead? {
      var k := DueCount(q.timers, step.now);
      FiresExactlyTheDue(q, step.now, step.armNow, step.asked);
      var ran := RanExpired(FdRead(q, step.now), step.now);
      ExpiredAreResetting(q, step.now, step.asked);
      PutBackKeeps(ran.(posted := ran.posted + step.asked), q.timers[..k], step.now);
      var added := Firings(q.timers[..k], step.now);
      forall f | f in added ensures f.id in q.active {
        FiringsOf(q.timers[..k], step.now, f);
      }
    }
  }

  lemma {:induction false} FiringsOf(s: seq<Timer>, now: int, f: Firing)
    requires f in Firings(s, now)
    ensures exists t <- s :: t.id == f.id
  {
    if f != Firings(s, now)[0] {
      FiringsOf(s[1..], now, f);
    } else {
      assert s[0] in s;
    }
  }

  /** Once the cancel functor of an id has run, that id never fires again. */
  lemma {:induction false} CancelledNeverFires(q: Queue, steps: seq<Step>, id: Id)
    requires Inv(q) && IsRun(q, steps) && id in q.cancelled
    ensures q.fired <= After(q, steps).fired
    ensures forall f <- After(q, steps).fired[|q.fired|..] :: f.id != id
    decreases |steps|, 1
  {
    if steps != [] {
      CancelledStep(q, steps[0], steps[1..], id);
    }
  }

  lemma CancelledStep(q: Queue, step: Step, steps: seq<Step>, id: Id)
    requires Inv(q) && Enabled(q, step) && IsRun(Next(q, step), steps) && id in q.cancelled
    ensures q.fired <= After(Next(q, step), steps).fired
    ensures forall f <- After(Next(q, step), steps).fired[|q.fired|..] :: f.id != id
    decreases |steps|, 2
  {
    hide Next, Enabled, IsRun;
    var p := Next(q, step);
    assert id !in q.active by {
      assert q.cancelled !! q.active.Keys;
    }
    FiringsAreActive(q, step);
    StepKeepsInv(q, step);
    CancelledNeverFires(p, steps, id);
    var last := After(p, steps).fired;
    assert last[|q.fired|..] == p.fired[|q.fired|..] + last[|p.fired|..];
  }

  /** `add_timer`: the queue gains this timer and no other, and the id is used up. */
  lemma AddedMembers(q: Queue, now: int, when: int, interval: nat)
    requires Inv(q)
    ensures var p := Added(q, now, when, interval); var t := Timer(q.nextId, when, interval);
      && (forall x :: x in p.timers <==> x in q.timers || x == t)
      && p.active == q.active[q.nextId := t] && q.nextId !in q.active
      && p.nextId == q.nextId + 1
      && p.fired == q.fired && p.cancelled == q.cancelled && p.posted == q.posted
  {
    hide InsertSorted, DelayFrom;
    InsertSortedMembers(q.timers, Timer(q.nextId, when, interval));
  }

  /** `cancel_in_loop`: the timer of this id leaves the queue and no other does. */
  lemma CancelTakesOnly(q: Queue, id: Id)
    requires Inv(q)
    ensures var p := Cancelled(q, id);
      && (forall x :: x in p.timers <==> x in q.timers && x.id != id)
      && p.active == q.active - {id}
      && p == q.(timers := p.timers, active := p.active, cancelled := q.cancelled + {id})
  {
    hide Erase;
    if id in q.active {
      EraseKeeps(q.timers, q.active[id]);
    } else {
      assert q.active - {id} == q.active;
    }
  }

  /** Reading the fd quiets it: after `handle_read` it is not readable for an old arming. */
  lemma ReadQuiets(q: Queue, now: int, armNow: int, asked: seq<Id>)
    requires Enabled(q, HandleRead(now, armNow, asked))
    ensures var fd := ReadHandled(q, now, armNow, asked).fd; fd.Some? ==> fd.value.deadline > now
  {
    hide DueCount, Firings, InsertSorted;
    var ran := RanExpired(FdRead(q, now), now);
    PutBackFrame(ran.(posted := ran.posted + asked), q.timers[..DueCount(q.timers, now)], now);
  }

  lemma {:induction false} PutBackFrame(q: Queue, expired: seq<Timer>, now: int)
    ensures var p := PutBack(q, expired, now); p == q.(timers := p.timers, active := p.active)
    decreases |expired|
  {
    hide InsertSorted;
    if expired != [] {
      PutBackFrame(if expired[0].Repeated() then Inserted(q, expired[0].Restarted(now)) else q, expired[1..], now);
    }
  }

  /** The queue object. */
  class TimerQueue {
    var timers: seq<Timer>
    var active: map<Id, Timer>
    var fd: Option<Arming>
    var created: Id
    var posted: seq<Id>
    ghost var clock: int
    ghost var fired: seq<Firing>
    ghost var cancelled: set<Id>

    ghost function Q(): Queue
      reads this
    {
      Queue(timers, active, fd, clock, created, posted, fired, cancelled)
    }

    constructor (now: int)
      ensures Q() == Fresh(now)
    {
      timers, active, fd, created, posted := [], map[], None, 1, [];
      clock, fired, cancelled := now, [], {};
    }

    method ResetTimerFd(when: int, now: int)
      modifies this`fd
      ensures fd == Some(Arm(when, now))
    {
      fd := Some(Arming(now + DelayFrom(now, when), now));
    }

    method Insert(t: Timer) returns (earliestChanged: bool)
      modifies this`timers, this`active
      ensures Q() == Inserted(old(Q()), t)
      ensures earliestChanged <==> Earliest(old(Q()), t.expiry)
    {
      earliestChanged := timers == [] || t.expiry < timers[0].expiry;
      var k := 0;
      while k < |timers| && !Less(t, timers[k])
        invariant k <= |timers|
        invariant forall i :: 0 <= i < k ==> !Less(t, timers[i])
      {
        k := k + 1;
      }
      InsertSortedAt(timers, t, k);
      timers := timers[..k] + [t] + timers[k..];
      active := active[t.id := t];
    }

    method AddTimer(now: int, when: int, interval: nat) returns (id: Id)
      modifies this
      ensures Q() == Added(old(Q()), now, when, interval) && id == old(created)
    {
      clock := now;
      id := created;
      created := created + 1;
      var earliestChanged := Insert(Timer(id, when, interval));
      if earliestChanged {
        ResetTimerFd(when, now);
      }
    }

    method Cancel(id: Id)
      modifies this`posted
      ensures posted == old(posted) + [id]
    {
      posted := posted + [id];
    }

    /** The source asserts that exactly one entry is erased and that the maps have equal sizes. */
    method CancelInLoop(id: Id)
      requires Sorted(timers) && Agree(timers, active)
      modifies this`timers, this`active, this`cancelled
      ensures Q() == Cancelled(old(Q()), id)
      ensures |timers| == |active|
    {
      hide Agree, Sorted, Erase;
      cancelled := cancelled + {id};
      if id in active {
        EraseAgrees(timers, active, id);
        timers := Erase(timers, active[id].expiry, id);
        active := active - {id};
      }
      SizesAgree(timers, active);
    }

    /** Lines 155 to 168: run the due timers in key order and take them out of both maps. */
    method RunExpired(now: int) returns (expired: seq<Timer>)
      modifies this`timers, this`active, this`fired
      ensures Q() == RanExpired(old(Q()), now)
      ensures expired == old(timers)[..DueCount(old(timers), now)]
    {
      hide Firings, DueCount;
      var iter := DueCount(timers, now);
      expired := [];
      NoFirings(now);
      var ptr := 0;
      while ptr != iter
        modifies this`active, this`fired
        invariant 0 <= ptr <= iter
        invariant expired == timers[..ptr]
        invariant active == old(active) - Ids(timers[..ptr])
        invariant fired == old(fired) + Firings(timers[..ptr], now)
        decreases iter - ptr
      {
        var t := timers[ptr];
        FiringsSnoc(timers[..ptr], t, now);
        assert timers[..ptr + 1] == timers[..ptr] + [t];
        assert Ids(timers[..ptr + 1]) == Ids(timers[..ptr]) + {t.id};
        fired := fired + [Firing(t.id, t.expiry, now)];
        active := active - {t.id};
        expired := expired + [t];
        ptr := ptr + 1;
      }
      timers := timers[iter..];
    }

    method HandleRead(now: int, armNow: int, asked: seq<Id>)
      modifies this
      ensures Q() == ReadHandled(old(Q()), now, armNow, asked)
    {
      hide Firings, DueCount, PutBack;
      if fd.Some? && fd.value.deadline <= now {
        fd := None;
      }
      var expired := RunExpired(now);
      posted := posted + asked;
      Reset(expired, now, armNow);
    }

    method Reset(expired: seq<Timer>, now: int, armNow: int)
      modifies this
      ensures Q() == Rearmed(PutBack(old(Q()), expired, now), armNow)
    {
      var k := 0;
      while k < |expired|
        modifies this`timers, this`active
        invariant k <= |expired|
        invariant PutBack(Q(), expired[k..], now) == PutBack(old(Q()), expired, now)
      {
        assert expired[k..][1..] == expired[k + 1..];
        if expired[k].Repeated() {
          var _ := Insert(expired[k].Restarted(now));
        }
        k := k + 1;
      }
      clock := armNow;
      if timers != [] && timers[0].expiry != 0 {
        ResetTimerFd(timers[0].expiry, armNow);
      }
    }
  }

  lemma {:induction false} InsertSortedAt(s: seq<Timer>, t: Timer, k: nat)
    requires k <= |s| && forall i :: 0 <= i < k ==> !Less(t, s[i])
    requires k < |s| ==> Less(t, s[k])
    ensures InsertSorted(s, t) == s[..k] + [t] + s[k..]
    decreases |s|
  {
    if k > 0 {
      InsertSortedAt(s[1..], t, k - 1);
      assert s[..k] == [s[0]] + s[1..][..k - 1] && s[k..] == s[1..][k - 1..];
    }
  }

  lemma NoFirings(now: int)
    ensures Firings([], now) == []
  {
  }

  lemma {:induction false} FiringsSnoc(s: seq<Timer>, t: Timer, now: int)
    ensures Firings(s + [t], now) == Firings(s, now) + [Firing(t.id, t.expiry, now)]
  {
    if s == [] {
      assert s + [t] == [t] && [t][1..] == [];
    } else {
      TailOfConcat(s, [t]);
      FiringsSnoc(s[1..], t, now);
    }
  }
}
