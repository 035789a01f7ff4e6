/**
 suduo/base/Condition.h: who waits on a condition variable, and with what value in hand.

 A waiter is asleep until it is signalled, by a notification or spuriously; then it owns
 nothing yet and rechecks its predicate when it gets the mutex.
 */
module Conditions {
  import opened Bytes
  import opened Threads

  datatype Condition<V> = Condition(asleep: map<Tid, V>, signalled: map<Tid, V>) {
    ghost predicate Valid() {
      asleep.Keys !! signalled.Keys
    }

    predicate Has(tid: Tid) {
      tid in asleep || tid in signalled
    }

    predicate NobodyAsleep() {
      asleep == map[]
    }

    function Wait(tid: Tid, v: V): Condition<V> {
      this.(asleep := asleep[tid := v])
    }

    function Leave(tid: Tid): Condition<V> {
      this.(signalled := signalled - {tid})
    }

    function Signal(tid: Tid): Condition<V>
      requires tid in asleep
    {
      Condition(asleep - {tid}, signalled[tid := asleep[tid]])
    }

    /** `pthread_cond_signal` wakes a waiter iff there is one. */
    predicate MayNotify(woken: Option<Tid>) {
      match woken
      case None => NobodyAsleep()
      case Some(tid) => tid in asleep
    }

    function Notify(woken: Option<Tid>): Condition<V>
      requires MayNotify(woken)
    {
      match woken
      case None => this
      case Some(tid) => Signal(tid)
    }

    /** `pthread_cond_broadcast`. */
    function NotifyAll(): Condition<V> {
      Condition(map[], signalled + asleep)
    }
  }

  function NoWaiters<V>(): Condition<V> {
    Condition(map[], map[])
  }

  lemma SignalCounts<V>(c: Condition<V>, tid: Tid)
    requires c.Valid() && tid in c.asleep
    ensures c.Signal(tid).Valid() && |c.Signal(tid).signalled| == |c.signalled| + 1
  {
    var s := c.Signal(tid);
    assert s.asleep.Keys == c.asleep.Keys - {tid};
    assert s.signalled.Keys == c.signalled.Keys + {tid};
    assert |s.signalled.Keys| == |c.signalled.Keys| + 1;
  }

  /** After a notification nobody sleeps, or one more thread is on its way. */
  lemma NotifyCounts<V>(c: Condition<V>, woken: Option<Tid>)
    requires c.Valid() && c.MayNotify(woken)
    ensures var n := c.Notify(woken);
      n.Valid() && (n.NobodyAsleep() || |n.signalled| == |c.signalled| + 1)
  {
    if woken.Some? {
      SignalCounts(c, woken.value);
    }
  }

  /** A broadcast leaves nobody asleep. */
  lemma NotifyAllWakes<V>(c: Condition<V>)
    ensures c.NotifyAll().Valid() && c.NotifyAll().NobodyAsleep()
  {
    assert c.NotifyAll().asleep.Keys == {};
  }

  lemma LeaveCounts<V>(c: Condition<V>, tid: Tid)
    requires c.Valid() && tid in c.signalled
    ensures c.Leave(tid).Valid() && |c.Leave(tid).signalled| == |c.signalled| - 1
    ensures !c.Leave(tid).Has(tid)
  {
    var l := c.Leave(tid);
    assert l.signalled.Keys == c.signalled.Keys - {tid};
    assert |l.signalled.Keys| == |c.signalled.Keys| - 1;
  }

  // The values that waiters have in hand.

  ghost function Values<V>(m: map<Tid, V>): multiset<V> {
    if m == map[] then multiset{}
    else
      var tid :| tid in m;
      multiset{m[tid]} + Values(m - {tid})
  }

  ghost function Hands<V>(c: Condition<V>): multiset<V> {
    Values(c.asleep) + Values(c.signalled)
  }

  lemma Smaller<V>(m: map<Tid, V>, tid: Tid)
    requires tid in m
    ensures |m - {tid}| < |m|
  {
    assert (m - {tid}).Keys == m.Keys - {tid};
    assert |m.Keys - {tid}| < |m.Keys|;
  }

  lemma SwapRemoved<V>(m: map<Tid, V>, a: Tid, b: Tid)
    ensures m - {a} - {b} == m - {b} - {a}
  {
  }

  lemma FirstValue<V>(m: map<Tid, V>) returns (first: Tid)
    requires m != map[]
    ensures first in m && Values(m) == multiset{m[first]} + Values(m - {first})
  {
    first :| first in m && Values(m) == multiset{m[first]} + Values(m - {first});
  }

  /** Whichever thread is looked at first. */
  lemma {:induction false} ValuesWithout<V>(m: map<Tid, V>, tid: Tid)
    requires tid in m
    ensures Values(m) == multiset{m[tid]} + Values(m - {tid})
    decreases |m|
  {
    hide Values;
    var first := FirstValue(m);
    if first != tid {
      Smaller(m, first);
      ValuesWithout(m - {first}, tid);
      Smaller(m, tid);
      ValuesWithout(m - {tid}, first);
      SwapRemoved(m, first, tid);
    }
  }

  lemma ValuesWith<V>(m: map<Tid, V>, tid: Tid, v: V)
    requires tid !in m
    ensures Values(m[tid := v]) == Values(m) + multiset{v}
  {
    ValuesWithout(m[tid := v], tid);
    assert m[tid := v] - {tid} == m;
  }

  lemma MergedWithout<V>(a: map<Tid, V>, b: map<Tid, V>, tid: Tid)
    requires tid in b && a.Keys !! b.Keys
    ensures tid in a + b && (a + b)[tid] == b[tid]
    ensures a + b - {tid} == a + (b - {tid})
    ensures a.Keys !! (b - {tid}).Keys
  {
  }

  lemma NoValues<V>()
    ensures Values<V>(map[]) == multiset{}
  {
  }

  lemma {:induction false} ValuesMerged<V>(a: map<Tid, V>, b: map<Tid, V>)
    requires a.Keys !! b.Keys
    ensures Values(a + b) == Values(a) + Values(b)
    decreases |b|
  {
    hide Values;
    if b == map[] {
      assert a + b == a;
      NoValues<V>();
    } else {
      var tid :| tid in b;
      Smaller(b, tid);
      MergedWithout(a, b, tid);
      var both, less := a + b, b - {tid};
      ValuesMerged(a, less);
      ValuesWithout(b, tid);
      ValuesWithout(both, tid);
    }
  }

  /** A waiter brings its value. */
  lemma WaitHolds<V>(c: Condition<V>, tid: Tid, v: V)
    requires !c.Has(tid)
    ensures Hands(c.Wait(tid, v)) == Hands(c) + multiset{v}
  {
    ValuesWith(c.asleep, tid, v);
  }

  /** And takes it along when it has the mutex again. */
  lemma LeaveReleases<V>(c: Condition<V>, tid: Tid)
    requires tid in c.signalled
    ensures Hands(c) == Hands(c.Leave(tid)) + multiset{c.signalled[tid]}
  {
    ValuesWithout(c.signalled, tid);
  }

  /** No wakeup changes what the waiters hold. */
  lemma SignalHolds<V>(c: Condition<V>, tid: Tid)
    requires c.Valid() && tid in c.asleep
    ensures Hands(c.Signal(tid)) == Hands(c)
  {
    ValuesWithout(c.asleep, tid);
    ValuesWith(c.signalled, tid, c.asleep[tid]);
  }

  lemma NotifyHolds<V>(c: Condition<V>, woken: Option<Tid>)
    requires c.Valid() && c.MayNotify(woken)
    ensures Hands(c.Notify(woken)) == Hands(c)
  {
    if woken.Some? {
      SignalHolds(c, woken.value);
    }
  }

  lemma NotifyAllHolds<V>(c: Condition<V>)
    requires c.Valid()
    ensures Hands(c.NotifyAll()) == Hands(c)
  {
    ValuesMerged(c.signalled, c.asleep);
    NoValues<V>();
  }
}
