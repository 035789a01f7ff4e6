/**
 suduo/net/Connector.cpp: the client side of a connection, until it owns a connected socket.

 Sockets are numbered in the order they are created and a ledger counts what became of each.
 Functors and timers that the connector left with its loop are counted, not ordered.
 */
module Connectors {
  import opened Bytes

  const INIT_RETRY_DELAY_MS: nat := 500
  const MAX_RETRY_DELAY_MS: nat := 30000

  datatype State = Disconnected | Connecting | Connected

  datatype Errno =
    | Zero | EINPROGRESS | EINTR | EISCONN
    | EAGAIN | EADDRINUSE | EADDRNOTAVAIL | ECONNREFUSED | ENETUNREACH
    | EACCES | EPERM | EAFNOSUPPORT | EALREADY | EBADF | EFAULT | ENOTSOCK | OtherErrno

  predicate Proceeds(e: Errno) {
    e.Zero? || e.EINPROGRESS? || e.EINTR? || e.EISCONN?
  }

  predicate Retries(e: Errno) {
    e.EAGAIN? || e.EADDRINUSE? || e.EADDRNOTAVAIL? || e.ECONNREFUSED? || e.ENETUNREACH?
  }

  datatype Entry = Entry(closed: nat, handed: nat)

  datatype Link = Link(
    connect: bool,
    state: State,
    channel: Option<nat>,
    polled: bool,
    delay: nat,
    // what the loop still has to run
    starts: nat,
    stops: nat,
    resets: nat,
    timers: nat,
    // history; `sound` says that every assertion held and no null channel was used
    sockets: seq<Entry>,
    waits: seq<nat>,
    sound: bool)

  const INITIAL := Link(false, Disconnected, None, false, INIT_RETRY_DELAY_MS, 0, 0, 0, 0, [], [], true)

  /** One result of a poll on the connecting socket: error first, then writable. */
  datatype Event = Event(error: bool, writable: bool, socketError: bool, selfConnect: bool)

  datatype Step =
    | Start
    | StartInLoop(errno: Errno)
    | Stop
    | StopInLoop
    | Restart(errno: Errno)
    | RetryTimer(errno: Errno)
    | ResetChannel
    | Report(event: Event)

  predicate Enabled(s: Link, step: Step) {
    match step
    case Start | Stop | Restart(_) => true
    case StartInLoop(_) => s.starts > 0
    case StopInLoop => s.stops > 0
    case RetryTimer(_) => s.timers > 0
    case ResetChannel => s.resets > 0
    case Report(_) => s.polled
  }

  /** What is asked of callers and of the loop; all of it can be seen before the step. */
  predicate Guarded(s: Link, step: Step) {
    match step
    case StartInLoop(_) => s.state.Disconnected? && (s.connect ==> s.timers == 0 && s.resets == 0)
    case Restart(_) => !s.state.Connecting? && s.timers == 0 && s.resets == 0
    case RetryTimer(_) => s.connect ==> s.resets == 0
    case _ => true
  }

  function ClosedSocket(s: Link, fd: nat): Link {
    if fd < |s.sockets| then
      s.(sockets := s.sockets[fd := s.sockets[fd].(closed := s.sockets[fd].closed + 1)])
    else s
  }

  function HandedOver(s: Link, fd: nat): Link {
    if fd < |s.sockets| then
      s.(sockets := s.sockets[fd := s.sockets[fd].(handed := s.sockets[fd].handed + 1)])
    else s
  }

  function Min(a: nat, b: nat): nat {
    if a <= b then a else b
  }

  function Retried(s: Link, fd: nat): Link {
    var t := ClosedSocket(s, fd).(state := Disconnected);
    if s.connect then
      t.(timers := s.timers + 1, waits := s.waits + [s.delay], delay := Min(s.delay * 2, MAX_RETRY_DELAY_MS))
    else t
  }

  /** The channel leaves the poller now and is destroyed by a functor. */
  function Detached(s: Link): Link {
    s.(polled := false, resets := s.resets + 1)
  }

  function Tried(s: Link, errno: Errno): Link {
    var fd := |s.sockets|;
    var t := s.(sockets := s.sockets + [Entry(0, 0)]);
    if Proceeds(errno) then
      t.(state := Connecting, channel := Some(fd), polled := true, sound := s.sound && s.channel.None?)
    else if Retries(errno) then Retried(t, fd)
    else ClosedSocket(t, fd)
  }

  function StartedInLoop(s: Link, errno: Errno): Link {
    var t := s.(sound := s.sound && s.state.Disconnected?);
    if s.connect then Tried(t, errno) else t
  }

  function StoppedInLoop(s: Link): Link {
    if !s.state.Connecting? then s
    else if s.channel.None? then s.(sound := false)
    else Retried(Detached(s.(state := Disconnected)), s.channel.value)
  }

  function ErrorHandled(s: Link): Link {
    if !s.state.Connecting? then s
    else if s.channel.None? then s.(sound := false)
    else Retried(Detached(s), s.channel.value)
  }

  function WriteHandled(s: Link, socketError: bool, selfConnect: bool): Link {
    if s.state.Connecting? then
      if s.channel.None? then s.(sound := false)
      else
        var fd := s.channel.value;
        if socketError || selfConnect then Retried(Detached(s), fd)
        else
          var t := Detached(s).(state := Connected);
          if s.connect then HandedOver(t, fd) else ClosedSocket(t, fd)
    else s.(sound := s.sound && s.state.Disconnected?)
  }

  function Reported(s: Link, e: Event): Link {
    var t := if e.error then ErrorHandled(s) else s;
    if e.writable then WriteHandled(t, e.socketError, e.selfConnect) else t
  }

  function Next(s: Link, step: Step): Link
    requires Enabled(s, step)
  {
    match step
    case Start => s.(connect := true, starts := s.starts + 1)
    case StartInLoop(e) => StartedInLoop(s.(starts := s.starts - 1), e)
    case Stop => s.(connect := false, stops := s.stops + 1)
    case StopInLoop => StoppedInLoop(s.(stops := s.stops - 1))
    case Restart(e) =>
      StartedInLoop(s.(state := Disconnected, delay := INIT_RETRY_DELAY_MS, waits := [], connect := true), e)
    case RetryTimer(e) => StartedInLoop(s.(timers := s.timers - 1), e)
    case ResetChannel => s.(channel := None, resets := s.resets - 1)
    case Report(event) => Reported(s, event)
  }

  function Pow2(k: nat): nat {
    if k == 0 then 1 else 2 * Pow2(k - 1)
  }

  /** The wait before the retry numbered `k` from 0. */
  function Wait(k: nat): nat {
    Min(INIT_RETRY_DELAY_MS * Pow2(k), MAX_RETRY_DELAY_MS)
  }

  /** The socket that is being connected, if any. */
  function HeldSocket(s: Link): Option<nat> {
    if s.state.Connecting? then s.channel else None
  }

  /** A socket is held, or it was closed once, or it was handed over once. */
  ghost predicate Accounted(s: Link) {
    forall i | 0 <= i < |s.sockets| ::
      s.sockets[i].closed + s.sockets[i].handed == if HeldSocket(s) == Some(i) then 0 else 1
  }

  ghost predicate Backoff(s: Link) {
    && s.delay == Wait(|s.waits|)
    && forall k | 0 <= k < |s.waits| :: s.waits[k] == Wait(k)
  }

  ghost predicate Inv(s: Link) {
    && s.sound
    && (s.state.Connecting? ==> s.channel.Some? && s.channel.value < |s.sockets| && s.timers == 0)
    && (s.polled <==> s.state.Connecting?)
    && s.resets == (if s.channel.Some? && !s.state.Connecting? then 1 else 0)
    && s.timers <= 1
    && (s.timers == 1 ==> s.state.Disconnected?)
    && Accounted(s)
    && Backoff(s)
  }

  lemma WaitDoubles(k: nat)
    ensures Wait(k + 1) == Min(Wait(k) * 2, MAX_RETRY_DELAY_MS)
  {
  }

  /** Giving up the socket that is held, whether or not another try follows. */
  lemma RetryKeepsInv(s: Link, fd: nat)
    requires s.sound && Backoff(s) && !s.polled && s.timers == 0 && fd < |s.sockets|
    requires s.resets == if s.channel.Some? then 1 else 0
    requires forall i | 0 <= i < |s.sockets| ::
      s.sockets[i].closed + s.sockets[i].handed == if i == fd then 0 else 1
    ensures Inv(Retried(s, fd))
  {
    WaitDoubles(|s.waits|);
  }

  lemma ConnectKeepsInv(s: Link, errno: Errno)
    requires Inv(s) && s.channel.None? && s.timers == 0 && s.state.Disconnected?
    ensures Inv(Tried(s, errno))
  {
    var fd := |s.sockets|;
    var t := s.(sockets := s.sockets + [Entry(0, 0)]);
    if Retries(errno) {
      RetryKeepsInv(t, fd);
    }
  }

  lemma ReportKeepsInv(s: Link, e: Event)
    requires Inv(s) && s.polled
    ensures Inv(Reported(s, e))
  {
    var fd := s.channel.value;
    if e.error || (e.writable && (e.socketError || e.selfConnect)) {
      RetryKeepsInv(Detached(s), fd);
    }
  }

  lemma StepKeepsInv(s: Link, step: Step)
    requires Inv(s) && Enabled(s, step) && Guarded(s, step)
    ensures Inv(Next(s, step))
  {
    match step
    case StartInLoop(e) => if s.connect { ConnectKeepsInv(s.(starts := s.starts - 1), e); }
    case RetryTimer(e) => if s.connect { ConnectKeepsInv(s.(timers := s.timers - 1), e); }
    case Restart(e) =>
      ConnectKeepsInv(s.(state := Disconnected, delay := INIT_RETRY_DELAY_MS, waits := [], connect := true), e);
    case StopInLoop =>
      if s.state.Connecting? {
        RetryKeepsInv(Detached(s.(stops := s.stops - 1, state := Disconnected)), s.channel.value);
      }
    case Report(e) => ReportKeepsInv(s, e);
    case _ =>
  }

  /**
   The guard is exact: whatever `connect` answers, the three ways to begin an attempt keep
   the invariant if and only if they are guarded.
   */
  lemma StartGuardIff(s: Link)
    requires Inv(s) && s.starts > 0
    ensures (forall e :: Inv(Next(s, StartInLoop(e)))) <==> Guarded(s, StartInLoop(Zero))
  {
    hide Wait;
    if Guarded(s, StartInLoop(Zero)) {
      forall e ensures Inv(Next(s, StartInLoop(e))) {
        StepKeepsInv(s, StartInLoop(e));
      }
    } else {
      assert !Inv(Next(s, StartInLoop(Zero)));
    }
  }

  lemma RestartGuardIff(s: Link)
    requires Inv(s)
    ensures (forall e :: Inv(Next(s, Step.Restart(e)))) <==> Guarded(s, Step.Restart(Zero))
  {
    hide Wait;
    if Guarded(s, Step.Restart(Zero)) {
      forall e ensures Inv(Next(s, Step.Restart(e))) {
        StepKeepsInv(s, Step.Restart(e));
      }
    } else {
      assert !Inv(Next(s, Step.Restart(Zero)));
    }
  }

  lemma RetryGuardIff(s: Link)
    requires Inv(s) && s.timers > 0
    ensures (forall e :: Inv(Next(s, RetryTimer(e)))) <==> Guarded(s, RetryTimer(Zero))
  {
    hide Wait;
    if Guarded(s, RetryTimer(Zero)) {
      forall e ensures Inv(Next(s, RetryTimer(e))) {
        StepKeepsInv(s, RetryTimer(e));
      }
    } else {
      assert !Inv(Next(s, RetryTimer(Zero)));
    }
  }

  /** Any order of calls, functors, timers and events that keeps to the guard. */
  predicate IsRun(s: Link, steps: seq<Step>)
    decreases |steps|
  {
    steps == [] || (Enabled(s, steps[0]) && Guarded(s, steps[0]) && IsRun(Next(s, steps[0]), steps[1..]))
  }

  function After(s: Link, steps: seq<Step>): Link
    requires IsRun(s, steps)
    decreases |steps|
  {
    if steps == [] then s else After(Next(s, steps[0]), steps[1..])
  }

  lemma {:induction false} RunKeepsInv(s: Link, steps: seq<Step>)
    requires Inv(s) && IsRun(s, steps)
    ensures Inv(After(s, steps))
    decreases |steps|
  {
    hide Inv, Enabled, Guarded, Next;
    if steps != [] {
      StepKeepsInv(s, steps[0]);
      RunKeepsInv(Next(s, steps[0]), steps[1..]);
    }
  }

  /**
   Over every run, no socket is leaked, closed twice, or closed after it was handed over:
   each is held by the channel of a connector that is Connecting, or was closed once, or was
   handed over once.  No assertion fails; the channel is polled exactly while Connecting.
   */
  lemma SocketsAccountedFor(steps: seq<Step>)
    requires IsRun(INITIAL, steps)
    ensures var end := After(INITIAL, steps);
      && end.sound && Accounted(end)
      && (end.polled <==> HeldSocket(end).Some?)
  {
    RunKeepsInv(INITIAL, steps);
  }

  /** The `k`th retry since construction or the last restart waits min(500 * 2^k, 30000) ms. */
  lemma RetriesBackOff(steps: seq<Step>, k: nat)
    requires IsRun(INITIAL, steps) && k < |After(INITIAL, steps).waits|
    ensures After(INITIAL, steps).waits[k] ==
      if 500 * Pow2(k) <= 30000 then 500 * Pow2(k) else 30000
  {
    RunKeepsInv(INITIAL, steps);
  }

  /** Whether a step starts a new attempt that the kernel accepts. */
  predicate Attempts(s: Link, step: Step) {
    match step
    case StartInLoop(e) => s.connect && Proceeds(e)
    case RetryTimer(e) => s.connect && Proceeds(e)
    case Restart(e) => Proceeds(e)
    case _ => false
  }

  /**
   A new attempt meets the assertions exactly when the last channel is gone: not Connecting,
   with no `reset_channel` outstanding, and, but for a restart, Disconnected.
   */
  lemma AttemptIsSoundIff(s: Link, step: Step)
    requires Inv(s) && Enabled(s, step) && Attempts(s, step)
    ensures Next(s, step).sound <==>
      !s.state.Connecting? && s.resets == 0 && (step.Restart? || s.state.Disconnected?)
  {
  }

  /** A `start` while a retry timer runs is what makes that timer's callback fail its assertion. */
  lemma StartBesideTimerFails(s: Link, started: Errno, retried: Errno)
    requires Inv(s) && s.starts > 0 && s.timers == 1 && s.resets == 0 && s.connect && Proceeds(started)
    ensures var t := Next(s, StartInLoop(started));
      t.sound && Enabled(t, RetryTimer(retried)) && !Next(t, RetryTimer(retried)).sound
  {
    var t := Next(s, StartInLoop(started));
    assert t.state.Connecting?;
    assert !StartedInLoop(t.(timers := 0), retried).sound;
  }

  /**
   What an event reported between `stop` and its functor leaves behind: the socket is closed
   once, and the connector is Connected exactly after a success, in which case only `restart`,
   never `start`, gets it going again (`StartGuardIff`, `RestartGuardIff`).
   */
  lemma StoppedSuccessSticks(s: Link, e: Event, errno: Errno)
    requires Inv(s) && s.polled && !s.connect && s.stops > 0
    ensures var t := Next(Next(s, Report(e)), StopInLoop);
      && (t.state.Connected? <==> e.writable && !e.error && !e.socketError && !e.selfConnect)
      && (!t.state.Connected? ==> t.state.Disconnected?)
      && t.sockets[s.channel.value] == Entry(1, 0)
      && (t.state.Connected? ==>
            && !Next(t.(starts := t.starts + 1), StartInLoop(errno)).sound
            && Guarded(t.(channel := None, resets := 0), Restart(errno)))
  {
    var fd := s.channel.value;
    assert s.sockets[fd].closed + s.sockets[fd].handed == 0;
  }

  // What every step comes to, told from the kernel's answers.

  /** The socket is connected: writable, with no error and not to itself. */
  predicate Succeeds(e: Event) {
    e.writable && !e.error && !e.socketError && !e.selfConnect
  }

  /** What becomes of the socket that is being connected. */
  lemma ReportedSocket(s: Link, e: Event)
    requires Inv(s) && s.polled
    ensures var t := Next(s, Report(e)); var fd := s.channel.value;
      && |t.sockets| == |s.sockets|
      && (forall i | 0 <= i < |s.sockets| && i != fd :: t.sockets[i] == s.sockets[i])
      && t.sockets[fd] == (if Succeeds(e) && s.connect then Entry(0, 1)
                           else if e.error || e.writable then Entry(1, 0)
                           else Entry(0, 0))
      && t.state == (if Succeeds(e) then Connected else if e.error || e.writable then Disconnected else Connecting)
      && t.polled == (!e.error && !e.writable) && t.resets == s.resets + (if e.error || e.writable then 1 else 0)
      && t.channel == s.channel && t.connect == s.connect && t.starts == s.starts && t.stops == s.stops
  {
    assert s.sockets[s.channel.value].closed + s.sockets[s.channel.value].handed == 0;
  }

  /** An attempt: asked for, and, but for `restart`, only while a connection is wanted. */
  predicate Tries(s: Link, step: Step) {
    match step
    case StartInLoop(_) | RetryTimer(_) => s.connect
    case Restart(_) => true
    case _ => false
  }

  function ErrnoOf(step: Step): Errno {
    match step
    case StartInLoop(e) => e
    case RetryTimer(e) => e
    case Restart(e) => e
    case _ => Zero
  }

  /**
   A step creates a socket exactly if it is an attempt: one that `connect` takes, or is still
   at, is held and polled for, and any other is closed at once.
   */
  lemma AttemptedSocket(s: Link, step: Step)
    requires Inv(s) && Enabled(s, step) && Guarded(s, step)
    ensures var t := Next(s, step); var n := |s.sockets|; var errno := ErrnoOf(step);
      if !Tries(s, step) then |t.sockets| == n
      else
        && |t.sockets| == n + 1 && t.sockets[..n] == s.sockets
        && if errno in {Zero, EINPROGRESS, EINTR, EISCONN}
           then t.sockets[n] == Entry(0, 0) && HeldSocket(t) == Some(n) && t.polled
           else t.sockets[n] == Entry(1, 0) && HeldSocket(t) == None && !t.polled && t.state.Disconnected?
  {
    hide Wait;
  }

  /** The socket is given up in a way that asks for another try. */
  predicate GivesUp(s: Link, step: Step) {
    match step
    case Report(e) => s.state.Connecting? && (e.error || e.writable) && !Succeeds(e)
    case StopInLoop => s.state.Connecting?
    case _ => Tries(s, step) && ErrnoOf(step) in {EAGAIN, EADDRINUSE, EADDRNOTAVAIL, ECONNREFUSED, ENETUNREACH}
  }

  lemma TriedRetries(s: Link, errno: Errno)
    ensures var t := Tried(s, errno);
      var again := s.connect && errno in {EAGAIN, EADDRINUSE, EADDRNOTAVAIL, ECONNREFUSED, ENETUNREACH};
      && t.timers == s.timers + (if again then 1 else 0)
      && t.waits == s.waits + (if again then [s.delay] else [])
      && t.connect == s.connect
  {
  }

  /** A retry is scheduled exactly then, for as long as a connection is wanted; a restart begins the delays anew. */
  lemma RetryScheduledIff(s: Link, step: Step)
    requires Inv(s) && Enabled(s, step) && Guarded(s, step)
    ensures var t := Next(s, step); var wanted := s.connect || step.Restart?;
      var waits := if step.Restart? then [] else s.waits;
      && t.timers == s.timers - (if step.RetryTimer? then 1 else 0) + (if GivesUp(s, step) && wanted then 1 else 0)
      && |t.waits| == |waits| + (if GivesUp(s, step) && wanted then 1 else 0) && waits <= t.waits
      && t.connect == (step.Start? || step.Restart? || (s.connect && !step.Stop?))
  {
    hide Wait, Tried, Accounted, Backoff;
    match step
    case StartInLoop(e) => TriedRetries(s.(starts := s.starts - 1), e);
    case RetryTimer(e) => TriedRetries(s.(timers := s.timers - 1), e);
    case Restart(e) =>
      TriedRetries(s.(state := Disconnected, delay := INIT_RETRY_DELAY_MS, waits := [], connect := true), e);
    case _ =>
  }

  /** Only a success hands a socket over, the one that is being connected, and only while it is wanted. */
  lemma HandedOverIff(s: Link, step: Step, fd: nat)
    requires Inv(s) && Enabled(s, step) && Guarded(s, step) && fd < |s.sockets|
    ensures var t := Next(s, step);
      && |s.sockets| <= |t.sockets|
      && t.sockets[fd].handed == s.sockets[fd].handed
        + (if HeldSocket(s) == Some(fd) && step.Report? && Succeeds(step.event) && s.connect then 1 else 0)
  {
    hide Wait;
    if step.Report? {
      ReportedSocket(s, step.event);
    }
  }

  /** Once nobody wants a connection, no socket is created until somebody does again. */
  lemma {:induction false} UnwantedStaysQuiet(s: Link, steps: seq<Step>)
    requires Inv(s) && IsRun(s, steps) && !s.connect
    requires forall k :: 0 <= k < |steps| ==> !steps[k].Start? && !steps[k].Restart?
    ensures var t := After(s, steps); !t.connect && |t.sockets| == |s.sockets| && t.timers <= s.timers
    decreases |steps|
  {
    hide Inv, Next, Enabled, Guarded;
    if steps != [] {
      assert !steps[0].Start? && !steps[0].Restart?;
      StepKeepsInv(s, steps[0]);
      AttemptedSocket(s, steps[0]);
      RetryScheduledIff(s, steps[0]);
      UnwantedStaysQuiet(Next(s, steps[0]), steps[1..]);
    }
  }

  /** What calls and functors leave with the loop, one of them at a time. */
  lemma LoopOwes(s: Link, step: Step)
    requires Inv(s) && Enabled(s, step) && Guarded(s, step)
    ensures var t := Next(s, step);
      && t.starts == s.starts + (if step.Start? then 1 else 0) - (if step.StartInLoop? then 1 else 0)
      && t.stops == s.stops + (if step.Stop? then 1 else 0) - (if step.StopInLoop? then 1 else 0)
      && (step.ResetChannel? ==> t.channel == None)
      && (step.StopInLoop? ==> !t.state.Connecting? && (s.state.Connecting? ==>
            t.state.Disconnected? && !t.polled && t.sockets[s.channel.value] == Entry(1, 0)))
  {
    hide Wait;
    if s.state.Connecting? {
      assert s.sockets[s.channel.value].closed + s.sockets[s.channel.value].handed == 0;
    }
  }

  /** The connector object, with what its loop still holds for it. */
  class Connector {
    var connect: bool
    var state: State
    var channel: Option<nat>
    var polled: bool
    var retryDelayMs: nat
    var starts: nat
    var stops: nat
    var resets: nat
    var timers: nat
    var sockets: seq<Entry>
    ghost var waits: seq<nat>
    ghost var sound: bool

    ghost function V(): Link
      reads this
    {
      Link(connect, state, channel, polled, retryDelayMs, starts, stops, resets, timers, sockets, waits, sound)
    }

    constructor ()
      ensures V() == INITIAL && Inv(V())
    {
      connect, state, channel, polled := false, Disconnected, None, false;
      retryDelayMs := INIT_RETRY_DELAY_MS;
      starts, stops, resets, timers := 0, 0, 0, 0;
      sockets, waits, sound := [], [], true;
    }

    method Start()
      modifies this
      ensures V() == Next(old(V()), Step.Start)
    {
      connect := true;
      starts := starts + 1;
    }

    method Stop()
      modifies this
      ensures V() == Next(old(V()), Step.Stop)
    {
      connect := false;
      stops := stops + 1;
    }

    method Close(fd: nat)
      requires fd < |sockets|
      modifies this`sockets
      ensures V() == ClosedSocket(old(V()), fd)
    {
      sockets := sockets[fd := sockets[fd].(closed := sockets[fd].closed + 1)];
    }

    method Retry(fd: nat)
      requires fd < |sockets|
      modifies this
      ensures V() == Retried(old(V()), fd)
    {
      Close(fd);
      state := Disconnected;
      if connect {
        timers := timers + 1;
        waits := waits + [retryDelayMs];
        retryDelayMs := if retryDelayMs * 2 <= MAX_RETRY_DELAY_MS then retryDelayMs * 2 else MAX_RETRY_DELAY_MS;
      }
    }

    method RemoveAndResetChannel() returns (fd: nat)
      requires channel.Some?
      modifies this
      ensures V() == Detached(old(V())) && fd == old(channel).value
    {
      polled := false;
      fd := channel.value;
      resets := resets + 1;
    }

    /** A new socket is created, and polled, retried or closed by what `connect` says of it. */
    method Connect(errno: Errno)
      modifies this
      ensures V() == Tried(old(V()), errno)
    {
      hide Retried, ClosedSocket, Proceeds, Retries;
      var fd := |sockets|;
      sockets := sockets + [Entry(0, 0)];
      if Proceeds(errno) {
        state := Connecting;
        sound := sound && channel.None?;
        channel := Some(fd);
        polled := true;
      } else if Retries(errno) {
        Retry(fd);
      } else {
        Close(fd);
      }
    }

    method StartInLoop(errno: Errno)
      requires Inv(V()) && starts > 0
      modifies this
      ensures V() == Next(old(V()), Step.StartInLoop(errno))
      ensures Guarded(old(V()), Step.StartInLoop(errno)) ==> Inv(V())
    {
      if Guarded(V(), Step.StartInLoop(errno)) { StepKeepsInv(V(), Step.StartInLoop(errno)); }
      starts := starts - 1;
      sound := sound && state.Disconnected?;
      if connect {
        Connect(errno);
      }
    }

    method Restart(errno: Errno)
      requires Inv(V())
      modifies this
      ensures V() == Next(old(V()), Step.Restart(errno))
      ensures Guarded(old(V()), Step.Restart(errno)) ==> Inv(V())
    {
      if Guarded(V(), Step.Restart(errno)) { StepKeepsInv(V(), Step.Restart(errno)); }
      state := Disconnected;
      retryDelayMs := INIT_RETRY_DELAY_MS;
      waits := [];
      connect := true;
      Connect(errno);
    }

    method StopInLoop()
      requires Inv(V()) && stops > 0
      modifies this
      ensures V() == Next(old(V()), Step.StopInLoop) && Inv(V())
    {
      StepKeepsInv(V(), Step.StopInLoop);
      stops := stops - 1;
      if state.Connecting? {
        state := Disconnected;
        var fd := RemoveAndResetChannel();
        Retry(fd);
      }
    }

    method HandleError()
      requires Inv(V())
      modifies this
      ensures V() == ErrorHandled(old(V())) && |sockets| == old(|sockets|)
    {
      if state.Connecting? {
        var fd := RemoveAndResetChannel();
        Retry(fd);
      }
    }

    /** The socket is retried, handed over, or closed because of a `stop`. */
    method HandleWrite(socketError: bool, selfConnect: bool)
      requires state.Connecting? ==> channel.Some? && channel.value < |sockets|
      modifies this
      ensures V() == WriteHandled(old(V()), socketError, selfConnect)
    {
      if state.Connecting? {
        var fd := RemoveAndResetChannel();
        if socketError || selfConnect {
          Retry(fd);
        } else {
          state := Connected;
          if connect {
            sockets := sockets[fd := sockets[fd].(handed := sockets[fd].handed + 1)];
          } else {
            Close(fd);
          }
        }
      } else {
        sound := sound && state.Disconnected?;
      }
    }

    method HandleEvent(e: Event)
      requires Inv(V()) && polled
      modifies this
      ensures V() == Next(old(V()), Report(e)) && Inv(V())
    {
      ReportKeepsInv(V(), e);
      if e.error {
        HandleError();
      }
      if e.writable {
        HandleWrite(e.socketError, e.selfConnect);
      }
    }
  }
}
