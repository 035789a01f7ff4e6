/**
 suduo/base/ThreadPool.cpp after `start`, with at least one worker: submitters and workers
 around a deque, a bound that may be absent, and `stop`.
 */
module ThreadPools {
  import opened Bytes
  import opened Conditions
  import opened Threads

  type Task = nat

  /**
   Where a worker is: about to test `_running`, past the test and in `get_next_task` (perhaps
   asleep there), running what it got, or gone.
   */
  datatype Pc = Testing | Getting | Working | Exited

  /** A submitter waits with its task in hand.  `maxQueueSize` 0 means no bound. */
  datatype Pool = Pool(
    maxQueueSize: nat,
    running: bool,
    taskQueue: seq<Task>,
    notFull: Condition<Task>,
    notEmpty: Condition<()>,
    workers: map<Tid, Pc>,
    // history
    submitted: seq<Task>,
    handedOut: seq<Task>,
    refused: seq<Task>)
  {
    predicate IsFull() {
      maxQueueSize > 0 && |taskQueue| >= maxQueueSize
    }
  }

  function Started(maxQueueSize: nat, workers: set<Tid>): Pool {
    Pool(maxQueueSize, true, [], NoWaiters(), NoWaiters(), map t | t in workers :: Testing, [], [], [])
  }

  datatype Step =
    | Submit(tid: Tid, task: Task, woken: Option<Tid>)
    | ResumeSubmit(tid: Tid, woken: Option<Tid>)
    | Test(tid: Tid)
    | GetTask(tid: Tid, woken: Option<Tid>)
    | ResumeGetTask(tid: Tid, woken: Option<Tid>)
    | Finish(tid: Tid)
    | SpuriousSubmitter(tid: Tid)
    | SpuriousWorker(tid: Tid)
    | Stop

  predicate Idle(p: Pool, tid: Tid) {
    !p.notFull.Has(tid) && !p.notEmpty.Has(tid)
  }

  /** Does the section reach its notification, and whom does that wake? */
  predicate MaySubmit(p: Pool, woken: Option<Tid>) {
    !p.running || p.IsFull() || p.notEmpty.MayNotify(woken)
  }

  predicate MayGet(p: Pool, woken: Option<Tid>) {
    p.taskQueue == [] || p.maxQueueSize == 0 || p.notFull.MayNotify(woken)
  }

  predicate At(p: Pool, tid: Tid, pc: Pc) {
    tid in p.workers && p.workers[tid] == pc
  }

  /** A worker submits only from within a task. */
  predicate Enabled(p: Pool, step: Step) {
    match step
    case Submit(tid, _, woken) => Idle(p, tid) && (tid in p.workers ==> At(p, tid, Working)) && MaySubmit(p, woken)
    case Test(tid) => At(p, tid, Testing)
    case Finish(tid) => At(p, tid, Working) && Idle(p, tid)
    case ResumeSubmit(tid, woken) => tid in p.notFull.signalled && MaySubmit(p, woken)
    case GetTask(tid, woken) => At(p, tid, Getting) && Idle(p, tid) && MayGet(p, woken)
    case ResumeGetTask(tid, woken) => At(p, tid, Getting) && tid in p.notEmpty.signalled && MayGet(p, woken)
    case SpuriousSubmitter(tid) => tid in p.notFull.asleep
    case SpuriousWorker(tid) => tid in p.notEmpty.asleep
    case Stop => true
  }

  function RunSection(p: Pool, tid: Tid, task: Task, woken: Option<Tid>): Pool
    requires MaySubmit(p, woken)
  {
    if !p.running then p.(refused := p.refused + [task])
    else if p.IsFull() then p.(notFull := p.notFull.Wait(tid, task))
    else
      p.(taskQueue := p.taskQueue + [task], submitted := p.submitted + [task],
         notEmpty := p.notEmpty.Notify(woken))
  }

  function GetSection(p: Pool, tid: Tid, woken: Option<Tid>): Pool
    requires MayGet(p, woken)
  {
    if p.taskQueue == [] then
      if p.running then p.(notEmpty := p.notEmpty.Wait(tid, ())) else p.(workers := p.workers[tid := Working])
    else
      p.(workers := p.workers[tid := Working], taskQueue := p.taskQueue[1..], handedOut := p.handedOut + [p.taskQueue[0]],
         notFull := if p.maxQueueSize > 0 then p.notFull.Notify(woken) else p.notFull)
  }

  function Next(p: Pool, step: Step): Pool
    requires Enabled(p, step)
  {
    match step
    case Submit(tid, task, woken) => RunSection(p, tid, task, woken)
    case ResumeSubmit(tid, woken) =>
      RunSection(p.(notFull := p.notFull.Leave(tid)), tid, p.notFull.signalled[tid], woken)
    case Test(tid) => p.(workers := p.workers[tid := if p.running then Getting else Exited])
    case Finish(tid) => p.(workers := p.workers[tid := Testing])
    case GetTask(tid, woken) => GetSection(p, tid, woken)
    case ResumeGetTask(tid, woken) => GetSection(p.(notEmpty := p.notEmpty.Leave(tid)), tid, woken)
    case SpuriousSubmitter(tid) => p.(notFull := p.notFull.Signal(tid))
    case SpuriousWorker(tid) => p.(notEmpty := p.notEmpty.Signal(tid))
    case Stop =>
      p.(running := false, notEmpty := p.notEmpty.NotifyAll(), notFull := p.notFull.NotifyAll())
  }

  predicate IsRun(p: Pool, steps: seq<Step>)
    decreases |steps|
  {
    steps == [] || (Enabled(p, steps[0]) && IsRun(Next(p, steps[0]), steps[1..]))
  }

  function After(p: Pool, steps: seq<Step>): Pool
    requires IsRun(p, steps)
    decreases |steps|
  {
    if steps == [] then p else After(Next(p, steps[0]), steps[1..])
  }

  /** As for the bounded queue, while the pool runs; once stopped, nobody sleeps. */
  ghost predicate Covered(p: Pool, submittersOff: nat, workersOff: nat) {
    && (p.maxQueueSize > 0 ==> |p.taskQueue| <= p.maxQueueSize)
    && p.submitted == p.handedOut + p.taskQueue
    && p.notFull.Valid() && p.notEmpty.Valid()
    && (!p.running ==> p.notFull.NobodyAsleep() && p.notEmpty.NobodyAsleep())
    && (!p.notEmpty.NobodyAsleep() ==> |p.taskQueue| <= |p.notEmpty.signalled| + workersOff)
    && (!p.notFull.NobodyAsleep() ==>
          p.maxQueueSize > 0
          && p.maxQueueSize - |p.taskQueue| <= |p.notFull.signalled| + submittersOff)
  }

  ghost predicate Inv(p: Pool) {
    Covered(p, 0, 0)
  }

  lemma RunKeepsInv(p: Pool, tid: Tid, task: Task, woken: Option<Tid>)
    requires Covered(p, 1, 0) && tid !in p.notFull.signalled && MaySubmit(p, woken)
    ensures Inv(RunSection(p, tid, task, woken))
  {
    if p.running && !p.IsFull() {
      NotifyCounts(p.notEmpty, woken);
      assert p.submitted + [task] == p.handedOut + (p.taskQueue + [task]);
    }
  }

  lemma GetKeepsInv(p: Pool, tid: Tid, woken: Option<Tid>)
    requires Covered(p, 0, 1) && tid !in p.notEmpty.signalled && MayGet(p, woken)
    ensures Inv(GetSection(p, tid, woken))
  {
    if p.taskQueue != [] {
      if p.maxQueueSize > 0 {
        NotifyCounts(p.notFull, woken);
      }
      assert p.submitted == p.handedOut + [p.taskQueue[0]] + p.taskQueue[1..];
    }
  }

  lemma SubmitKeepsInv(p: Pool, tid: Tid, task: Task, woken: Option<Tid>)
    requires Inv(p) && Enabled(p, Submit(tid, task, woken))
    ensures Inv(Next(p, Submit(tid, task, woken)))
  {
    hide RunSection;
    RunKeepsInv(p, tid, task, woken);
  }

  lemma GetTaskKeepsInv(p: Pool, tid: Tid, woken: Option<Tid>)
    requires Inv(p) && Enabled(p, GetTask(tid, woken))
    ensures Inv(Next(p, GetTask(tid, woken)))
  {
    hide GetSection;
    GetKeepsInv(p, tid, woken);
  }

  lemma ResumeSubmitKeepsInv(p: Pool, tid: Tid, woken: Option<Tid>)
    requires Inv(p) && Enabled(p, ResumeSubmit(tid, woken))
    ensures Inv(Next(p, ResumeSubmit(tid, woken)))
  {
    hide RunSection;
    LeaveCounts(p.notFull, tid);
    RunKeepsInv(p.(notFull := p.notFull.Leave(tid)), tid, p.notFull.signalled[tid], woken);
  }

  lemma ResumeGetKeepsInv(p: Pool, tid: Tid, woken: Option<Tid>)
    requires Inv(p) && Enabled(p, ResumeGetTask(tid, woken))
    ensures Inv(Next(p, ResumeGetTask(tid, woken)))
  {
    hide GetSection;
    LeaveCounts(p.notEmpty, tid);
    GetKeepsInv(p.(notEmpty := p.notEmpty.Leave(tid)), tid, woken);
  }

  lemma SpuriousKeepsInv(p: Pool, tid: Tid)
    requires Inv(p)
    ensures tid in p.notFull.asleep ==> Inv(Next(p, SpuriousSubmitter(tid)))
    ensures tid in p.notEmpty.asleep ==> Inv(Next(p, SpuriousWorker(tid)))
  {
    if tid in p.notFull.asleep { SignalCounts(p.notFull, tid); }
    if tid in p.notEmpty.asleep { SignalCounts(p.notEmpty, tid); }
  }

  lemma TurnKeepsInv(p: Pool, step: Step)
    requires Inv(p) && Enabled(p, step) && (step.Test? || step.Finish?)
    ensures Inv(Next(p, step))
  {
  }

  lemma StopKeepsInv(p: Pool)
    requires Inv(p)
    ensures Inv(Next(p, Stop))
  {
    hide Condition.NotifyAll;
    NotifyAllWakes(p.notFull);
    NotifyAllWakes(p.notEmpty);
  }

  lemma StepKeepsInv(p: Pool, step: Step)
    requires Inv(p) && Enabled(p, step)
    ensures Inv(Next(p, step))
  {
    hide Inv;
    match step
    case ResumeSubmit(tid, woken) => ResumeSubmitKeepsInv(p, tid, woken);
    case ResumeGetTask(tid, woken) => ResumeGetKeepsInv(p, tid, woken);
    case Submit(tid, task, woken) => SubmitKeepsInv(p, tid, task, woken);
    case GetTask(tid, woken) => GetTaskKeepsInv(p, tid, woken);
    case SpuriousSubmitter(tid) => SpuriousKeepsInv(p, tid);
    case SpuriousWorker(tid) => SpuriousKeepsInv(p, tid);
    case Stop => StopKeepsInv(p);
    case _ => TurnKeepsInv(p, step);
  }

  lemma {:induction false} RunsKeepInv(p: Pool, steps: seq<Step>)
    requires Inv(p) && IsRun(p, steps)
    ensures Inv(After(p, steps)) && After(p, steps).maxQueueSize == p.maxQueueSize
    decreases |steps|
  {
    hide Inv, Enabled;
    if steps != [] {
      StepKeepsInv(p, steps[0]);
      RunsKeepInv(Next(p, steps[0]), steps[1..]);
    }
  }

  /** Over every run: the bound holds, and tasks are handed out in order, at most once. */
  lemma TasksInOrder(bound: nat, workers: set<Tid>, steps: seq<Step>)
    requires IsRun(Started(bound, workers), steps)
    ensures var p := After(Started(bound, workers), steps);
      && (bound > 0 ==> |p.taskQueue| <= bound)
      && p.handedOut <= p.submitted
      && p.submitted == p.handedOut + p.taskQueue
  {
    RunsKeepInv(Started(bound, workers), steps);
  }

  /**
   No sleeper is stranded while progress is possible: a worker asleep has every queued task
   promised to a signalled worker, a submitter asleep every free place to a signalled
   submitter, and the two kinds are never asleep together with nobody signalled.
   */
  lemma NobodyStranded(bound: nat, workers: set<Tid>, steps: seq<Step>)
    requires IsRun(Started(bound, workers), steps)
    ensures var p := After(Started(bound, workers), steps);
      && (!p.notEmpty.NobodyAsleep() ==> p.running && |p.taskQueue| <= |p.notEmpty.signalled|)
      && (!p.notFull.NobodyAsleep() ==>
            p.running && bound > 0 && bound - |p.taskQueue| <= |p.notFull.signalled|)
      && (!p.notEmpty.NobodyAsleep() && !p.notFull.NobodyAsleep() ==>
            |p.notEmpty.signalled| + |p.notFull.signalled| > 0)
  {
    RunsKeepInv(Started(bound, workers), steps);
  }

  // Where every task is.

  /** The tasks of the run's `Submit` steps. */
  function TasksOf(steps: seq<Step>): seq<Task> {
    if steps == [] then []
    else (if steps[0].Submit? then [steps[0].task] else []) + TasksOf(steps[1..])
  }

  /** Queued, refused, or in the hands of a submitter that waits or is on its way. */
  ghost function Known(p: Pool): multiset<Task> {
    multiset(p.submitted) + multiset(p.refused) + Hands(p.notFull)
  }

  lemma SectionKnows(p: Pool, tid: Tid, task: Task, woken: Option<Tid>)
    requires MaySubmit(p, woken) && !p.notFull.Has(tid)
    ensures Known(RunSection(p, tid, task, woken)) == Known(p) + multiset{task}
  {
    hide Hands;
    if p.running && p.IsFull() {
      WaitHolds(p.notFull, tid, task);
    }
  }

  lemma GetKnows(p: Pool, tid: Tid, woken: Option<Tid>)
    requires MayGet(p, woken) && p.notFull.Valid()
    ensures Known(GetSection(p, tid, woken)) == Known(p)
  {
    hide Hands;
    if p.taskQueue != [] && p.maxQueueSize > 0 {
      NotifyHolds(p.notFull, woken);
    }
  }

  lemma ResumeSubmitKnows(p: Pool, tid: Tid, woken: Option<Tid>)
    requires Inv(p) && Enabled(p, ResumeSubmit(tid, woken))
    ensures Known(Next(p, ResumeSubmit(tid, woken))) == Known(p)
  {
    hide Hands, RunSection;
    LeaveCounts(p.notFull, tid);
    LeaveReleases(p.notFull, tid);
    SectionKnows(p.(notFull := p.notFull.Leave(tid)), tid, p.notFull.signalled[tid], woken);
  }

  /** A step knows one task more exactly if it submits one. */
  lemma StepKnows(p: Pool, step: Step)
    requires Inv(p) && Enabled(p, step)
    ensures Known(Next(p, step)) == Known(p) + multiset(TasksOf([step]))
  {
    hide Hands, RunSection, GetSection;
    assert [step][1..] == [];
    match step
    case Submit(tid, task, woken) => SectionKnows(p, tid, task, woken);
    case ResumeSubmit(tid, woken) => ResumeSubmitKnows(p, tid, woken);
    case GetTask(tid, woken) => GetKnows(p, tid, woken);
    case ResumeGetTask(tid, woken) => GetKnows(p.(notEmpty := p.notEmpty.Leave(tid)), tid, woken);
    case SpuriousSubmitter(tid) => SignalHolds(p.notFull, tid);
    case Stop => NotifyAllHolds(p.notFull);
    case _ =>
  }

  lemma {:induction false} RunKnows(p: Pool, steps: seq<Step>)
    requires Inv(p) && IsRun(p, steps)
    ensures Known(After(p, steps)) == Known(p) + multiset(TasksOf(steps))
    decreases |steps|
  {
    hide Inv, Enabled, Next, Known;
    if steps == [] {
      assert multiset(TasksOf(steps)) == multiset{};
    } else {
      StepKeepsInv(p, steps[0]);
      StepKnows(p, steps[0]);
      RunKnows(Next(p, steps[0]), steps[1..]);
      assert [steps[0]][1..] == [];
    }
  }

  /** No step of a running pool refuses a task, and only `stop` ends the running. */
  lemma RunningRefusesNothing(p: Pool, step: Step)
    requires Enabled(p, step)
    ensures p.running ==> Next(p, step).refused == p.refused
    ensures Next(p, step).running <==> p.running && !step.Stop?
  {
  }

  lemma {:induction false} RunningRun(p: Pool, steps: seq<Step>)
    requires IsRun(p, steps) && p.running
    ensures After(p, steps).running <==> Stop !in steps
    ensures After(p, steps).running ==> After(p, steps).refused == p.refused
    decreases |steps|
  {
    hide Enabled, Next;
    if steps != [] {
      var q := Next(p, steps[0]);
      RunningRefusesNothing(p, steps[0]);
      if q.running {
        RunningRun(q, steps[1..]);
        assert Stop in steps ==> Stop in steps[1..];
      } else {
        StaysStopped(q, steps[1..]);
      }
    }
  }

  /**
   Over every run no task is lost or doubled: the tasks given to `run` are those that were
   queued, those refused and those that submitters still hold while they wait for a place;
   and until `stop` none is refused.
   */
  lemma EveryTaskIsSomewhere(bound: nat, workers: set<Tid>, steps: seq<Step>)
    requires IsRun(Started(bound, workers), steps)
    ensures var p := After(Started(bound, workers), steps);
      && multiset(p.submitted) + multiset(p.refused) + Hands(p.notFull) == multiset(TasksOf(steps))
      && (p.running <==> Stop !in steps)
      && (Stop !in steps ==> p.refused == [])
  {
    var p := Started(bound, workers);
    RunKnows(p, steps);
    RunningRun(p, steps);
    NoValues<Task>();
  }

  /**
   A worker that asks gets the oldest task; without any it goes to sleep while the pool
   runs, and goes on with the empty task once it is stopped.
   */
  lemma AskedWorkerGets(p: Pool, step: Step)
    requires Enabled(p, step) && (step.GetTask? || step.ResumeGetTask?)
    ensures var q := Next(p, step);
      if p.taskQueue != [] then
        && q.handedOut == p.handedOut + [p.taskQueue[0]] && q.taskQueue == p.taskQueue[1..]
        && At(q, step.tid, Working) && step.tid !in q.notEmpty.signalled
      else
        && q.handedOut == p.handedOut && q.taskQueue == []
        && (p.running ==> step.tid in q.notEmpty.asleep && At(q, step.tid, Getting))
        && (!p.running ==> At(q, step.tid, Working))
  {
  }

  /** A waiter leaves its sleep by a spurious wakeup as by a notification, with what it holds. */
  lemma SpuriousWakes(p: Pool, step: Step)
    requires Enabled(p, step) && (step.SpuriousWorker? || step.SpuriousSubmitter?)
    ensures var q := Next(p, step);
      && (step.SpuriousWorker? ==>
            step.tid in q.notEmpty.signalled && step.tid !in q.notEmpty.asleep && q == p.(notEmpty := q.notEmpty))
      && (step.SpuriousSubmitter? ==>
            && step.tid in q.notFull.signalled && step.tid !in q.notFull.asleep && q == p.(notFull := q.notFull)
            && q.notFull.signalled[step.tid] == p.notFull.asleep[step.tid])
  {
  }

  /** A worker goes on while the pool runs, or is gone for good; each step moves only its own worker. */
  lemma WorkersTurn(p: Pool, step: Step)
    requires Enabled(p, step)
    ensures var q := Next(p, step);
      && (step.Test? ==> At(q, step.tid, if p.running then Getting else Exited))
      && (step.Finish? ==> At(q, step.tid, Testing))
      && q.workers.Keys == p.workers.Keys
      && (forall t <- p.workers :: (q.workers[t] == p.workers[t]
            || (!step.Stop? && t == step.tid && (step.Test? || step.Finish? || step.GetTask? || step.ResumeGetTask?))))
      && (forall t <- p.workers :: p.workers[t].Exited? ==> q.workers[t].Exited?)
  {
  }

  lemma {:induction false} StaysStopped(p: Pool, steps: seq<Step>)
    requires IsRun(p, steps) && !p.running
    ensures !After(p, steps).running && After(p, steps).submitted == p.submitted
    decreases |steps|
  {
    if steps != [] {
      StaysStopped(Next(p, steps[0]), steps[1..]);
    }
  }

  /** After `stop`, no worker or submitter is asleep or goes back to sleep, and nothing is queued. */
  lemma StopWakesForGood(bound: nat, workers: set<Tid>, before: seq<Step>, later: seq<Step>)
    requires IsRun(Started(bound, workers), before)
    requires var p := After(Started(bound, workers), before); IsRun(Next(p, Stop), later)
    ensures var p := After(Started(bound, workers), before); var q := After(Next(p, Stop), later);
      && q.notEmpty.NobodyAsleep() && q.notFull.NobodyAsleep()
      && q.submitted == p.submitted
  {
    var p := After(Started(bound, workers), before);
    RunsKeepInv(Started(bound, workers), before);
    StepKeepsInv(p, Stop);
    RunsKeepInv(Next(p, Stop), later);
    StaysStopped(Next(p, Stop), later);
  }

  // What `stop` does with the tasks that are still queued.

  /** The workers that passed the test of `_running` and have not been given anything since. */
  function GettingNow(p: Pool): set<Tid> {
    set t <- p.workers | p.workers[t].Getting?
  }

  function Min(a: int, b: int): int {
    if a < b then a else b
  }

  /** From `p` to `q` exactly the first tasks were handed out, one to each worker that was past the test. */
  ghost predicate HandedOn(p: Pool, q: Pool) {
    && GettingNow(q) <= GettingNow(p)
    && |GettingNow(q)| <= |GettingNow(p)|
    && var k := Min(|p.taskQueue|, |GettingNow(p)| - |GettingNow(q)|);
      q.handedOut == p.handedOut + p.taskQueue[..k] && q.taskQueue == p.taskQueue[k..]
  }

  lemma WorkerGot(p: Pool, tid: Tid)
    requires At(p, tid, Getting)
    ensures var q := p.(workers := p.workers[tid := Working]);
      GettingNow(q) == GettingNow(p) - {tid} && |GettingNow(q)| == |GettingNow(p)| - 1
  {
    var q := p.(workers := p.workers[tid := Working]);
    assert tid in GettingNow(p);
    assert GettingNow(q) == GettingNow(p) - {tid};
  }

  /** A stopped pool gives the oldest task to a worker that asks, and nobody starts to ask. */
  lemma StoppedStep(p: Pool, step: Step)
    requires Enabled(p, step) && !p.running
    ensures var q := Next(p, step);
      if step.GetTask? || step.ResumeGetTask? then
        && GettingNow(q) == GettingNow(p) - {step.tid} && |GettingNow(q)| == |GettingNow(p)| - 1
        && (p.taskQueue == [] ==> q.taskQueue == [] && q.handedOut == p.handedOut)
        && (p.taskQueue != [] ==>
              q.taskQueue == p.taskQueue[1..] && q.handedOut == p.handedOut + [p.taskQueue[0]])
      else q.taskQueue == p.taskQueue && q.handedOut == p.handedOut && GettingNow(q) == GettingNow(p)
  {
    if step.GetTask? || step.ResumeGetTask? {
      WorkerGot(p, step.tid);
    }
  }

  lemma HandOn(p: Pool, q: Pool, step: Step)
    requires HandedOn(p, q) && Enabled(q, step) && !q.running
    ensures HandedOn(p, Next(q, step))
  {
    StoppedStep(q, step);
    hide Next, Enabled, GettingNow;
    var k := Min(|p.taskQueue|, |GettingNow(p)| - |GettingNow(q)|);
    if (step.GetTask? || step.ResumeGetTask?) && q.taskQueue != [] {
      assert p.taskQueue[..k + 1] == p.taskQueue[..k] + [p.taskQueue[k]];
      ConcatAssociative(p.handedOut, p.taskQueue[..k], [p.taskQueue[k]]);
    }
  }

  lemma {:induction false} StoppedRun(p: Pool, q: Pool, steps: seq<Step>)
    requires HandedOn(p, q) && IsRun(q, steps) && !q.running
    ensures HandedOn(p, After(q, steps))
    decreases |steps|
  {
    hide HandedOn, Enabled;
    if steps != [] {
      HandOn(p, q, steps[0]);
      StoppedRun(p, Next(q, steps[0]), steps[1..]);
    }
  }

  /**
   Over every run after `stop`, the tasks still handed out are the oldest ones, one for each
   worker that was past the test of `_running` when it stopped and has got its answer since.
   */
  lemma StopHandsOutExactly(bound: nat, workers: set<Tid>, before: seq<Step>, later: seq<Step>)
    requires IsRun(Started(bound, workers), before)
    requires IsRun(Next(After(Started(bound, workers), before), Stop), later)
    ensures var p := After(Started(bound, workers), before); var q := After(Next(p, Stop), later);
      var k := Min(|p.taskQueue|, |GettingNow(p)| - |GettingNow(q)|);
      0 <= k && q.handedOut == p.handedOut + p.taskQueue[..k] && q.taskQueue == p.taskQueue[k..]
  {
    hide Next, GettingNow;
    var p := After(Started(bound, workers), before);
    NothingHandedOnYet(p);
    StoppedRun(p, Next(p, Stop), later);
  }

  lemma NothingHandedOnYet(p: Pool)
    ensures HandedOn(p, Next(p, Stop)) && !Next(p, Stop).running
    ensures HandedOn(p, p)
  {
    assert GettingNow(Next(p, Stop)) == GettingNow(p);
    assert p.handedOut + p.taskQueue[..0] == p.handedOut && p.taskQueue[0..] == p.taskQueue;
  }

  predicate AllGone(p: Pool) {
    forall t <- p.workers :: p.workers[t].Exited?
  }

  lemma NobodyGetting(p: Pool)
    requires AllGone(p)
    ensures GettingNow(p) == {}
  {
  }

  lemma HandedToAll(p: Pool, q: Pool)
    requires HandedOn(p, q) && GettingNow(q) == {}
    ensures q.taskQueue == [] <==> |p.taskQueue| <= |GettingNow(p)|
  {
    hide GettingNow;
  }

  lemma NothingMore(q: Pool, more: seq<Step>)
    requires IsRun(q, more) && !q.running && GettingNow(q) == {}
    ensures After(q, more).handedOut == q.handedOut && After(q, more).taskQueue == q.taskQueue
  {
    NothingHandedOnYet(q);
    StoppedRun(q, q, more);
    hide Next, Enabled, IsRun, GettingNow;
    var r := After(q, more);
    assert |GettingNow(r)| == 0;
    assert q.handedOut + q.taskQueue[..0] == q.handedOut && q.taskQueue[0..] == q.taskQueue;
  }

  /**
   Once all workers are gone, every task has been handed out if and only if, when the pool
   stopped, no more tasks were queued than workers were past the test; the others never are.
   */
  lemma AllHandedOutIff(bound: nat, workers: set<Tid>, before: seq<Step>, later: seq<Step>, more: seq<Step>)
    requires IsRun(Started(bound, workers), before)
    requires IsRun(Next(After(Started(bound, workers), before), Stop), later)
    requires AllGone(After(Next(After(Started(bound, workers), before), Stop), later))
    requires IsRun(After(Next(After(Started(bound, workers), before), Stop), later), more)
    ensures var p := After(Started(bound, workers), before); var q := After(Next(p, Stop), later);
      && (q.taskQueue == [] <==> |p.taskQueue| <= |GettingNow(p)|)
      && After(q, more).handedOut == q.handedOut
  {
    hide Next, GettingNow, AllGone, HandedOn, IsRun, After, Started;
    var p := After(Started(bound, workers), before);
    var q := After(Next(p, Stop), later);
    NothingHandedOnYet(p);
    StoppedRun(p, Next(p, Stop), later);
    NobodyGetting(q);
    HandedToAll(p, q);
    StaysStopped(Next(p, Stop), later);
    NothingMore(q, more);
  }

  /** A run in which a task is never handed out: the only worker sees the stop before it asks. */
  lemma StopCanStrandTask(task: Task, more: seq<Step>)
    requires IsRun(Stranded(task), more)
    ensures IsRun(Started(0, {1}), [Submit(2, task, None), Stop, Test(1)])
    ensures After(Started(0, {1}), [Submit(2, task, None), Stop, Test(1)]) == Stranded(task)
    ensures After(Stranded(task), more).taskQueue == [task] && After(Stranded(task), more).handedOut == []
  {
    StrandedReached(task);
    assert GettingNow(Stranded(task)) == {};
    NothingMore(Stranded(task), more);
  }

  lemma StrandedReached(task: Task)
    ensures var steps := [Submit(2, task, None), Stop, Test(1)];
      IsRun(Started(0, {1}), steps) && After(Started(0, {1}), steps) == Stranded(task)
  {
    var s0 := Started(0, {1});
    var s1 := Next(s0, Submit(2, task, None));
    var s2 := Next(s1, Stop);
    var s3 := Next(s2, Test(1));
    assert s0.taskQueue + [task] == [task];
    assert [Submit(2, task, None), Stop, Test(1)][1..] == [Stop, Test(1)];
    assert [Stop, Test(1)][1..] == [Test(1)] && [Test(1)][1..] == [];
    assert s3.workers == map[1 := Exited];
    assert s3.notEmpty.signalled == map[] && s3.notFull.signalled == map[];
  }

  function Stranded(task: Task): Pool {
    Pool(0, false, [task], NoWaiters(), NoWaiters(), map[1 := Exited], [task], [], [])
  }

  /** The pool; each method is one critical section. */
  class ThreadPool {
    const maxQueueSize: nat
    var running: bool
    var taskQueue: seq<Task>
    var notFull: Condition<Task>
    var notEmpty: Condition<()>
    ghost var workers: map<Tid, Pc>
    ghost var submitted: seq<Task>
    ghost var handedOut: seq<Task>
    ghost var refused: seq<Task>

    ghost function P(): Pool
      reads this
    {
      Pool(maxQueueSize, running, taskQueue, notFull, notEmpty, workers, submitted, handedOut, refused)
    }

    constructor (maxQueueSize: nat, ghost workers: set<Tid>)
      ensures P() == Started(maxQueueSize, workers)
    {
      this.maxQueueSize := maxQueueSize;
      running, taskQueue := true, [];
      notFull, notEmpty := NoWaiters(), NoWaiters();
      this.workers := map t | t in workers :: Testing;
      submitted, handedOut, refused := [], [], [];
    }

    predicate IsFull()
      reads this
      ensures IsFull() <==> P().IsFull()
    {
      maxQueueSize > 0 && |taskQueue| >= maxQueueSize
    }

    /** One pass of `run`: false if the submitter goes to sleep. */
    method RunPass(tid: Tid, task: Task, woken: Option<Tid>) returns (done: bool)
      requires MaySubmit(P(), woken)
      modifies this
      ensures P() == RunSection(old(P()), tid, task, woken)
      ensures done <==> !(old(P()).IsFull() && old(running))
    {
      if IsFull() && running {
        notFull := notFull.Wait(tid, task);
        return false;
      }
      if !running {
        refused := refused + [task];
        return true;
      }
      taskQueue, submitted := taskQueue + [task], submitted + [task];
      notEmpty := notEmpty.Notify(woken);
      return true;
    }

    /** One pass of `get_next_task`; a stopped pool hands out the empty task. */
    method GetNextTaskPass(tid: Tid, woken: Option<Tid>) returns (done: bool, task: Option<Task>)
      requires MayGet(P(), woken)
      modifies this
      ensures P() == GetSection(old(P()), tid, woken)
      ensures done <==> !(old(taskQueue) == [] && old(running))
      ensures task == if old(taskQueue) == [] then None else Some(old(taskQueue)[0])
    {
      if taskQueue == [] && running {
        notEmpty := notEmpty.Wait(tid, ());
        return false, None;
      }
      task := None;
      workers := workers[tid := Working];
      if taskQueue != [] {
        task := Some(taskQueue[0]);
        handedOut := handedOut + [taskQueue[0]];
        taskQueue := taskQueue[1..];
        if maxQueueSize > 0 {
          notFull := notFull.Notify(woken);
        }
      }
      done := true;
    }

    method ResumeRunPass(tid: Tid, woken: Option<Tid>) returns (done: bool)
      requires Enabled(P(), ResumeSubmit(tid, woken))
      modifies this
      ensures P() == Next(old(P()), ResumeSubmit(tid, woken))
    {
      var task := notFull.signalled[tid];
      notFull := notFull.Leave(tid);
      done := RunPass(tid, task, woken);
    }

    method ResumeGetNextTaskPass(tid: Tid, woken: Option<Tid>) returns (done: bool, task: Option<Task>)
      requires Enabled(P(), ResumeGetTask(tid, woken))
      modifies this
      ensures P() == Next(old(P()), ResumeGetTask(tid, woken))
    {
      notEmpty := notEmpty.Leave(tid);
      done, task := GetNextTaskPass(tid, woken);
    }

    /** The critical section of `stop`; joining the workers is not modelled. */
    method StopAll()
      modifies this
      ensures P() == Next(old(P()), Stop)
    {
      running := false;
      notEmpty := notEmpty.NotifyAll();
      notFull := notFull.NotifyAll();
    }
  }
}
