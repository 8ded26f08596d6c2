/** The worker pool of src/TaskThreadPool.cc as interleaved atomic steps: every critical section
    under `mutex_`, every notification issued after the lock is released, and every wakeup. */
module TaskPool {
  import opened Options

  datatype Status = NotStart | Running | Stopping | Stopped
  datatype SubmitResult = Accepted | NotRunning | QueueFull | EmptyTask

  /** A submitted functor; the ticket tells apart two submissions of the same body. */
  datatype Task = Task(ticket: nat, body: nat)

  /** A worker is about to lock and test the wait condition, blocked in `wait`, running a task, or gone. */
  datatype Worker = Awake | Asleep | Busy(task: Task) | Exited

  datatype Pool = Pool(
    status: Status,
    threadCnt: nat,
    maxQueue: Option<nat>,
    queue: seq<Task>,
    workers: seq<Worker>,
    owedOne: nat,            // submitters between unlock and notify_one
    owedAll: bool,           // the stopper between unlock and notify_all
    accepted: seq<Task>,     // history
    dequeued: seq<Task>,
    finished: seq<Task>)

  datatype Event =
    | Start
    | SetMax(limit: nat)
    | Submit(empty: bool, body: nat)
    | NotifyOne(sleeper: Option<nat>)
    | Stop
    | NotifyAll
    | Check(worker: nat)
    | Finish(worker: nat)
    | Spurious(worker: nat)
    | JoinAll

  predicate Init(s: Pool) {
    && s.status == NotStart && s.threadCnt > 0 && s.maxQueue == None
    && s.queue == [] && s.workers == [] && s.owedOne == 0 && !s.owedAll
    && s.accepted == [] && s.dequeued == [] && s.finished == []
  }

  predicate Is(s: Pool, i: nat, w: Worker) {
    i < |s.workers| && s.workers[i] == w
  }

  function SubmitOutcome(s: Pool, empty: bool): SubmitResult {
    if empty then EmptyTask
    else if s.status != Running then NotRunning
    else if s.maxQueue.Some? && |s.queue| >= s.maxQueue.value then QueueFull
    else Accepted
  }

  predicate Enabled(s: Pool, e: Event) {
    match e
    case Start => true
    case SetMax(limit) => limit > 0
    case Submit(_, _) => true
    case NotifyOne(sleeper) =>
      s.owedOne > 0 &&
      (if sleeper.Some? then Is(s, sleeper.value, Asleep) else Asleep !in s.workers)
    case Stop => true
    case NotifyAll => s.owedAll
    case Check(i) => Is(s, i, Awake)
    case Finish(i) => i < |s.workers| && s.workers[i].Busy?
    case Spurious(i) => Is(s, i, Asleep)
    case JoinAll => s.status == Stopping && !s.owedAll && forall w | w in s.workers :: w == Exited
  }

  function WakeAll(ws: seq<Worker>): (r: seq<Worker>)
    ensures |r| == |ws|
    ensures forall i | 0 <= i < |ws| :: r[i] == if ws[i] == Asleep then Awake else ws[i]
  {
    if ws == [] then [] else [if ws[0] == Asleep then Awake else ws[0]] + WakeAll(ws[1..])
  }

  /** One pass of `run` under the lock: the wait condition, then exit or dequeue. */
  function CheckStep(s: Pool, i: nat): Pool
    requires i < |s.workers|
  {
    if s.queue == [] && s.status == Running then
      s.(workers := s.workers[i := Asleep])
    else if s.queue == [] then
      s.(workers := s.workers[i := Exited])
    else
      s.(workers := s.workers[i := Busy(s.queue[0])],
         queue := s.queue[1..],
         dequeued := s.dequeued + [s.queue[0]])
  }

  /** The task returned or threw; `run` catches both. */
  function FinishStep(s: Pool, i: nat): Pool
    requires i < |s.workers| && s.workers[i].Busy?
  {
    s.(workers := s.workers[i := Awake], finished := s.finished + [s.workers[i].task])
  }

  function SubmitStep(s: Pool, empty: bool, body: nat): Pool {
    if SubmitOutcome(s, empty) != Accepted then s
    else
      var task := Task(|s.accepted|, body);
      s.(queue := s.queue + [task], accepted := s.accepted + [task], owedOne := s.owedOne + 1)
  }

  function Next(s: Pool, e: Event): Pool
    requires Enabled(s, e)
  {
    match e
    case Start =>
      if s.status != NotStart then s
      else s.(status := Running, workers := seq(s.threadCnt, _ => Awake))
    case SetMax(limit) =>
      if s.status != NotStart then s else s.(maxQueue := Some(limit))
    case Submit(empty, body) => SubmitStep(s, empty, body)
    case NotifyOne(sleeper) =>
      s.(owedOne := s.owedOne - 1,
         workers := if sleeper.Some? then s.workers[sleeper.value := Awake] else s.workers)
    case Stop =>
      if s.status != Running then s else s.(status := Stopping, owedAll := true)
    case NotifyAll => s.(owedAll := false, workers := WakeAll(s.workers))
    case Check(i) => CheckStep(s, i)
    case Finish(i) => FinishStep(s, i)
    case Spurious(i) => s.(workers := s.workers[i := Awake])
    case JoinAll => s.(status := Stopped)
  }

  ghost predicate Step(s: Pool, s': Pool) {
    exists e :: Enabled(s, e) && s' == Next(s, e)
  }

  ghost predicate StepAt(run: seq<Pool>, i: nat)
    requires i + 1 < |run|
  {
    Step(run[i], run[i + 1])
  }

  ghost predicate IsRun(run: seq<Pool>) {
    && run != [] && Init(run[0])
    && forall i: nat | i + 1 < |run| :: StepAt(run, i)
  }

  // ------------------------------------------------------- sums over workers

  function Total(ws: seq<Worker>, f: Worker -> nat): nat {
    if ws == [] then 0 else f(ws[0]) + Total(ws[1..], f)
  }

  function AwakeUnit(w: Worker): nat { if w.Awake? then 1 else 0 }

  /** How many more scheduling steps a worker can take once the pool is stopping. */
  function Weight(w: Worker): nat {
    match w
    case Exited => 0
    case Awake => 1
    case Asleep => 2
    case Busy(_) => 2
  }

  function Holds(task: Task): Worker -> nat {
    w => if w == Busy(task) then 1 else 0
  }

  /** How many workers are running `task`. */
  function Held(ws: seq<Worker>, task: Task): nat {
    Total(ws, Holds(task))
  }

  lemma {:induction false} TotalUpdate(ws: seq<Worker>, i: nat, w: Worker, f: Worker -> nat)
    requires i < |ws|
    ensures Total(ws[i := w], f) + f(ws[i]) == Total(ws, f) + f(w)
  {
    if i > 0 {
      TotalUpdate(ws[1..], i - 1, w, f);
      assert ws[i := w][1..] == ws[1..][i - 1 := w];
    } else {
      assert ws[i := w][1..] == ws[1..];
    }
  }

  lemma {:induction false} WakeAllWeight(ws: seq<Worker>)
    ensures Total(WakeAll(ws), Weight) <= Total(ws, Weight)
  {
    if ws != [] {
      WakeAllWeight(ws[1..]);
      assert WakeAll(ws)[1..] == WakeAll(ws[1..]);
    }
  }

  lemma {:induction false} WakeAllHeld(ws: seq<Worker>, task: Task)
    ensures Held(WakeAll(ws), task) == Held(ws, task)
  {
    if ws != [] {
      WakeAllHeld(ws[1..], task);
      assert WakeAll(ws)[1..] == WakeAll(ws[1..]);
    }
  }

  lemma {:induction false} NoneHeld(ws: seq<Worker>, task: Task)
    requires forall i | 0 <= i < |ws| :: !ws[i].Busy?
    ensures Held(ws, task) == 0
  {
    if ws != [] {
      NoneHeld(ws[1..], task);
    }
  }

  // ------------------------------------------------------------- invariants

  /** Accepted tasks leave in acceptance order and are queued, running or finished, each once. */
  ghost predicate Conserved(s: Pool) {
    && s.dequeued + s.queue == s.accepted
    && (forall i | 0 <= i < |s.accepted| :: s.accepted[i].ticket == i)
    && (forall task :: OnePlace(s, task))
  }

  /** A dequeued task is running or finished. */
  ghost predicate OnePlace(s: Pool, task: Task) {
    multiset(s.finished)[task] + Held(s.workers, task) == multiset(s.dequeued)[task]
  }

  ghost predicate Bounded(s: Pool) {
    && (s.maxQueue.Some? ==> s.maxQueue.value > 0 && |s.queue| <= s.maxQueue.value)
    && s.threadCnt > 0
    && (s.status == NotStart ==> s.workers == [] && s.queue == [] && s.owedOne == 0)
    && (s.status != NotStart ==> |s.workers| == s.threadCnt)
    && (s.owedAll ==> s.status == Stopping)
  }

  /** Once a worker has left, nothing is queued and nothing can be queued again. */
  ghost predicate Drained(s: Pool) {
    && (Exited in s.workers ==> s.queue == [] && s.status != Running)
    && (s.status == Stopped ==> forall w | w in s.workers :: w == Exited)
  }

  /** A worker sleeps only while the awake workers and the notifications under way cover the queue. */
  ghost predicate NoLostWakeup(s: Pool) {
    && (Asleep in s.workers ==> |s.queue| <= Total(s.workers, AwakeUnit) + s.owedOne)
    && (Asleep in s.workers && s.status != Running ==> s.owedAll)
  }

  ghost predicate Inv(s: Pool) {
    Conserved(s) && Bounded(s) && Drained(s) && NoLostWakeup(s)
  }

  lemma InitInv(s: Pool)
    requires Init(s)
    ensures Inv(s)
  {}

  lemma OnePlaceStep(s: Pool, e: Event, task: Task)
    requires Bounded(s) && OnePlace(s, task) && Enabled(s, e)
    ensures OnePlace(Next(s, e), task)
  {
    var s' := Next(s, e);
    match e
    case Start =>
      if s.status == NotStart {
        NoneHeld(s'.workers, task);
      }
    case NotifyOne(sleeper) =>
      if sleeper.Some? {
        TotalUpdate(s.workers, sleeper.value, Awake, Holds(task));
      }
    case NotifyAll => WakeAllHeld(s.workers, task);
    case Check(i) => CheckOnePlace(s, i, task);
    case Finish(i) => FinishOnePlace(s, i, task);
    case Spurious(i) => TotalUpdate(s.workers, i, Awake, Holds(task));
    case _ =>
  }

  lemma CheckOnePlace(s: Pool, i: nat, task: Task)
    requires OnePlace(s, task) && Is(s, i, Awake)
    ensures OnePlace(CheckStep(s, i), task)
  {
    TotalUpdate(s.workers, i, CheckStep(s, i).workers[i], Holds(task));
  }

  lemma FinishOnePlace(s: Pool, i: nat, task: Task)
    requires OnePlace(s, task) && Enabled(s, Finish(i))
    ensures OnePlace(FinishStep(s, i), task)
  {
    TotalUpdate(s.workers, i, Awake, Holds(task));
  }

  lemma OrderStep(s: Pool, e: Event)
    requires Conserved(s) && Enabled(s, e)
    ensures var s' := Next(s, e);
            s'.dequeued + s'.queue == s'.accepted && forall i | 0 <= i < |s'.accepted| :: s'.accepted[i].ticket == i
  {
    var s' := Next(s, e);
    match e
    case Submit(_, _) =>
      assert s'.accepted != s.accepted ==> s'.dequeued + s'.queue == s.dequeued + s.queue + [s'.queue[|s.queue|]];
    case Check(_) =>
      assert s'.dequeued + s'.queue == s.dequeued + s.queue;
    case _ =>
  }

  lemma ConservedStep(s: Pool, e: Event)
    requires Inv(s) && Enabled(s, e)
    ensures Conserved(Next(s, e))
  {
    OrderStep(s, e);
    forall task {
      OnePlaceStep(s, e, task);
    }
  }

  lemma OthersStep(s: Pool, e: Event)
    requires Inv(s) && Enabled(s, e)
    ensures Bounded(Next(s, e)) && Drained(Next(s, e))
  {
    var s' := Next(s, e);
    if s.status == Stopped {
      assert forall i | 0 <= i < |s.workers| :: s.workers[i] in s.workers;
      assert s'.workers == s.workers;
    } else if Exited in s'.workers && !e.Check? {
      assert Exited in s.workers;
    }
  }

  lemma WakeupStep(s: Pool, e: Event)
    requires Inv(s) && Enabled(s, e)
    ensures NoLostWakeup(Next(s, e))
  {
    var s' := Next(s, e);
    match e
    case NotifyOne(sleeper) =>
      if sleeper.Some? {
        TotalUpdate(s.workers, sleeper.value, Awake, AwakeUnit);
      }
    case Check(i) =>
      TotalUpdate(s.workers, i, s'.workers[i], AwakeUnit);
      if Asleep in s'.workers && s.queue != [] {
        assert Asleep in s.workers;
      }
    case Finish(i) => TotalUpdate(s.workers, i, Awake, AwakeUnit);
    case Spurious(i) => TotalUpdate(s.workers, i, Awake, AwakeUnit);
    case _ =>
  }

  lemma StepInv(s: Pool, s': Pool)
    requires Inv(s) && Step(s, s')
    ensures Inv(s')
  {
    var e :| Enabled(s, e) && s' == Next(s, e);
    ConservedStep(s, e);
    OthersStep(s, e);
    WakeupStep(s, e);
  }

  /** Every state of every interleaving of submitters, workers and stoppers satisfies the invariant. */
  lemma {:induction false} RunInv(run: seq<Pool>, i: nat)
    requires IsRun(run) && i < |run|
    ensures Inv(run[i])
  {
    if i == 0 {
      InitInv(run[0]);
    } else {
      RunInv(run, i - 1);
      assert StepAt(run, i - 1);
      StepInv(run[i - 1], run[i]);
    }
  }

  // ------------------------------------------------------------ main results

  /** Tasks are dequeued in acceptance order; each accepted task is in exactly one place. */
  lemma FifoExactlyOnce(run: seq<Pool>, i: nat)
    requires IsRun(run) && i < |run|
    ensures var s := run[i];
            && s.dequeued <= s.accepted && s.queue == s.accepted[|s.dequeued|..]
            && (forall task :: multiset(s.finished)[task] + Held(s.workers, task) + multiset(s.queue)[task]
                               == multiset(s.accepted)[task])
            && (forall j, k | 0 <= j < k < |s.accepted| :: s.accepted[j] != s.accepted[k])
            && (s.maxQueue.Some? ==> |s.queue| <= s.maxQueue.value)
  {
    RunInv(run, i);
    var s := run[i];
    assert multiset(s.dequeued + s.queue) == multiset(s.dequeued) + multiset(s.queue);
    forall task
      ensures multiset(s.finished)[task] + Held(s.workers, task) + multiset(s.queue)[task] == multiset(s.accepted)[task]
    {
      assert OnePlace(s, task);
    }
  }

  /** In every run a task is refused for a full queue only while the queue holds exactly as many tasks as its limit
      allows, so a pool with room takes every task, from its start to `stop()`. */
  lemma FullMeansFull(run: seq<Pool>, i: nat, empty: bool)
    requires IsRun(run) && i < |run|
    ensures var s := run[i];
            && (SubmitOutcome(s, empty) == QueueFull ==> s.maxQueue.Some? && |s.queue| == s.maxQueue.value)
            && (!empty && s.status == Running && (s.maxQueue.Some? ==> |s.queue| < s.maxQueue.value) ==>
                  SubmitOutcome(s, empty) == Accepted)
            && (SubmitOutcome(s, empty) == NotRunning ==> s.status != Running)
            && (SubmitOutcome(s, empty) == EmptyTask <==> empty)
  {
    RunInv(run, i);
  }

  /** Status STOPPED means every accepted task has finished, exactly once. */
  lemma StoppedMeansFinished(s: Pool)
    requires Inv(s) && s.status == Stopped
    ensures s.queue == [] && multiset(s.finished) == multiset(s.accepted)
    ensures |s.finished| == |s.accepted|
  {
    assert forall i | 0 <= i < |s.workers| :: s.workers[i] in s.workers;
    assert s.workers[0] == Exited;
    assert s.dequeued == s.accepted;
    forall task
      ensures multiset(s.finished)[task] == multiset(s.accepted)[task]
    {
      assert OnePlace(s, task);
      NoneHeld(s.workers, task);
    }
    assert multiset(s.finished) == multiset(s.accepted);
    assert |multiset(s.finished)| == |multiset(s.accepted)|;
  }

  /** Once any worker has left, the queue is empty and no later step changes it or what was accepted. */
  lemma {:induction false} EmptyForever(run: seq<Pool>, i: nat, j: nat)
    requires IsRun(run) && i <= j < |run| && Exited in run[i].workers
    ensures Exited in run[j].workers && run[j].queue == [] && run[j].accepted == run[i].accepted
    decreases j
  {
    RunInv(run, j);
    if i < j {
      EmptyForever(run, i, j - 1);
      RunInv(run, j - 1);
      assert StepAt(run, j - 1);
      ExitedStays(run[j - 1], run[j]);
    }
  }

  lemma ExitedStays(s: Pool, s': Pool)
    requires Inv(s) && Step(s, s') && Exited in s.workers
    ensures Exited in s'.workers && s'.accepted == s.accepted && s'.queue == []
  {
    var e :| Enabled(s, e) && s' == Next(s, e);
    var k :| 0 <= k < |s.workers| && s.workers[k] == Exited;
    assert s'.workers[k] == Exited;
  }

  /** Queued work is attended by a live worker or a notification under way; and while some worker sleeps, not by busy
      workers alone: the awake workers and the notifications cover the queue. */
  ghost predicate Attended(s: Pool) {
    && (s.queue != [] ==>
          s.owedOne > 0 || exists i :: 0 <= i < |s.workers| && (s.workers[i].Awake? || s.workers[i].Busy?))
    && (s.queue != [] && Asleep in s.workers ==>
          s.owedOne > 0 || exists i :: 0 <= i < |s.workers| && s.workers[i].Awake?)
    && (Asleep in s.workers ==> |s.queue| <= Total(s.workers, AwakeUnit) + s.owedOne)
    && (s.status != Running && Asleep in s.workers ==> s.owedAll)
  }

  /** No wakeup is lost, although notifications follow the unlock; and after `stop()` a worker sleeps only while the
      `notify_all` is still to come. */
  lemma QueueIsAttended(run: seq<Pool>, k: nat)
    requires IsRun(run) && k < |run|
    ensures Attended(run[k])
  {
    RunInv(run, k);
    var s := run[k];
    if s.queue != [] && s.owedOne == 0 && forall i | 0 <= i < |s.workers| :: !s.workers[i].Awake? {
      NoneAwake(s.workers);
      assert s.workers[0] in s.workers && s.workers[0] != Exited;
    }
  }

  lemma {:induction false} NoneAwake(ws: seq<Worker>)
    requires forall i | 0 <= i < |ws| :: !ws[i].Awake?
    ensures Total(ws, AwakeUnit) == 0
  {
    if ws != [] {
      NoneAwake(ws[1..]);
    }
  }

  // ------------------------------------------------------ the drain terminates

  /** A bound on the steps left between `stop()` and STOPPED. */
  function Remaining(s: Pool): nat {
    2 * |s.queue| + Total(s.workers, Weight) + s.owedOne
    + (if s.owedAll then 1 else 0) + (if s.status == Stopping then 1 else 0)
  }

  /** After `stop()` every step that changes anything brings STOPPED closer. */
  lemma DrainDecreases(s: Pool, e: Event)
    requires Inv(s) && Enabled(s, e) && (s.status == Stopping || s.status == Stopped)
    ensures Next(s, e) == s || Remaining(Next(s, e)) < Remaining(s)
  {
    var s' := Next(s, e);
    match e
    case NotifyOne(sleeper) =>
      if sleeper.Some? {
        TotalUpdate(s.workers, sleeper.value, Awake, Weight);
      }
    case NotifyAll => WakeAllWeight(s.workers);
    case Check(i) => TotalUpdate(s.workers, i, s'.workers[i], Weight);
    case Finish(i) => TotalUpdate(s.workers, i, Awake, Weight);
    case Spurious(i) => TotalUpdate(s.workers, i, Awake, Weight);
    case _ =>
  }

  /** While stopping, the pool is never stuck: the stopper or some worker can act. */
  lemma DrainNeverStuck(s: Pool)
    requires Inv(s) && s.status == Stopping
    ensures exists e :: Enabled(s, e) && Next(s, e) != s && (e.NotifyAll? || e.Check? || e.Finish? || e.JoinAll?)
  {
    if s.owedAll {
      assert Enabled(s, NotifyAll) && Next(s, NotifyAll) != s;
    } else if forall w | w in s.workers :: w == Exited {
      assert Enabled(s, JoinAll) && Next(s, JoinAll) != s;
    } else {
      var w :| w in s.workers && w != Exited;
      var i :| 0 <= i < |s.workers| && s.workers[i] == w;
      if w.Busy? {
        assert Enabled(s, Finish(i)) && Next(s, Finish(i)).workers[i] != s.workers[i];
      } else {
        assert Enabled(s, Check(i)) && Next(s, Check(i)).workers[i] != s.workers[i];
      }
    }
  }

  // ------------------------------------------------ what a returned stop() means

  /** What `stop()` promises on return: every accepted task has run and every worker has left. */
  ghost predicate Settled(s: Pool) {
    multiset(s.finished) == multiset(s.accepted) && forall w | w in s.workers :: w == Exited
  }

  lemma {:induction false} BusyHolds(ws: seq<Worker>, i: nat)
    requires i < |ws| && ws[i].Busy?
    ensures Held(ws, ws[i].task) > 0
  {
    if i > 0 {
      BusyHolds(ws[1..], i - 1);
    }
  }

  /** Once the pool does not accept tasks, all accepted ones have run exactly when none is queued or running. Only
      while STOPPING can that be otherwise: in every other status but RUNNING the pool is settled. */
  lemma EarlyReturnDrainedIff(s: Pool)
    requires Inv(s) && s.status != Running
    ensures multiset(s.finished) == multiset(s.accepted)
            <==> s.queue == [] && forall i | 0 <= i < |s.workers| :: !s.workers[i].Busy?
    ensures s.status != Stopping ==> Settled(s)
    ensures Settled(s) <==> forall w | w in s.workers :: w == Exited
  {
    if s.queue != [] {
      SomethingLeft(s, s.queue[0]);
    } else if i :| 0 <= i < |s.workers| && s.workers[i].Busy? {
      BusyHolds(s.workers, i);
      SomethingLeft(s, s.workers[i].task);
    } else {
      NothingLeft(s);
    }
    if forall w | w in s.workers :: w == Exited {
      assert forall i | 0 <= i < |s.workers| :: s.workers[i] in s.workers;
      assert s.status != NotStart ==> s.workers[0] == Exited;
    }
  }

  lemma NothingLeft(s: Pool)
    requires Conserved(s) && s.queue == [] && forall i | 0 <= i < |s.workers| :: !s.workers[i].Busy?
    ensures multiset(s.finished) == multiset(s.accepted)
  {
    assert s.dequeued == s.accepted;
    forall task
      ensures multiset(s.finished)[task] == multiset(s.accepted)[task]
    {
      assert OnePlace(s, task);
      NoneHeld(s.workers, task);
    }
  }

  lemma SomethingLeft(s: Pool, task: Task)
    requires Conserved(s) && (task in s.queue || Held(s.workers, task) > 0)
    ensures multiset(s.finished)[task] < multiset(s.accepted)[task]
  {
    assert multiset(s.dequeued + s.queue) == multiset(s.dequeued) + multiset(s.queue);
    assert OnePlace(s, task);
  }

  /** A call of `stop()` that reads the status in `run[i]` returns in `run[j]`: at once unless it found RUNNING, and
      otherwise after its joins. */
  predicate StopReturns(run: seq<Pool>, i: nat, j: nat)
    requires i <= j < |run|
  {
    if run[i].status == Running then run[j].status == Stopped else j == i
  }

  /** A call of `stop()` keeps its promise if and only if it did not find STOPPING, or found no worker left. */
  lemma StopSettlesIff(run: seq<Pool>, i: nat, j: nat)
    requires IsRun(run) && i <= j < |run| && StopReturns(run, i, j)
    ensures Settled(run[j]) <==> (run[i].status == Stopping ==> forall w | w in run[i].workers :: w == Exited)
  {
    RunInv(run, j);
    EarlyReturnDrainedIff(run[j]);
  }

  /** A second `stop()` returns at once, also while tasks are still queued and running. */
  lemma SecondStopDoesNotWait() returns (run: seq<Pool>)
    ensures IsRun(run)
    ensures var s := run[|run| - 1];
            s.status == Stopping && s.queue != [] && Next(s, Stop) == s
  {
    var s0 := Pool(NotStart, 1, None, [], [], 0, false, [], [], []);
    var s1 := Next(s0, Start);
    var s2 := Next(s1, Submit(false, 7));
    var s3 := Next(s2, Stop);
    run := [s0, s1, s2, s3];
    assert Step(s0, s1) && Step(s1, s2) && Step(s2, s3);
  }
}
