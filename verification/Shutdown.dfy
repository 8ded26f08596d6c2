/** Graceful shutdown of src/RpcServer.cc: the join of "TCP stopped" and "pool stopped", composed
    with the worker pool and the helper thread that stops it. */
module Shutdown {
  import opened TaskPool

  datatype ServerStatus = NotStarted | ServerRunning | ServerStopping | ServerStopped

  /** The fields of `RpcServer` that the shutdown reads and writes. */
  datatype Core = Core(status: ServerStatus, tcpStopped: bool, poolStopped: bool, completions: nat)

  /** `taskPoolStopThread_`: not created, about to call `stop()`, inside it, returned with its event
      queued, delivered. */
  datatype Helper = NoThread | Spawned | InStop | Returned | Delivered

  datatype Sys = Sys(core: Core, hasPool: bool, tcpStopAsked: bool, helper: Helper, pool: Pool)

  datatype SysEvent =
    | ServerStart
    | ServerStop
    | PoolStep(step: Event)
    | HelperCallsStop
    | HelperReturns
    | PoolStoppedEvent
    | TcpStoppedEvent

  function TryComplete(c: Core): Core {
    if c.status == ServerStopping && c.tcpStopped && c.poolStopped then
      c.(status := ServerStopped, completions := c.completions + 1)
    else c
  }

  function OnTcpStopped(c: Core): Core {
    TryComplete(c.(tcpStopped := true))
  }

  function OnPoolStopped(c: Core): Core {
    TryComplete(c.(poolStopped := true))
  }

  function OnStop(c: Core, hasPool: bool): Core {
    if c.status != ServerRunning then c
    else
      var stopping := c.(status := ServerStopping);
      if hasPool then stopping else OnPoolStopped(stopping)
  }

  predicate Init(s: Sys) {
    && s.core == Core(NotStarted, false, false, 0) && !s.tcpStopAsked && s.helper == NoThread
    && TaskPool.Init(s.pool)
  }

  /** The pool is private to the server: only `start` and the helper thread start and stop it. */
  predicate Enabled(s: Sys, e: SysEvent) {
    match e
    case ServerStart => true
    case ServerStop => true
    case PoolStep(step) => s.hasPool && !step.Start? && !step.Stop? && TaskPool.Enabled(s.pool, step)
    case HelperCallsStop => s.helper == Spawned
    case HelperReturns => s.helper == InStop && s.pool.status == Stopped
    case PoolStoppedEvent => s.helper == Returned
    case TcpStoppedEvent => s.tcpStopAsked
  }

  function Next(s: Sys, e: SysEvent): Sys
    requires Enabled(s, e)
  {
    match e
    case ServerStart =>
      if s.core.status != NotStarted then s
      else s.(core := s.core.(status := ServerRunning),
              pool := if s.hasPool then TaskPool.Next(s.pool, Start) else s.pool)
    case ServerStop =>
      if s.core.status != ServerRunning then s
      else
        s.(core := OnStop(s.core, s.hasPool), helper := if s.hasPool then Spawned else NoThread, tcpStopAsked := true)
    case PoolStep(step) => s.(pool := TaskPool.Next(s.pool, step))
    case HelperCallsStop =>
      s.(pool := TaskPool.Next(s.pool, Stop), helper := if s.pool.status == Running then InStop else Returned)
    case HelperReturns => s.(helper := Returned)
    case PoolStoppedEvent => s.(core := OnPoolStopped(s.core), helper := Delivered)
    case TcpStoppedEvent => s.(core := OnTcpStopped(s.core))
  }

  ghost predicate StepAt(run: seq<Sys>, i: nat)
    requires i + 1 < |run|
  {
    exists e :: Enabled(run[i], e) && run[i + 1] == Next(run[i], e)
  }

  ghost predicate IsRun(run: seq<Sys>) {
    && run != [] && Init(run[0])
    && forall i: nat | i + 1 < |run| :: StepAt(run, i)
  }

  ghost predicate CoreInv(s: Sys) {
    var c := s.core;
    && (c.status == NotStarted || c.status == ServerRunning ==>
          !c.tcpStopped && !c.poolStopped && !s.tcpStopAsked && s.helper == NoThread)
    && (c.status == ServerStopping ==> s.tcpStopAsked && !(c.tcpStopped && c.poolStopped))
    && (c.status == ServerStopped ==> c.tcpStopped && c.poolStopped)
    && c.completions == (if c.status == ServerStopped then 1 else 0)
  }

  ghost predicate HelperInv(s: Sys) {
    && (s.core.status == NotStarted ==> s.pool.status == NotStart)
    && (!s.hasPool ==> s.helper == NoThread && s.pool.status == NotStart)
    && (s.hasPool && s.core.status == ServerRunning ==> s.pool.status == Running)
    && (s.helper == Spawned ==> s.pool.status == Running)
    && (s.helper == InStop ==> s.pool.status == Stopping || s.pool.status == Stopped)
    && (s.helper == Returned || s.helper == Delivered ==> s.pool.status == Stopped)
    && (s.hasPool ==> (s.core.poolStopped <==> s.helper == Delivered))
    && (s.hasPool && s.core.status == ServerStopping ==> s.helper != NoThread)
    && (!s.hasPool && s.core.status == ServerStopping ==> s.core.poolStopped)
    && (s.helper != NoThread ==> s.hasPool && s.core.status != NotStarted && s.core.status != ServerRunning)
  }

  ghost predicate Inv(s: Sys) {
    CoreInv(s) && HelperInv(s) && TaskPool.Inv(s.pool)
  }

  /** The pool event a shutdown event performs, if any, keeps the pool's own invariant. */
  lemma PoolInvStep(s: Sys, e: SysEvent)
    requires TaskPool.Inv(s.pool) && Enabled(s, e)
    ensures TaskPool.Inv(Next(s, e).pool)
  {
    var p' := Next(s, e).pool;
    if p' != s.pool {
      var step := match e case PoolStep(step) => step case ServerStart => Start case _ => Stop;
      assert TaskPool.Enabled(s.pool, step) && p' == TaskPool.Next(s.pool, step);
      assert Step(s.pool, p');
      StepInv(s.pool, p');
    }
  }

  lemma InvStep(s: Sys, e: SysEvent)
    requires Inv(s) && Enabled(s, e)
    ensures Inv(Next(s, e))
  {
    PoolInvStep(s, e);
  }

  lemma {:induction false} RunInv(run: seq<Sys>, i: nat)
    requires IsRun(run) && i < |run|
    ensures Inv(run[i])
  {
    if i == 0 {
      InitInv(run[0].pool);
    } else {
      RunInv(run, i - 1);
      assert StepAt(run, i - 1);
      var e :| Enabled(run[i - 1], e) && run[i] == Next(run[i - 1], e);
      InvStep(run[i - 1], e);
    }
  }

  /** Every task the pool ever accepted has finished. */
  ghost predicate AllTasksDone(p: Pool) {
    p.queue == [] && multiset(p.finished) == multiset(p.accepted)
  }

  /** In every run the completion callback fires at most once, exactly when the server is stopped, and then
      both parts have stopped and, with a pool, every accepted task has finished. */
  lemma CompletionIsSafe(run: seq<Sys>, i: nat)
    requires IsRun(run) && i < |run|
    ensures run[i].core.completions <= 1
    ensures run[i].core.completions == 1 ==>
              && run[i].core.status == ServerStopped && run[i].core.tcpStopped && run[i].core.poolStopped
              && (run[i].hasPool ==> run[i].pool.status == Stopped && AllTasksDone(run[i].pool))
  {
    RunInv(run, i);
    if run[i].core.completions == 1 && run[i].hasPool {
      StoppedMeansFinished(run[i].pool);
    }
  }

  /** A step fires the callback exactly when it delivers the second of the two events of a stopping server. */
  lemma FiresOnSecondEvent(s: Sys, e: SysEvent)
    requires Inv(s) && Enabled(s, e)
    ensures var c, c' := s.core, Next(s, e).core;
            && c'.completions == c.completions + 1 <==>
               || (e.TcpStoppedEvent? && c.status == ServerStopping && c.poolStopped)
               || (e.PoolStoppedEvent? && c.status == ServerStopping && c.tcpStopped)
    ensures Next(s, e).core.completions >= s.core.completions
  {}

  lemma FrozenStep(s: Sys, e: SysEvent)
    requires Inv(s) && Enabled(s, e) && s.core.completions == 1
    ensures Next(s, e).core == s.core
    ensures Next(s, e).pool.accepted == s.pool.accepted && Next(s, e).pool.finished == s.pool.finished
  {
    assert forall i | 0 <= i < |s.pool.workers| :: s.pool.workers[i] in s.pool.workers;
  }

  /** In every run nothing is accepted or finished after the callback, and it does not fire again. */
  lemma {:induction false} FrozenAfterCompletion(run: seq<Sys>, i: nat, j: nat)
    requires IsRun(run) && i <= j < |run| && run[i].core.completions == 1
    ensures run[j].core == run[i].core && run[j].core.status == ServerStopped
    ensures run[j].pool.accepted == run[i].pool.accepted && run[j].pool.finished == run[i].pool.finished
    decreases j
  {
    RunInv(run, j);
    if i < j {
      FrozenAfterCompletion(run, i, j - 1);
      RunInv(run, j - 1);
      assert StepAt(run, j - 1);
      var s, s' := run[j - 1], run[j];
      var e :| Enabled(s, e) && s' == Next(s, e);
      FrozenStep(s, e);
    }
  }

  // ------------------------------------------------------- the callback does come

  /** The server, its helper or its pool goes on; not a new call from outside. */
  predicate Onward(e: SysEvent) {
    || e.HelperCallsStop? || e.HelperReturns? || e.PoolStoppedEvent? || e.TcpStoppedEvent?
    || (e.PoolStep? && (e.step.NotifyAll? || e.step.Check? || e.step.Finish? || e.step.JoinAll?))
  }

  ghost predicate CanGoOn(s: Sys) {
    exists e :: Onward(e) && Enabled(s, e) && Next(s, e) != s
  }

  /** In every run a stopping server is never stuck before the callback fires. */
  lemma StoppingNeverStuck(run: seq<Sys>, i: nat)
    requires IsRun(run) && i < |run| && run[i].core.status == ServerStopping
    ensures CanGoOn(run[i])
  {
    RunInv(run, i);
    var s := run[i];
    if !s.core.tcpStopped {
      assert Enabled(s, TcpStoppedEvent) && Next(s, TcpStoppedEvent).core != s.core;
    } else {
      match s.helper
      case Spawned => assert Enabled(s, HelperCallsStop) && Next(s, HelperCallsStop).helper != s.helper;
      case Returned => assert Enabled(s, PoolStoppedEvent) && Next(s, PoolStoppedEvent).helper != s.helper;
      case InStop =>
        if s.pool.status == Stopped {
          assert Enabled(s, HelperReturns) && Next(s, HelperReturns).helper != s.helper;
        } else {
          DrainNeverStuck(s.pool);
          var step :| TaskPool.Enabled(s.pool, step) && TaskPool.Next(s.pool, step) != s.pool
                      && (step.NotifyAll? || step.Check? || step.Finish? || step.JoinAll?);
          assert Enabled(s, PoolStep(step)) && Next(s, PoolStep(step)).pool != s.pool;
        }
    }
  }

  function HelperSteps(h: Helper): nat {
    match h
    case Spawned => 3
    case InStop => 2
    case Returned => 1
    case _ => 0
  }

  /** A bound on the steps left until the callback, once the helper has called `stop()`. */
  function Left(s: Sys): nat {
    HelperSteps(s.helper) + (if s.hasPool then Remaining(s.pool) else 0)
    + (if s.core.tcpStopped then 0 else 1) + (if s.core.status == ServerStopping then 1 else 0)
  }

  /** From the moment the helper has called `stop()`, every step that changes anything brings the callback closer: with
      `StoppingNeverStuck`, it comes. */
  lemma StoppingDecreases(s: Sys, e: SysEvent)
    requires Inv(s) && Enabled(s, e) && s.core.status == ServerStopping && s.helper != Spawned
    ensures Next(s, e) == s || Left(Next(s, e)) < Left(s)
  {
    if e.PoolStep? {
      DrainDecreases(s.pool, e.step);
    }
  }

  /** The shutdown members of `RpcServer`. */
  class StopCoordinator {
    var status: ServerStatus
    var tcpServerStopped: bool
    var taskPoolStopped: bool
    ghost var completions: nat

    ghost function View(): Core
      reads this
    {
      Core(status, tcpServerStopped, taskPoolStopped, completions)
    }

    constructor ()
      ensures View() == Core(NotStarted, false, false, 0)
    {
      status, tcpServerStopped, taskPoolStopped, completions := NotStarted, false, false, 0;
    }

    method TryCompleteStop()
      modifies this
      ensures View() == TryComplete(old(View()))
      ensures completions == old(completions) + 1 <==>
                old(status) == ServerStopping && tcpServerStopped && taskPoolStopped
      ensures completions == old(completions) + 1 ==> status == ServerStopped
      ensures completions != old(completions) + 1 ==> View() == old(View())
    {
      if status != ServerStopping {
        return;
      }
      if tcpServerStopped && taskPoolStopped {
        status := ServerStopped;
        completions := completions + 1;
      }
    }

    method OnTcpServerStopped()
      modifies this
      ensures View() == OnTcpStopped(old(View()))
      ensures tcpServerStopped && taskPoolStopped == old(taskPoolStopped)
      ensures completions == old(completions) + (if old(status) == ServerStopping && taskPoolStopped then 1 else 0)
    {
      tcpServerStopped := true;
      TryCompleteStop();
    }

    method OnTaskPoolStopped()
      modifies this
      ensures View() == OnPoolStopped(old(View()))
      ensures taskPoolStopped && tcpServerStopped == old(tcpServerStopped)
      ensures completions == old(completions) + (if old(status) == ServerStopping && tcpServerStopped then 1 else 0)
    {
      taskPoolStopped := true;
      TryCompleteStop();
    }

    /** `stop`: spawns the helper when there is a pool, otherwise reports the pool as stopped at once. */
    method Stop(hasPool: bool) returns (spawned: bool)
      modifies this
      ensures spawned <==> hasPool && old(status) == ServerRunning
      ensures View() == OnStop(old(View()), hasPool)
      ensures old(status) != ServerRunning ==> View() == old(View())
      ensures old(status) == ServerRunning && (hasPool || !tcpServerStopped) ==> status == ServerStopping
      ensures old(status) == ServerRunning && !hasPool ==> taskPoolStopped
    {
      spawned := false;
      if status != ServerRunning {
        return;
      }
      status := ServerStopping;
      if hasPool {
        spawned := true;
      } else {
        OnTaskPoolStopped();
      }
    }
  }
}
