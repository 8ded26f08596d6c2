/** The `TaskThreadPool` object: its critical sections as methods, each proved to be the
    corresponding step of the interleaving model and so to keep its invariant. */
module TaskThreadPool {
  import opened Options
  import opened TaskPool

  class ThreadPool {
    var status: Status
    const threadCnt: nat
    var maxQueueTasks: Option<nat>
    var tasks: seq<Task>
    var threads: seq<Worker>
    ghost var owedOne: nat
    ghost var owedAll: bool
    ghost var accepted: seq<Task>
    ghost var dequeued: seq<Task>
    ghost var finished: seq<Task>
    var nextTicket: nat

    ghost function View(): Pool
      reads this
    {
      Pool(status, threadCnt, maxQueueTasks, tasks, threads, owedOne, owedAll, accepted, dequeued, finished)
    }

    ghost predicate Valid()
      reads this
    {
      Inv(View()) && nextTicket == |accepted|
    }

    constructor (threadCnt: nat)
      requires 0 < threadCnt < 256
      ensures Valid() && Init(View()) && this.threadCnt == threadCnt
    {
      status, this.threadCnt, maxQueueTasks, tasks, threads := NotStart, threadCnt, None, [], [];
      owedOne, owedAll, accepted, dequeued, finished, nextTicket := 0, false, [], [], [], 0;
      new;
      InitInv(View());
    }

    /** Every step of the model that a method performs keeps the object valid. */
    twostate lemma Performed(e: Event)
      requires old(Valid()) && Enabled(old(View()), e) && View() == Next(old(View()), e)
      requires nextTicket == |accepted|
      ensures Valid()
    {
      assert Step(old(View()), View());
      StepInv(old(View()), View());
    }

    method Start()
      requires Valid()
      modifies this
      ensures Valid() && View() == Next(old(View()), TaskPool.Start)
      ensures old(status) == NotStart ==> status == Running && threads == seq(threadCnt, _ => Awake)
      ensures old(status) != NotStart ==> View() == old(View())
    {
      if status == NotStart {
        status := Running;
        var i := 0;
        while i < threadCnt
          invariant 0 <= i <= threadCnt
          invariant threads == seq(i, _ => Awake)
          invariant View() == old(View()).(status := Running, workers := threads)
          invariant nextTicket == old(nextTicket)
        {
          threads := threads + [Awake];
          i := i + 1;
        }
      }
      Performed(TaskPool.Start);
    }

    method SetMaxQueueTasks(limit: nat)
      requires Valid() && limit > 0
      modifies this
      ensures Valid() && View() == Next(old(View()), SetMax(limit))
      ensures maxQueueTasks == if status == NotStart then Some(limit) else old(maxQueueTasks)
    {
      if status == NotStart {
        maxQueueTasks := Some(limit);
      }
      Performed(SetMax(limit));
    }

    /** `addTask` up to the unlock; the notification it then owes is `Notify`. */
    method AddTask(empty: bool, body: nat) returns (res: SubmitResult)
      requires Valid()
      modifies this
      ensures Valid() && View() == Next(old(View()), Submit(empty, body))
      ensures res == EmptyTask <==> empty
      ensures res == NotRunning <==> !empty && status != Running
      ensures res == QueueFull <==>
                !empty && status == Running && maxQueueTasks.Some? && |old(tasks)| == maxQueueTasks.value
      ensures res == Accepted <==>
                !empty && status == Running && (maxQueueTasks.Some? ==> |old(tasks)| < maxQueueTasks.value)
      ensures res == Accepted ==>
                && |tasks| == |old(tasks)| + 1 && tasks[..|old(tasks)|] == old(tasks)
                && tasks[|old(tasks)|].body == body && tasks[|old(tasks)|] !in old(accepted)
                && accepted == old(accepted) + [tasks[|old(tasks)|]] && owedOne == old(owedOne) + 1
      ensures res != Accepted ==> View() == old(View())
    {
      if empty {
        res := EmptyTask;
      } else if status != Running {
        res := NotRunning;
      } else if maxQueueTasks.Some? && |tasks| >= maxQueueTasks.value {
        res := QueueFull;
      } else {
        var task := Task(nextTicket, body);
        tasks := tasks + [task];
        nextTicket := nextTicket + 1;
        accepted := accepted + [task];
        owedOne := owedOne + 1;
        res := Accepted;
      }
      Performed(Submit(empty, body));
    }

    /** `condition_.notify_one()`: wakes some sleeper if there is one. */
    method Notify()
      requires Valid() && owedOne > 0
      modifies this
      ensures Valid()
      ensures exists sleeper ::
                Enabled(old(View()), NotifyOne(sleeper)) && View() == Next(old(View()), NotifyOne(sleeper))
    {
      owedOne := owedOne - 1;
      if Asleep in threads {
        var i :| 0 <= i < |threads| && threads[i] == Asleep;
        threads := threads[i := Awake];
        Performed(NotifyOne(Some(i)));
      } else {
        Performed(NotifyOne(None));
      }
    }

    /** `stop` up to the unlock. Returns whether this caller is the one that stops the pool; any other returns at
        once, with the pool settled unless it is STOPPING. */
    method BeginStop() returns (mine: bool)
      requires Valid()
      modifies this
      ensures Valid() && View() == Next(old(View()), Stop)
      ensures mine <==> old(status) == Running
      ensures mine ==> status == Stopping && owedAll && tasks == old(tasks) && threads == old(threads)
      ensures !mine ==> View() == old(View())
      ensures !mine && status != Stopping ==> Settled(View())
    {
      mine := status == Running;
      if !mine {
        EarlyReturnDrainedIff(View());
      }
      if mine {
        status := Stopping;
        owedAll := true;
      }
      Performed(Stop);
    }

    /** `condition_.notify_all()`. */
    method NotifyEveryone()
      requires Valid() && owedAll
      modifies this
      ensures Valid() && View() == Next(old(View()), NotifyAll)
      ensures !owedAll && Asleep !in threads && tasks == old(tasks)
      ensures forall k | 0 <= k < |threads| :: old(threads)[k] != Asleep ==> threads[k] == old(threads)[k]
    {
      owedAll := false;
      var i := 0;
      while i < |threads|
        invariant 0 <= i <= |threads| == |old(threads)|
        invariant forall k | 0 <= k < i :: threads[k] == if old(threads)[k] == Asleep then Awake else old(threads)[k]
        invariant forall k | i <= k < |threads| :: threads[k] == old(threads)[k]
        invariant View() == old(View()).(owedAll := false, workers := threads)
        invariant nextTicket == old(nextTicket)
      {
        if threads[i] == Asleep {
          threads := threads[i := Awake];
        }
        i := i + 1;
      }
      assert threads == WakeAll(old(threads));
      Performed(NotifyAll);
    }

    /** The join loop and the final status write; it cannot pass a worker that is still alive. */
    method FinishStop() returns (joined: bool)
      requires Valid() && status == Stopping && !owedAll
      modifies this
      ensures Valid()
      ensures joined <==> forall w | w in old(threads) :: w == Exited
      ensures joined ==> status == Stopped && multiset(finished) == multiset(accepted) && tasks == []
      ensures !joined ==> View() == old(View())
    {
      var i := 0;
      while i < |threads|
        invariant 0 <= i <= |threads|
        invariant forall k | 0 <= k < i :: threads[k] == Exited
        invariant View() == old(View()) && Valid()
      {
        if threads[i] != Exited {
          assert threads[i] in threads;
          return false;
        }
        i := i + 1;
      }
      status := Stopped;
      Performed(JoinAll);
      StoppedMeansFinished(View());
      joined := true;
    }

    /** One pass of `run` under the lock; returns the task to execute, if any. */
    method RunPass(i: nat) returns (task: Option<Task>)
      requires Valid() && i < |threads| && threads[i] == Awake
      modifies this
      ensures Valid() && View() == Next(old(View()), Check(i))
      ensures task.Some? <==> old(tasks) != []
      ensures task.Some? ==>
                task.value == old(tasks)[0] && tasks == old(tasks)[1..] && threads[i] == Busy(task.value)
      ensures task.None? ==> tasks == [] && threads[i] == if status == Running then Asleep else Exited
      ensures forall k | 0 <= k < |threads| && k != i :: threads[k] == old(threads)[k]
    {
      task := None;
      if tasks == [] && status == Running {
        threads := threads[i := Asleep];
      } else if tasks == [] {
        threads := threads[i := Exited];
      } else {
        task := Some(tasks[0]);
        threads := threads[i := Busy(tasks[0])];
        dequeued := dequeued + [tasks[0]];
        tasks := tasks[1..];
      }
      Performed(Check(i));
    }

    /** The task returned or threw; either way the worker goes back to the lock. */
    method TaskDone(i: nat)
      requires Valid() && i < |threads| && threads[i].Busy?
      modifies this
      ensures Valid() && View() == Next(old(View()), Finish(i))
      ensures finished == old(finished) + [old(threads)[i].task] && threads == old(threads)[i := Awake]
    {
      finished := finished + [threads[i].task];
      threads := threads[i := Awake];
      Performed(Finish(i));
    }
  }
}
