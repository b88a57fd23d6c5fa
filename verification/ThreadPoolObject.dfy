/**
 The thread_pool object of Linux/utils/thread_pool.hpp.  Each method is one lock hold, or one access
 to an atomic flag, of one thread; PoolMachine interleaves them statement by statement, and the
 lemmas at the end say that the statements of a lock hold add up to the method.
 */
module ThreadPoolObject {
  import opened Wrappers
  import opened PoolMachine

  const DEFAULT_THREAD_COUNT := 3

  /** determine_thread_count: `hardware` is what std::thread::hardware_concurrency() reports, 0 if unknown. */
  function DetermineThreadCount(hint: nat, hardware: nat): (n: nat)
    ensures 1 <= n
    ensures hardware > 0 ==> n <= hardware
    ensures hardware == 0 ==> n == 1
    ensures 0 < hint <= hardware ==> n == hint
    ensures 0 < hardware < hint ==> n == hardware
    ensures hint == 0 && hardware >= 3 ==> n == 3
    ensures hint == 0 && 0 < hardware < 3 ==> n == hardware
  {
    if hardware == 0 then 1
    else
      var wanted := if hint == 0 then DEFAULT_THREAD_COUNT else hint;
      if wanted > hardware then hardware else wanted
  }

  class ThreadPool<T(==)> {
    var running: bool
    var waiting: bool
    var paused: bool
    var tasks: seq<T>
    var total: int
    const threadCount: nat
    ghost var pushed: seq<T>
    ghost var started: seq<T>
    ghost var finished: seq<T>
    ghost var active: multiset<T>

    /** The lock invariant: what is true whenever tasks_mutex_ is free. */
    ghost predicate Valid()
      reads this
    {
      && threadCount >= 1
      && total == |tasks| + |active|
      && pushed == started + tasks
      && multiset(started) == multiset(finished) + active
    }

    /** The shared state as PoolMachine sees it. */
    function View(): Shared<T>
      reads this
    {
      Shared(running, waiting, paused, tasks, total)
    }

    constructor (hint: nat, hardware: nat)
      ensures Valid() && View() == Shared(true, false, false, [], 0)
      ensures threadCount == DetermineThreadCount(hint, hardware)
      ensures pushed == [] && started == [] && finished == [] && active == multiset{}
    {
      threadCount := DetermineThreadCount(hint, hardware);
      running, waiting, paused := true, false, false;
      tasks, total := [], 0;
      pushed, started, finished, active := [], [], [], multiset{};
    }

    /** push_task, under the lock. */
    method PushTask(task: T)
      requires Valid()
      modifies this
      ensures Valid() && View() == old(View()).(tasks := old(tasks) + [task], total := old(total) + 1)
      ensures pushed == old(pushed) + [task] && started == old(started) && finished == old(finished) && active == old(active)
    {
      tasks := tasks + [task];
      total := total + 1;
      pushed := pushed + [task];
      assert pushed == started + tasks;
    }

    /** The worker's lock hold before a task: the tests of running_, paused_ and the queue, and the pop. */
    method TakeTask() returns (task: Option<T>)
      requires Valid()
      modifies this
      ensures Valid()
      ensures task.None? <==> !old(running) || old(paused) || old(tasks) == []
      ensures task.None? ==> View() == old(View()) && started == old(started) && active == old(active)
      ensures task.Some? ==> View() == old(View()).(tasks := old(tasks)[1..]) && task.value == old(tasks)[0]
      ensures task.Some? ==> started == old(started) + [task.value] && active == old(active) + multiset{task.value}
      ensures pushed == old(pushed) && finished == old(finished)
    {
      task := None;
      if running && !paused {
        if tasks == [] {
          return;
        }
        task := Some(tasks[0]);
        started := started + [tasks[0]];
        active := active + multiset{tasks[0]};
        tasks := tasks[1..];
        assert pushed == started + tasks;
      }
    }

    /** The worker's lock hold after a task, whether it returned or threw: the decrement, and whether to notify. */
    method TaskDone(ghost task: T) returns (notify: bool)
      requires Valid() && task in active
      modifies this
      ensures Valid() && View() == old(View()).(total := old(total) - 1) && notify == old(waiting)
      ensures finished == old(finished) + [task] && active == old(active) - multiset{task}
      ensures pushed == old(pushed) && started == old(started)
    {
      total := total - 1;
      finished := finished + [task];
      active := active - multiset{task};
      notify := waiting;
    }

    method Pause()
      modifies this`paused
      ensures paused
    {
      paused := true;
    }

    method Unpause()
      modifies this`paused
      ensures !paused
    {
      paused := false;
    }

    /** The number of tasks in flight; the subtraction of two unsigned numbers cannot wrap. */
    method GetTasksRunning() returns (n: nat)
      requires Valid()
      ensures n == |active| && n + |tasks| == total
    {
      n := total - |tasks|;
    }

    method GetTasksCount() returns (n: int)
      ensures n == total
    {
      n := total;
    }

    /** The wait's predicate: nothing in flight, and nothing queued unless the pool is paused. */
    method WaitIsOver() returns (over: bool)
      requires Valid()
      ensures over <==> active == multiset{} && (paused || tasks == [])
    {
      over := total == (if paused then |tasks| else 0);
      assert |active| == 0 <==> active == multiset{};
    }
  }

  // ----- The machine's lock holds -----

  lemma FourSteps<T>(p: Pool<T>, ls: seq<Label<T>>, p1: Pool<T>, p2: Pool<T>, p3: Pool<T>, p4: Pool<T>)
    requires |ls| == 4
    requires Step(p, ls[0]) == Some(p1) && Step(p1, ls[1]) == Some(p2)
    requires Step(p2, ls[2]) == Some(p3) && Step(p3, ls[3]) == Some(p4)
    ensures CanRun(p, ls) && Final(p, ls) == p4
  {
    Unroll4(p, ls);
  }

  /** The statements of push_task between lock and unlock, run without interruption, are PushTask. */
  lemma PushSection<T>(p: Pool<T>, client: nat, task: T)
    requires p.lock.Free?
    ensures CanRun(p, [PushLock(client), PushQueue(task), PushCount, PushUnlock])
    ensures Final(p, [PushLock(client), PushQueue(task), PushCount, PushUnlock])
         == p.(sh := p.sh.(tasks := p.sh.tasks + [task], total := p.sh.total + 1), pushed := p.pushed + [task])
  {
    var p1 := p.(lock := ByPusher(client, Entered));
    var p2 := p1.(lock := ByPusher(client, Queued), sh := p.sh.Pushed(task), pushed := p.pushed + [task]);
    var p3 := p2.(lock := ByPusher(client, Tallied), sh := p2.sh.Counted());
    FourSteps(p, [PushLock(client), PushQueue(task), PushCount, PushUnlock], p1, p2, p3, p3.(lock := Free));
  }

  /** Four steps of one worker, given where each of them leads. */
  lemma WorkerSection<T>(p: Pool<T>, w: nat, p1: Pool<T>, p2: Pool<T>, p3: Pool<T>, p4: Pool<T>)
    requires w < |p.ws| && WorkerStep(p, w) == Some(p1)
    requires w < |p1.ws| && WorkerStep(p1, w) == Some(p2)
    requires w < |p2.ws| && WorkerStep(p2, w) == Some(p3)
    requires w < |p3.ws| && WorkerStep(p3, w) == Some(p4)
    ensures CanRun(p, [Work(w), Work(w), Work(w), Work(w)])
    ensures Final(p, [Work(w), Work(w), Work(w), Work(w)]) == p4
  {
    FourSteps(p, [Work(w), Work(w), Work(w), Work(w)], p1, p2, p3, p4);
  }

  /** The statements of a worker from its test of running_ to its unlock, when it finds a task, are TakeTask. */
  lemma TakeSection<T>(p: Pool<T>, w: nat)
    requires w < |p.ws| && p.ws[w].ReadRunning? && p.lock == ByWorker(w)
    requires p.sh.running && !p.sh.paused && p.sh.tasks != []
    ensures CanRun(p, [Work(w), Work(w), Work(w), Work(w)])
    ensures Final(p, [Work(w), Work(w), Work(w), Work(w)])
         == p.(sh := p.sh.(tasks := p.sh.tasks[1..]), lock := Free, started := p.started + [p.sh.tasks[0]], ws := p.ws[w := Busy(p.sh.tasks[0])])
  {
    var task := p.sh.tasks[0];
    var p1 := p.Goto(w, ReadPaused);
    var p2 := p1.Goto(w, Take);
    var p3 := p2.Goto(w, Releasing(task)).(sh := p.sh.Popped(), started := p.started + [task]);
    var p4 := p3.Goto(w, Busy(task)).(lock := Free);
    WorkerSection(p, w, p1, p2, p3, p4);
    assert p4.ws == p.ws[w := Busy(task)];
  }

  /** The statements of a worker from its lock after a task to its unlock are TaskDone. */
  lemma DoneSection<T>(p: Pool<T>, w: nat)
    requires w < |p.ws| && p.ws[w].Relocking? && p.lock.Free?
    ensures CanRun(p, [Work(w), Work(w), Work(w), Work(w)])
    ensures Final(p, [Work(w), Work(w), Work(w), Work(w)])
         == p.(sh := p.sh.(total := p.sh.total - 1), ws := p.ws[w := LoopTest],
               owner := if p.sh.waiting && p.owner.Sleeping? then Reacquire(p.owner.destroy) else p.owner)
  {
    var woken := if p.sh.waiting && p.owner.Sleeping? then Reacquire(p.owner.destroy) else p.owner;
    var p1 := p.Goto(w, Decrement).(lock := ByWorker(w));
    var p2 := p1.Goto(w, NotifyTest).(sh := p.sh.Uncounted());
    var p3 := p2.Goto(w, Leaving(false)).(owner := woken);
    var p4 := p3.Goto(w, LoopTest).(lock := Free);
    WorkerSection(p, w, p1, p2, p3, p4);
    assert p4.ws == p.ws[w := LoopTest];
  }

  lemma OneStep<T>(p: Pool<T>, l: Label<T>, q: Pool<T>)
    requires Step(p, l) == Some(q)
    ensures CanRun(p, [l]) && Final(p, [l]) == q
  {
    assert [l][1..] == [];
  }

  lemma TwoSteps<T>(p: Pool<T>, l: Label<T>, q: Pool<T>, l': Label<T>, q': Pool<T>)
    requires Step(p, l) == Some(q) && Step(q, l') == Some(q')
    ensures CanRun(p, [l, l']) && Final(p, [l, l']) == q'
  {
    OneStep(q, l', q');
    assert [l, l'][1..] == [l'];
  }

  lemma ThreeSteps<T>(p: Pool<T>, l: Label<T>, q: Pool<T>, l': Label<T>, q': Pool<T>, l'': Label<T>, q'': Pool<T>)
    requires Step(p, l) == Some(q) && Step(q, l') == Some(q') && Step(q', l'') == Some(q'')
    ensures CanRun(p, [l, l', l'']) && Final(p, [l, l', l'']) == q''
  {
    TwoSteps(q, l', q', l'', q'');
    assert [l, l', l''][1..] == [l', l''];
  }

  /** The statements of a worker that finds the pool stopped, paused or without a task are TakeTask, too: nothing changes. */
  lemma TakeNothingSection<T>(p: Pool<T>, w: nat)
    requires w < |p.ws| && p.ws[w].ReadRunning? && p.lock == ByWorker(w)
    requires !p.sh.running || p.sh.paused || p.sh.tasks == []
    ensures
      var steps := if !p.sh.running then [Work(w), Work(w)]
                   else if p.sh.paused then [Work(w), Work(w), Work(w)]
                   else [Work(w), Work(w), Work(w), Work(w)];
      CanRun(p, steps) && Final(p, steps) == p.(lock := Free, ws := p.ws[w := LoopTest])
  {
    var done := p.(lock := Free, ws := p.ws[w := LoopTest]);
    var p1 := p.Goto(w, ReadPaused);
    assert p.Goto(w, Leaving(false)).ws[w := LoopTest] == p.ws[w := LoopTest];
    if !p.sh.running {
      TwoSteps(p, Work(w), p.Goto(w, Leaving(false)), Work(w), done);
    } else if p.sh.paused {
      assert p1.Goto(w, Leaving(false)) == p.Goto(w, Leaving(false));
      ThreeSteps(p, Work(w), p1, Work(w), p.Goto(w, Leaving(false)), Work(w), done);
    } else {
      var p2 := p1.Goto(w, Take);
      assert p2 == p.Goto(w, Take) && p2.Goto(w, Leaving(false)) == p.Goto(w, Leaving(false));
      WorkerSection(p, w, p1, p2, p.Goto(w, Leaving(false)), done);
    }
  }

  /**
   A worker at the head of its loop: it leaves a stopped pool at once; otherwise it acquires the mutex, keeps it
   if there are tasks, and falls asleep without it if there are none.
   */
  lemma EnterSection<T>(p: Pool<T>, w: nat)
    requires w < |p.ws| && p.ws[w].LoopTest? && p.lock.Free?
    ensures !p.sh.running ==> CanRun(p, [Work(w)]) && Final(p, [Work(w)]) == p.(ws := p.ws[w := Exited])
    ensures p.sh.running ==> CanRun(p, [Work(w), Work(w), Work(w), Work(w)])
    ensures p.sh.running && p.sh.tasks != [] ==>
      Final(p, [Work(w), Work(w), Work(w), Work(w)]) == p.(lock := ByWorker(w), ws := p.ws[w := ReadRunning])
    ensures p.sh.running && p.sh.tasks == [] ==>
      Final(p, [Work(w), Work(w), Work(w), Work(w)]) == p.(ws := p.ws[w := Asleep])
  {
    if p.sh.running {
      var p1 := p.Goto(w, PoolMachine.Locking);
      var p2 := p.Goto(w, Recheck).(lock := ByWorker(w));
      var p3 := p.Goto(w, Predicate).(lock := ByWorker(w));
      var p4 := if p.sh.tasks != [] then p.Goto(w, ReadRunning).(lock := ByWorker(w)) else p.Goto(w, Asleep);
      assert p1.ws[w := Recheck] == p2.ws && p2.ws[w := Predicate] == p3.ws && p3.ws[w := p4.ws[w]] == p4.ws;
      WorkerSection(p, w, p1, p2, p3, p4);
    } else {
      OneStep(p, Work(w), p.(ws := p.ws[w := Exited]));
    }
  }

  /** A worker that is to acquire the mutex in a stopped pool tests running_ once more and leaves. */
  lemma StoppedSection<T>(p: Pool<T>, w: nat)
    requires w < |p.ws| && p.ws[w].Locking? && p.lock.Free? && !p.sh.running
    ensures CanRun(p, [Work(w), Work(w), Work(w)])
    ensures Final(p, [Work(w), Work(w), Work(w)]) == p.(ws := p.ws[w := Exited])
  {
    var p1 := p.Goto(w, Recheck).(lock := ByWorker(w));
    var p2 := p.Goto(w, Leaving(true)).(lock := ByWorker(w));
    var p3 := p.Goto(w, Exited);
    assert p1.ws[w := Leaving(true)] == p2.ws && p2.ws[w := Exited] == p3.ws;
    ThreeSteps(p, Work(w), p1, Work(w), p2, Work(w), p3);
  }

  /**
   A sleeping worker: when its time is over it goes on with the mutex; when it is woken earlier, only if there is
   a task or the pool is stopped, and it falls asleep again if not.
   */
  lemma WakeSection<T>(p: Pool<T>, w: nat)
    requires w < |p.ws| && p.ws[w].Asleep? && p.lock.Free?
    ensures CanRun(p, [Wake(w, true), Work(w)])
    ensures Final(p, [Wake(w, true), Work(w)]) == p.(lock := ByWorker(w), ws := p.ws[w := ReadRunning])
    ensures CanRun(p, [Wake(w, false), Work(w), Work(w)])
    ensures Final(p, [Wake(w, false), Work(w), Work(w)])
         == if p.sh.tasks != [] || !p.sh.running then p.(lock := ByWorker(w), ws := p.ws[w := ReadRunning]) else p
  {
    var late := p.Goto(w, Waking(true));
    var goesOn := p.(lock := ByWorker(w), ws := p.ws[w := ReadRunning]);
    assert late.ws[w := ReadRunning] == goesOn.ws;
    TwoSteps(p, Wake(w, true), late, Work(w), goesOn);
    var early := p.Goto(w, Waking(false));
    var tests := p.(lock := ByWorker(w), ws := p.ws[w := Predicate]);
    assert early.ws[w := Predicate] == tests.ws && tests.ws[w := ReadRunning] == goesOn.ws && tests.ws[w := Asleep] == p.ws;
    ThreeSteps(p, Wake(w, false), early, Work(w), tests, Work(w), if p.sh.tasks != [] || !p.sh.running then goesOn else p);
  }

  /** A client that reads the number of running tasks locks the mutex, reads, and leaves everything as it was. */
  lemma ReadSection<T>(p: Pool<T>, client: nat)
    requires p.lock.Free?
    ensures Step(p, ReadLock(client)) == Some(p.(lock := ByReader(client)))
    ensures CanRun(p, [ReadLock(client), ReadUnlock]) && Final(p, [ReadLock(client), ReadUnlock]) == p
  {
    TwoSteps(p, ReadLock(client), p.(lock := ByReader(client)), ReadUnlock, p);
  }

  /**
   A wait that begins while the mutex is free: it announces itself, and if its predicate is true it returns with
   everything as it was; otherwise it sleeps, announced, without the mutex.
   */
  lemma WaitSection<T>(p: Pool<T>, destroy: bool)
    requires p.owner.Outside? && p.lock.Free? && !p.sh.waiting
    ensures CanRun(p, [StartWait(destroy), OwnerWork, OwnerWork, OwnerWork])
    ensures !p.sh.WaitOver() ==>
      Final(p, [StartWait(destroy), OwnerWork, OwnerWork, OwnerWork])
      == p.(owner := Sleeping(destroy), sh := p.sh.(waiting := true))
    ensures p.sh.WaitOver() ==>
      && CanRun(p, [StartWait(destroy), OwnerWork, OwnerWork, OwnerWork] + [OwnerWork, OwnerWork])
      && Final(p, [StartWait(destroy), OwnerWork, OwnerWork, OwnerWork] + [OwnerWork, OwnerWork])
         == p.(owner := if destroy then StopRunning else Outside)
  {
    var first := [StartWait(destroy), OwnerWork, OwnerWork, OwnerWork];
    var announced := p.sh.(waiting := true);
    var p1 := p.(owner := Announce(destroy));
    var p2 := p.(owner := WaitLock(destroy), sh := announced);
    var p3 := p.(owner := Testing(destroy), sh := announced, lock := ByOwner);
    if p.sh.WaitOver() {
      var p4 := p.(owner := Clear(destroy), sh := announced, lock := ByOwner);
      FourSteps(p, first, p1, p2, p3, p4);
      TwoSteps(p4, OwnerWork, p.(owner := WaitUnlock(destroy), lock := ByOwner),
               OwnerWork, p.(owner := if destroy then StopRunning else Outside));
      RunAppend(p, first, [OwnerWork, OwnerWork]);
    } else {
      FourSteps(p, first, p1, p2, p3, p.(owner := Sleeping(destroy), sh := announced));
    }
  }
}
