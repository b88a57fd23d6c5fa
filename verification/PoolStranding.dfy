/**
 The waiter that pause() strands.  pause() makes the wait of a sleeping client due without notifying it.
 If then no worker has a task and none is about to pop one, nobody ever notifies the client; otherwise the
 worker that has the task will.
 */
module PoolStranding {
  import opened Wrappers
  import opened PoolMachine
  import opened PoolInvariant
  import opened PoolTheorems
  import opened PoolWakeup

  /** A client sleeps in its wait, the pool is paused, and no worker has a task or is about to pop one. */
  ghost predicate Stranded<T>(p: Pool<T>) {
    p.owner.Sleeping? && p.sh.paused && NobodyWorking(p) && !(Committed(p) && p.sh.tasks != [])
  }

  /** What a caller of pause() can see beforehand. */
  ghost predicate PauseStrands<T>(p: Pool<T>) { p.owner.Sleeping? && NobodyWorking(p) && !Committed(p) }

  /** A client sleeps while nobody works only because of tasks in the queue. */
  ghost predicate SleepsForTasks<T>(p: Pool<T>) { p.owner.Sleeping? && NobodyWorking(p) ==> p.sh.tasks != [] }

  // ----- Once stranded -----

  lemma WorkerLeavesStranded<T>(p: Pool<T>, w: nat)
    requires Mutex(p) && Stranded(p) && w < |p.ws| && WorkerStep(p, w).Some?
    ensures Stranded(WorkerStep(p, w).value) && WorkerStep(p, w).value.owner == p.owner
  {
  }

  lemma LocalMoveLeavesStranded<T>(p: Pool<T>, l: Label<T>)
    requires Mutex(p) && Stranded(p) && (l.TaskEnds? || l.Wake?) && Step(p, l).Some?
    ensures Stranded(Step(p, l).value) && Step(p, l).value.owner == p.owner
  {
  }

  lemma ClientLeavesStranded<T>(p: Pool<T>, l: Label<T>)
    requires Mutex(p) && Stranded(p) && Step(p, l).Some?
    requires !l.Work? && !l.TaskEnds? && !l.Wake? && !l.Unpause? && !l.WakeOwner?
    ensures Stranded(Step(p, l).value) && Step(p, l).value.owner == p.owner
  {
    assert Step(p, l).value.ws == p.ws;
  }

  /** Only unpause() or a spurious wake-up can change that. */
  lemma StrandedStays<T>(p: Pool<T>, l: Label<T>)
    requires Mutex(p) && Stranded(p) && Step(p, l).Some? && !l.Unpause? && !l.WakeOwner?
    ensures Stranded(Step(p, l).value) && Step(p, l).value.owner == p.owner
  {
    if l.Work? {
      WorkerLeavesStranded(p, l.w);
    } else if l.TaskEnds? || l.Wake? {
      LocalMoveLeavesStranded(p, l);
    } else {
      ClientLeavesStranded(p, l);
    }
  }

  /** Neither unpause() nor a spurious wake-up. */
  ghost predicate Unaided<T>(labels: seq<Label<T>>) {
    forall l :: l in labels ==> !l.Unpause? && !l.WakeOwner?
  }

  lemma {:induction false} StrandedForGood<T>(p: Pool<T>, labels: seq<Label<T>>)
    requires Inv(p) && Stranded(p) && CanRun(p, labels) && Unaided(labels)
    ensures Stranded(Final(p, labels)) && Final(p, labels).owner == p.owner
    decreases |labels|
  {
    if labels != [] {
      assert labels[0] in labels && forall l :: l in labels[1..] ==> l in labels;
      StrandedStays(p, labels[0]);
      StepKeepsInv(p, labels[0]);
      StrandedForGood(Step(p, labels[0]).value, labels[1..]);
    }
  }

  // ----- How a waiter gets stranded -----

  /** Without a task in flight the wait's predicate is false only because of the queue, and only unpaused. */
  lemma FalseBecauseOfQueue<T>(p: Pool<T>)
    requires Inv(p) && p.owner.Testing? && !p.sh.WaitOver() && NobodyWorking(p)
    ensures p.sh.tasks != [] && !p.sh.paused
  {
    assert p.lock == ByOwner;
    InFlightZero(p.ws);
  }

  lemma WorkerKeepsSleeps<T>(p: Pool<T>, w: nat)
    requires Inv(p) && SleepsForTasks(p) && w < |p.ws| && WorkerStep(p, w).Some?
    ensures SleepsForTasks(WorkerStep(p, w).value)
    ensures Stranded(WorkerStep(p, w).value) ==> Stranded(p)
  {
    var q := WorkerStep(p, w).value;
    if q.owner.Sleeping? && NobodyWorking(q) {
      assert !q.ws[w].InFlight() && !q.ws[w].NotifyTest?;
      SleeperSeesNoWork(p, w);
    }
  }

  /** A worker step after which a client still sleeps and nobody works was a step in the worker's loop. */
  lemma SleeperSeesNoWork<T>(p: Pool<T>, w: nat)
    requires Inv(p) && w < |p.ws| && WorkerStep(p, w).Some?
    requires WorkerStep(p, w).value.owner.Sleeping? && NobodyWorking(WorkerStep(p, w).value)
    ensures NobodyWorking(p) && p.owner.Sleeping? && WorkerStep(p, w).value.sh == p.sh
    ensures p.sh.tasks != [] ==> !p.ws[w].Take?
    ensures Committed(WorkerStep(p, w).value) == Committed(p) || !p.sh.paused || p.sh.tasks == []
  {
    var q := WorkerStep(p, w).value;
    WorkerMovesAlone(p, w);
    MoverHadNoWork(p, w);
    forall v | 0 <= v < |p.ws|
      ensures !p.ws[v].InFlight() && !p.ws[v].NotifyTest?
    {
      assert v != w ==> q.ws[v] == p.ws[v];
    }
  }

  lemma MoverHadNoWork<T>(p: Pool<T>, w: nat)
    requires Flags(p) && w < |p.ws| && WorkerStep(p, w).Some? && WorkerStep(p, w).value.owner.Sleeping?
    requires w < |WorkerStep(p, w).value.ws|
    requires !WorkerStep(p, w).value.ws[w].InFlight() && !WorkerStep(p, w).value.ws[w].NotifyTest?
    ensures !p.ws[w].InFlight() && !p.ws[w].NotifyTest?
  {
  }

  lemma LocalMoveKeepsSleeps<T>(p: Pool<T>, l: Label<T>)
    requires Inv(p) && SleepsForTasks(p) && (l.TaskEnds? || l.Wake?) && Step(p, l).Some?
    ensures SleepsForTasks(Step(p, l).value) && (Stranded(Step(p, l).value) ==> Stranded(p))
  {
    var q := Step(p, l).value;
    assert l.TaskEnds? ==> q.ws[l.w].InFlight();
    if l.Wake? && NobodyWorking(q) {
      assert forall w :: 0 <= w < |p.ws| && w != l.w ==> q.ws[w] == p.ws[w];
      assert NobodyWorking(p);
    }
  }

  lemma OwnerKeepsSleeps<T>(p: Pool<T>)
    requires Inv(p) && SleepsForTasks(p) && OwnerStep(p).Some?
    ensures SleepsForTasks(OwnerStep(p).value) && !Stranded(OwnerStep(p).value)
  {
    if OwnerStep(p).value.owner.Sleeping? && NobodyWorking(p) {
      FalseBecauseOfQueue(p);
    }
  }

  lemma PushKeepsSleeps<T>(p: Pool<T>, l: Label<T>)
    requires Inv(p) && SleepsForTasks(p) && Step(p, l).Some?
    requires !l.Work? && !l.TaskEnds? && !l.Wake? && !l.OwnerWork? && !l.Pause? && !l.Unpause? && !l.WakeOwner?
    ensures SleepsForTasks(Step(p, l).value) && (Stranded(Step(p, l).value) <==> Stranded(p))
  {
    if l.StartWait? {
      assert !p.owner.Sleeping? && !Step(p, l).value.owner.Sleeping?;
    } else {
      ClientCall(p, l);
    }
  }

  /** A step of a client inside push_task or a query: no worker holds the mutex before or after it. */
  lemma ClientCall<T>(p: Pool<T>, l: Label<T>)
    requires l.PushLock? || l.PushQueue? || l.PushCount? || l.PushUnlock? || l.ReadLock? || l.ReadUnlock?
    requires Step(p, l).Some?
    ensures
      var q := Step(p, l).value;
      && q.ws == p.ws && q.owner == p.owner && q.sh.paused == p.sh.paused && !Committed(p) && !Committed(q)
      && (p.sh.tasks != [] ==> q.sh.tasks != [])
  {
  }

  lemma FlagKeepsSleeps<T>(p: Pool<T>, l: Label<T>)
    requires Inv(p) && SleepsForTasks(p) && (l.Pause? || l.Unpause? || l.WakeOwner?) && Step(p, l).Some?
    ensures SleepsForTasks(Step(p, l).value)
    ensures Stranded(Step(p, l).value) <==> l.Pause? && (Stranded(p) || PauseStrands(p))
  {
    assert Step(p, l).value.ws == p.ws;
  }

  /**
   Exactly: after a step the waiter is stranded if it was and the step is no unpause() or spurious wake-up, or
   if the step is a pause() that finds it asleep, no worker with a task and none about to pop one.
   */
  lemma StrandedExactly<T>(p: Pool<T>, l: Label<T>)
    requires Inv(p) && SleepsForTasks(p) && Step(p, l).Some?
    ensures SleepsForTasks(Step(p, l).value)
    ensures
      Stranded(Step(p, l).value)
      <==> (Stranded(p) && !l.Unpause? && !l.WakeOwner?) || (l.Pause? && PauseStrands(p))
  {
    if Stranded(p) && !l.Unpause? && !l.WakeOwner? {
      StrandedStays(p, l);
    }
    match l
    case Work(w) => WorkerKeepsSleeps(p, w);
    case TaskEnds(_) => LocalMoveKeepsSleeps(p, l);
    case Wake(_, _) => LocalMoveKeepsSleeps(p, l);
    case OwnerWork => OwnerKeepsSleeps(p);
    case Pause => FlagKeepsSleeps(p, l);
    case Unpause => FlagKeepsSleeps(p, l);
    case WakeOwner => FlagKeepsSleeps(p, l);
    case _ => PushKeepsSleeps(p, l);
  }

  lemma {:induction false} RunKeepsSleeps<T>(p: Pool<T>, labels: seq<Label<T>>)
    requires Inv(p) && SleepsForTasks(p) && CanRun(p, labels)
    ensures SleepsForTasks(Final(p, labels))
    decreases |labels|
  {
    if labels != [] {
      StrandedExactly(p, labels[0]);
      StepKeepsInv(p, labels[0]);
      RunKeepsSleeps(Step(p, labels[0]).value, labels[1..]);
    }
  }

  // ----- A run that strands its waiter -----

  /** A one-worker pool with one task queued and the worker not yet scheduled, once the waiter is asleep. */
  function SleepyPool(paused: bool): Pool<int> {
    Pool(Shared(true, true, paused, [7], 1), Free, [LoopTest], Sleeping(false), [7], [], [])
  }

  /** A push, and a client that calls wait_for_tasks before the worker runs. */
  function PushThenWait(): seq<Label<int>> {
    [PushLock(0), PushQueue(7), PushCount, PushUnlock] + [StartWait(false), OwnerWork, OwnerWork, OwnerWork]
  }

  lemma PushOneTask()
    ensures CanRun(Init<int>(1), PushThenWait()[..4])
    ensures Final(Init<int>(1), PushThenWait()[..4]) == Pool(Shared(true, false, false, [7], 1), Free, [LoopTest], Outside, [7], [], [])
  {
    assert Init<int>(1).ws == [LoopTest];
    Unroll4(Init<int>(1), PushThenWait()[..4]);
  }

  lemma WaiterFallsAsleep(p: Pool<int>)
    requires p == Pool(Shared(true, false, false, [7], 1), Free, [LoopTest], Outside, [7], [], [])
    ensures CanRun(p, PushThenWait()[4..]) && Final(p, PushThenWait()[4..]) == SleepyPool(false)
  {
    Unroll4(p, PushThenWait()[4..]);
  }

  lemma SleepyIsStranded()
    ensures Inv(SleepyPool(true)) && Stranded(SleepyPool(true)) && PauseStrands(SleepyPool(false))
    ensures SleepyPool(true).sh.WaitOver() && !WakeupPending(SleepyPool(true))
  {
    InFlightZero(SleepyPool(true).ws);
  }

  lemma SleepyIsReached()
    ensures CanRun(Init<int>(1), PushThenWait()) && Final(Init<int>(1), PushThenWait()) == SleepyPool(false)
  {
    PushOneTask();
    WaiterFallsAsleep(Final(Init<int>(1), PushThenWait()[..4]));
    RunAppend(Init<int>(1), PushThenWait()[..4], PushThenWait()[4..]);
    assert PushThenWait()[..4] + PushThenWait()[4..] == PushThenWait();
  }

  /**
   A concrete run that strands its waiter: with one task queued and its waiter asleep, pause() makes the
   wait's predicate true, and in no continuation without unpause() or a spurious wake-up does the waiter wake.
   */
  lemma PauseCanStrandTheWaiter(later: seq<Label<int>>)
    requires CanRun(SleepyPool(true), later) && Unaided(later)
    ensures CanRun(Init<int>(1), PushThenWait())
    ensures Final(Init<int>(1), PushThenWait()) == SleepyPool(false) && PauseStrands(SleepyPool(false))
    ensures Step(SleepyPool(false), Pause) == Some(SleepyPool(true))
    ensures SleepyPool(true).sh.WaitOver() && !WakeupPending(SleepyPool(true))
    ensures Final(SleepyPool(true), later).owner == Sleeping(false)
  {
    SleepyIsReached();
    SleepyIsStranded();
    StrandedForGood(SleepyPool(true), later);
  }
}
