/**
 The wake-up of wait_for_tasks.  waiting_ is written before tasks_mutex_ is taken, and a worker reads
 it under that mutex after its decrement, so no wake-up is lost between a worker and a waiter: while the
 wait is due its notification is pending.  pause() changes the predicate of the wait without notifying
 anyone, and can make it due with no notification pending; PoolStranding says when that is for good.
 */
module PoolWakeup {
  import opened PoolMachine
  import opened PoolInvariant

  /** What the wait's predicate comes to once no push is between its two writes. */
  ghost predicate WaitIsDue<T>(p: Pool<T>) {
    InFlight(p.ws) == 0 && (p.sh.paused || p.sh.tasks == [])
  }

  lemma DueMeansPredicate<T>(p: Pool<T>)
    requires Inv(p) && !p.MidPush()
    ensures WaitIsDue(p) <==> p.sh.WaitOver()
  {
  }

  /** A waiter asleep on task_done_cv_ whose wait is due is about to be notified by some worker. */
  ghost predicate WakeupPending<T>(p: Pool<T>) {
    p.owner.Sleeping? && WaitIsDue(p) ==> exists w :: 0 <= w < |p.ws| && p.ws[w].NotifyTest?
  }

  /** No worker is between popping a task and the notification that follows its decrement. */
  ghost predicate NobodyWorking<T>(p: Pool<T>) {
    forall w :: 0 <= w < |p.ws| ==> !p.ws[w].InFlight() && !p.ws[w].NotifyTest?
  }

  /** A pause() now makes the wait of a sleeping client due, and no worker is between a pop and its notification. */
  ghost predicate PauseOvertakes<T>(p: Pool<T>) {
    p.owner.Sleeping? && NobodyWorking(p)
  }

  /** A worker that is not notifying or popping leaves the due condition, and the notifying worker, as they are. */
  lemma WorkerKeepsDue<T>(p: Pool<T>, w: nat)
    requires w < |p.ws| && WorkerStep(p, w).Some? && WaitIsDue(WorkerStep(p, w).value)
    requires !p.ws[w].Decrement? && !p.ws[w].NotifyTest?
    ensures WaitIsDue(p)
    ensures WorkerStep(p, w).value.owner == p.owner
    ensures |WorkerStep(p, w).value.ws| == |p.ws|
    ensures forall v :: 0 <= v < |p.ws| && p.ws[v].NotifyTest? ==> WorkerStep(p, w).value.ws[v].NotifyTest?
  {
    InFlightUpdate(p.ws, w, WorkerStep(p, w).value.ws[w]);
  }

  lemma WorkerKeepsPending<T>(p: Pool<T>, w: nat)
    requires Flags(p) && WakeupPending(p) && w < |p.ws| && WorkerStep(p, w).Some?
    ensures WakeupPending(WorkerStep(p, w).value)
  {
    var q := WorkerStep(p, w).value;
    if q.owner.Sleeping? && WaitIsDue(q) {
      if p.ws[w].Decrement? {
        assert q.ws[w].NotifyTest?;
      } else if !p.ws[w].NotifyTest? {
        WorkerKeepsDue(p, w);
      }
    }
  }

  lemma LocalMoveKeepsPending<T>(p: Pool<T>, l: Label<T>)
    requires WakeupPending(p) && (l.TaskEnds? || l.Wake?) && Step(p, l).Some?
    ensures WakeupPending(Step(p, l).value)
  {
    var q := Step(p, l).value;
    InFlightUpdate(p.ws, l.w, q.ws[l.w]);
    assert forall v :: 0 <= v < |p.ws| && p.ws[v].NotifyTest? ==> q.ws[v].NotifyTest?;
  }

  /** The waiter goes to sleep only when its predicate is false, under the mutex. */
  lemma OwnerKeepsPending<T>(p: Pool<T>)
    requires Inv(p) && WakeupPending(p) && OwnerStep(p).Some?
    ensures WakeupPending(OwnerStep(p).value)
  {
    if p.owner.Testing? {
      assert p.lock == ByOwner;
      DueMeansPredicate(p);
    }
  }

  /** A push can make the wait less due, and it cannot start while a worker is about to notify. */
  lemma PushKeepsPending<T>(p: Pool<T>, l: Label<T>)
    requires WakeupPending(p) && (l.PushLock? || l.PushQueue? || l.PushCount? || l.PushUnlock?) && PushStep(p, l).Some?
    ensures WakeupPending(PushStep(p, l).value)
  {
    assert PushStep(p, l).value.ws == p.ws;
  }

  lemma UnpauseKeepsPending<T>(p: Pool<T>)
    requires WakeupPending(p)
    ensures WakeupPending(Step(p, Unpause).value)
  {
    assert Step(p, Unpause).value.ws == p.ws;
  }

  lemma PauseKeepsPendingUnlessOvertaking<T>(p: Pool<T>)
    requires WakeupPending(p)
    ensures WakeupPending(Step(p, Pause).value) <==> !PauseOvertakes(p)
  {
    InFlightZero(p.ws);
    assert Step(p, Pause).value.ws == p.ws;
  }

  /**
   A step of any thread keeps the notification of every due wait pending, except a pause() that arrives
   while the waiter sleeps and no worker has a task; after that one none is pending, for the moment.
   */
  lemma PendingUnlessOvertaken<T>(p: Pool<T>, l: Label<T>)
    requires Inv(p) && WakeupPending(p) && Step(p, l).Some?
    ensures WakeupPending(Step(p, l).value) <==> !(l.Pause? && PauseOvertakes(p))
  {
    match l
    case Work(w) => WorkerKeepsPending(p, w);
    case TaskEnds(_) => LocalMoveKeepsPending(p, l);
    case Wake(_, _) => LocalMoveKeepsPending(p, l);
    case OwnerWork => OwnerKeepsPending(p);
    case Pause => PauseKeepsPendingUnlessOvertaking(p);
    case Unpause => UnpauseKeepsPending(p);
    case PushLock(_) => PushKeepsPending(p, l);
    case PushQueue(_) => PushKeepsPending(p, l);
    case PushCount => PushKeepsPending(p, l);
    case PushUnlock => PushKeepsPending(p, l);
    case _ => assert Step(p, l).value.ws == p.ws;
  }

  /** No pause() of the run arrives while the waiter sleeps and nobody works. */
  ghost predicate NeverOvertakes<T>(p: Pool<T>, labels: seq<Label<T>>)
    requires CanRun(p, labels)
    decreases |labels|
  {
    labels == [] || (!(labels[0].Pause? && PauseOvertakes(p)) && NeverOvertakes(Step(p, labels[0]).value, labels[1..]))
  }

  /** Over whole runs: from the constructor on, without such a pause() a sleeping waiter whose predicate holds is about to be notified. */
  lemma {:induction false} NoLostWakeup<T>(p: Pool<T>, labels: seq<Label<T>>)
    requires Inv(p) && WakeupPending(p) && CanRun(p, labels) && NeverOvertakes(p, labels)
    ensures WakeupPending(Final(p, labels))
    decreases |labels|
  {
    if labels != [] {
      PendingUnlessOvertaken(p, labels[0]);
      StepKeepsInv(p, labels[0]);
      NoLostWakeup(Step(p, labels[0]).value, labels[1..]);
    }
  }

  /** The pending notification is the very next statement of the thread that holds the mutex, and it wakes the waiter. */
  lemma PendingWakeupArrives<T>(p: Pool<T>)
    requires Inv(p) && WakeupPending(p) && p.owner.Sleeping? && p.sh.WaitOver() && !p.MidPush()
    ensures p.lock.ByWorker?
    ensures Step(p, Work(p.lock.worker)).Some?
    ensures Step(p, Work(p.lock.worker)).value.owner == Reacquire(p.owner.destroy)
  {
    DueMeansPredicate(p);
    var w :| 0 <= w < |p.ws| && p.ws[w].NotifyTest?;
    assert p.lock == ByWorker(w);
  }
}
