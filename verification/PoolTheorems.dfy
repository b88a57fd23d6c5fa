/** What the worker pool promises its clients, over every run of the machine. */
module PoolTheorems {
  import opened PoolMachine
  import opened PoolInvariant

  /**
   Conservation over whole runs: whatever the interleaving, tasks are started in the order of the
   pushes, none twice, and each started task is either finished or held by one worker.
   */
  lemma RunsConserveTasks<T>(threads: nat, labels: seq<Label<T>>)
    requires CanRun(Init<T>(threads), labels)
    ensures
      var p := Final(Init<T>(threads), labels);
      && p.pushed == p.started + p.sh.tasks
      && multiset(p.started) == multiset(p.finished) + Held(p.ws)
      && p.sh.total + (if p.MidPush() then 1 else 0) == |p.sh.tasks| + InFlight(p.ws)
      && 0 <= p.sh.total
  {
    InitInv<T>(threads);
    RunKeepsInv(Init<T>(threads), labels);
  }

  /** A client inside get_tasks_running reads exactly the number of tasks in flight; the subtraction cannot wrap. */
  lemma TasksRunningIsExact<T>(threads: nat, labels: seq<Label<T>>)
    requires CanRun(Init<T>(threads), labels)
    requires Final(Init<T>(threads), labels).lock.ByReader?
    ensures
      var p := Final(Init<T>(threads), labels);
      |p.sh.tasks| <= p.sh.total && p.sh.total - |p.sh.tasks| == InFlight(p.ws)
  {
    RunsConserveTasks(threads, labels);
  }

  // ----- Order of the tasks -----

  lemma StepExtends<T>(p: Pool<T>, l: Label<T>)
    requires Step(p, l).Some?
    ensures p.started <= Step(p, l).value.started
    ensures p.pushed <= Step(p, l).value.pushed
  {
  }

  /** The histories only grow. */
  lemma {:induction false} RunExtends<T>(p: Pool<T>, labels: seq<Label<T>>)
    requires CanRun(p, labels)
    ensures p.started <= Final(p, labels).started
    ensures p.pushed <= Final(p, labels).pushed
    decreases |labels|
  {
    if labels != [] {
      StepExtends(p, labels[0]);
      RunExtends(Step(p, labels[0]).value, labels[1..]);
    }
  }

  /**
   First in, first out: a task pushed as number i is, if it has been started by the end of a run,
   the one started as number i, and then all tasks pushed before it have been started.
   */
  lemma StartsInPushOrder<T>(threads: nat, labels: seq<Label<T>>, i: nat)
    requires CanRun(Init<T>(threads), labels)
    requires i < |Final(Init<T>(threads), labels).started|
    ensures
      var p := Final(Init<T>(threads), labels);
      i < |p.pushed| && p.started[i] == p.pushed[i]
  {
    RunsConserveTasks(threads, labels);
    var p := Final(Init<T>(threads), labels);
    assert p.pushed[i] == (p.started + p.sh.tasks)[i];
  }

  // ----- pause() -----

  /** A worker has passed the test of paused_ and is about to pop: it holds the mutex, so there is at most one. */
  predicate Committed<T>(p: Pool<T>) {
    p.lock.ByWorker? && p.lock.worker < |p.ws| && p.ws[p.lock.worker].Take?
  }

  /** The tasks started so far, and the one that can no longer be held back. */
  function Starts<T>(p: Pool<T>): nat { |p.started| + if Committed(p) then 1 else 0 }

  ghost predicate NoUnpause<T>(labels: seq<Label<T>>) {
    forall l :: l in labels ==> !l.Unpause?
  }

  lemma PausedWorkerStep<T>(p: Pool<T>, w: nat)
    requires Mutex(p) && p.sh.paused && w < |p.ws| && WorkerStep(p, w).Some?
    ensures WorkerStep(p, w).value.sh.paused
    ensures Starts(WorkerStep(p, w).value) <= Starts(p)
  {
  }

  lemma PausedStep<T>(p: Pool<T>, l: Label<T>)
    requires Mutex(p) && p.sh.paused && Step(p, l).Some? && !l.Unpause?
    ensures Step(p, l).value.sh.paused
    ensures Starts(Step(p, l).value) <= Starts(p)
  {
    if l.Work? {
      PausedWorkerStep(p, l.w);
    }
  }

  lemma {:induction false} PausedRun<T>(p: Pool<T>, labels: seq<Label<T>>)
    requires Inv(p) && p.sh.paused && CanRun(p, labels) && NoUnpause(labels)
    ensures Final(p, labels).sh.paused
    ensures Starts(Final(p, labels)) <= Starts(p)
    decreases |labels|
  {
    if labels != [] {
      assert labels[0] in labels;
      assert forall l :: l in labels[1..] ==> l in labels;
      PausedStep(p, labels[0]);
      StepKeepsInv(p, labels[0]);
      PausedRun(Step(p, labels[0]).value, labels[1..]);
    }
  }

  /**
   Once pause() has written the flag, at most one more task is ever started until unpause(), however
   many workers there are and whatever they were doing.
   */
  lemma AtMostOneStartAfterPause<T>(p: Pool<T>, labels: seq<Label<T>>)
    requires Inv(p) && Step(p, Pause).Some?
    requires CanRun(Step(p, Pause).value, labels) && NoUnpause(labels)
    ensures
      var q := Final(Step(p, Pause).value, labels);
      |q.started| <= |p.started| + 1
  {
    StepKeepsInv(p, Pause);
    PausedRun(Step(p, Pause).value, labels);
  }

  /** In flight tasks only appear when a task is started. */
  lemma LoadComesFromStarts<T>(p: Pool<T>, l: Label<T>)
    requires Mutex(p) && Step(p, l).Some? && Step(p, l).value.started == p.started
    ensures InFlight(Step(p, l).value.ws) <= InFlight(p.ws)
  {
    var q := Step(p, l).value;
    if l.Work? {
      WorkerMovesAlone(p, l.w);
      LoadFromStart(p, l.w);
      InFlightUpdate(p.ws, l.w, q.ws[l.w]);
    } else if l.TaskEnds? || l.Wake? {
      InFlightUpdate(p.ws, l.w, q.ws[l.w]);
    } else if l.OwnerWork? && p.owner.NotifyAll? {
      WokenSums(p.ws, q.ws);
    } else {
      assert q.ws == p.ws;
    }
  }

  lemma LoadFromStart<T>(p: Pool<T>, w: nat)
    requires w < |p.ws| && WorkerStep(p, w).Some? && |WorkerStep(p, w).value.started| == |p.started|
    ensures |WorkerStep(p, w).value.ws| == |p.ws|
    ensures Load(WorkerStep(p, w).value.ws[w]) <= Load(p.ws[w])
  {
  }

  /** The pool is at rest under pause: nothing in flight and no worker about to pop. */
  ghost predicate AtRest<T>(p: Pool<T>) {
    p.sh.paused && InFlight(p.ws) == 0 && !Committed(p)
  }

  lemma {:induction false} RestIsStable<T>(p: Pool<T>, labels: seq<Label<T>>)
    requires Inv(p) && AtRest(p) && CanRun(p, labels) && NoUnpause(labels)
    ensures AtRest(Final(p, labels))
    ensures Final(p, labels).started == p.started
    decreases |labels|
  {
    if labels != [] {
      var q := Step(p, labels[0]).value;
      assert labels[0] in labels;
      assert forall l :: l in labels[1..] ==> l in labels;
      PausedStep(p, labels[0]);
      StepExtends(p, labels[0]);
      assert q.started == p.started;
      LoadComesFromStarts(p, labels[0]);
      StepKeepsInv(p, labels[0]);
      RestIsStable(q, labels[1..]);
    }
  }

  // ----- Shutdown -----

  /** After ~thread_pool every worker has left its loop and every task that was started has finished. */
  lemma DestroyedPoolIsQuiet<T>(threads: nat, labels: seq<Label<T>>)
    requires CanRun(Init<T>(threads), labels)
    requires Final(Init<T>(threads), labels).owner.Destroyed?
    ensures
      var p := Final(Init<T>(threads), labels);
      && (forall w :: 0 <= w < |p.ws| ==> p.ws[w].Exited?)
      && multiset(p.finished) == multiset(p.started)
      && p.pushed == p.started + p.sh.tasks
  {
    InitInv<T>(threads);
    RunKeepsInv(Init<T>(threads), labels);
    InFlightZero(Final(Init<T>(threads), labels).ws);
  }

  /** A bound on the steps a worker takes before it exits, once running_ is cleared. */
  function ExitRank<T>(pc: WorkerPc<T>): nat {
    match pc
    case ReadPaused => 9
    case Take => 8
    case Releasing(_) => 7
    case Busy(_) => 6
    case Relocking => 5
    case Decrement => 4
    case NotifyTest => 3
    case Asleep => 6
    case Waking(_) => 5
    case Predicate => 4
    case ReadRunning => 3
    case Leaving(exit) => if exit then 1 else 2
    case LoopTest => 1
    case Locking => 3
    case Recheck => 2
    case Exited => 0
  }

  /** The step is taken by worker w: a statement, the end of its task, or a wake-up. */
  predicate StepOf<T>(l: Label<T>, w: nat) { (l.Work? || l.TaskEnds? || l.Wake?) && l.w == w }

  function StepsOf<T>(labels: seq<Label<T>>, w: nat): nat {
    if labels == [] then 0 else (if StepOf(labels[0], w) then 1 else 0) + StepsOf(labels[1..], w)
  }

  lemma OwnStepHeadsForExit<T>(p: Pool<T>, l: Label<T>)
    requires Flags(p) && p.owner.ShuttingDown() && (l.Work? || l.TaskEnds? || l.Wake?) && Step(p, l).Some?
    ensures |Step(p, l).value.ws| == |p.ws| && Step(p, l).value.owner.ShuttingDown()
    ensures ExitRank(Step(p, l).value.ws[l.w]) < ExitRank(p.ws[l.w])
    ensures forall w :: 0 <= w < |p.ws| && w != l.w ==> Step(p, l).value.ws[w] == p.ws[w]
  {
    if l.Work? {
      WorkerMovesAlone(p, l.w);
      WorkerKeepsJoining(p, l.w);
      StatementHeadsForExit(p, l.w);
    }
  }

  lemma StatementHeadsForExit<T>(p: Pool<T>, w: nat)
    requires !p.sh.running && w < |p.ws| && WorkerStep(p, w).Some?
    ensures |WorkerStep(p, w).value.ws| == |p.ws| && ExitRank(WorkerStep(p, w).value.ws[w]) < ExitRank(p.ws[w])
  {
  }

  lemma OtherStepKeepsExitRank<T>(p: Pool<T>, l: Label<T>, w: nat)
    requires Flags(p) && p.owner.ShuttingDown() && !(l.Work? || l.TaskEnds? || l.Wake?) && Step(p, l).Some?
    requires w < |p.ws|
    ensures |Step(p, l).value.ws| == |p.ws| && Step(p, l).value.owner.ShuttingDown()
    ensures ExitRank(Step(p, l).value.ws[w]) <= ExitRank(p.ws[w])
  {
  }

  lemma StepHeadsForExit<T>(p: Pool<T>, l: Label<T>, w: nat)
    requires Flags(p) && p.owner.ShuttingDown() && Step(p, l).Some? && w < |p.ws|
    ensures |Step(p, l).value.ws| == |p.ws| && Step(p, l).value.owner.ShuttingDown()
    ensures ExitRank(Step(p, l).value.ws[w]) + (if StepOf(l, w) then 1 else 0) <= ExitRank(p.ws[w])
  {
    if l.Work? || l.TaskEnds? || l.Wake? {
      OwnStepHeadsForExit(p, l);
    } else {
      OtherStepKeepsExitRank(p, l, w);
    }
  }

  /**
   Once running_ is cleared a worker takes at most 9 more steps in any run, counting the end of
   the task it may be in as one step: no worker can stay in its loop.
   */
  lemma {:induction false} WorkersHeadForExit<T>(p: Pool<T>, labels: seq<Label<T>>, w: nat)
    requires Inv(p) && p.owner.ShuttingDown() && w < |p.ws| && CanRun(p, labels)
    ensures |Final(p, labels).ws| == |p.ws|
    ensures StepsOf(labels, w) + ExitRank(Final(p, labels).ws[w]) <= ExitRank(p.ws[w]) <= 9
    decreases |labels|
  {
    if labels != [] {
      StepHeadsForExit(p, labels[0], w);
      StepKeepsInv(p, labels[0]);
      WorkersHeadForExit(Step(p, labels[0]).value, labels[1..], w);
    }
  }

  /** Once the destructor has notified all workers none of them sleeps. */
  ghost predicate NobodySleeps<T>(p: Pool<T>) {
    p.owner.Joining? || p.owner.Destroyed? ==> forall w :: 0 <= w < |p.ws| ==> !p.ws[w].Asleep?
  }

  lemma WorkerStaysAwake<T>(p: Pool<T>, w: nat)
    requires !p.sh.running && w < |p.ws| && WorkerStep(p, w).Some?
    ensures !WorkerStep(p, w).value.ws[w].Asleep?
  {
  }

  lemma StepKeepsNobodySleeps<T>(p: Pool<T>, l: Label<T>)
    requires Flags(p) && NobodySleeps(p) && Step(p, l).Some?
    ensures NobodySleeps(Step(p, l).value)
  {
    if l.Work? {
      WorkerMovesAlone(p, l.w);
      WorkerKeepsJoining(p, l.w);
      if !p.sh.running {
        WorkerStaysAwake(p, l.w);
      }
    }
  }

  lemma WorkerKeepsJoining<T>(p: Pool<T>, w: nat)
    requires w < |p.ws| && WorkerStep(p, w).Some?
    ensures WorkerStep(p, w).value.owner == p.owner || WorkerStep(p, w).value.owner.Reacquire?
  {
  }

  lemma {:induction false} RunKeepsNobodySleeps<T>(p: Pool<T>, labels: seq<Label<T>>)
    requires Inv(p) && NobodySleeps(p) && CanRun(p, labels)
    ensures NobodySleeps(Final(p, labels))
    decreases |labels|
  {
    if labels != [] {
      StepKeepsInv(p, labels[0]);
      StepKeepsNobodySleeps(p, labels[0]);
      RunKeepsNobodySleeps(Step(p, labels[0]).value, labels[1..]);
    }
  }

  /** The step that a worker, or whoever holds the mutex it needs, can take; `task` is what a client may be about to push. */
  function Unblocking<T>(p: Pool<T>, w: nat, task: T): Label<T>
    requires w < |p.ws|
  {
    match p.lock
    case ByWorker(v) => Work(v)
    case ByPusher(_, phase) => (match phase case Entered => PushQueue(task) case Queued => PushCount case Tallied => PushUnlock)
    case ByReader(_) => ReadUnlock
    case ByOwner => OwnerWork
    case Free => if p.ws[w].Busy? then TaskEnds(w) else Work(w)
  }

  /**
   At every moment of every run in which the destructor is past its wait and has not finished, it can step, or the
   worker it joins or whoever holds the mutex can.  No step of these is a wake-up: no worker needs its time-out.
   */
  lemma ShutdownNeverBlocks<T>(threads: nat, labels: seq<Label<T>>, task: T)
    requires CanRun(Init<T>(threads), labels)
    requires Final(Init<T>(threads), labels).owner.ShuttingDown() && !Final(Init<T>(threads), labels).owner.Destroyed?
    ensures
      var p := Final(Init<T>(threads), labels);
      || Step(p, OwnerWork).Some?
      || (&& p.owner.Joining? && p.owner.next < |p.ws|
          && Step(p, Unblocking(p, p.owner.next, task)).Some? && !Unblocking(p, p.owner.next, task).Wake?)
  {
    InitInv<T>(threads);
    RunKeepsInv(Init<T>(threads), labels);
    RunKeepsNobodySleeps(Init<T>(threads), labels);
    SomeoneCanStep(Final(Init<T>(threads), labels), task);
  }

  lemma SomeoneCanStep<T>(p: Pool<T>, task: T)
    requires Mutex(p) && NobodySleeps(p) && p.owner.ShuttingDown() && !p.owner.Destroyed?
    ensures
      || Step(p, OwnerWork).Some?
      || (&& p.owner.Joining? && p.owner.next < |p.ws|
          && Step(p, Unblocking(p, p.owner.next, task)).Some? && !Unblocking(p, p.owner.next, task).Wake?)
  {
  }
}
