/** A wait, and with it a destructor, can always finish, unless a pause() has stranded it. */
module PoolCompletion {
  import opened PoolMachine
  import opened PoolInvariant
  import opened PoolRanks
  import opened PoolTheorems
  import opened PoolStranding
  import opened PoolWaiting

  // ----- Measures -----

  /** The statements that a worker still has to take on behalf of its task. */
  function WorkRank<T>(pc: WorkerPc<T>): nat {
    match pc
    case Releasing(_) => 5
    case Busy(_) => 4
    case Relocking => 3
    case Decrement => 2
    case NotifyTest => 1
    case _ => 0
  }

  function WorkRanks<T>(ws: seq<WorkerPc<T>>): nat {
    if ws == [] then 0 else WorkRanks(ws[..|ws| - 1]) + WorkRank(ws[|ws| - 1])
  }

  lemma {:induction false} WorkRanksUpdate<T>(ws: seq<WorkerPc<T>>, w: nat, pc: WorkerPc<T>)
    requires w < |ws|
    ensures WorkRanks(ws[w := pc]) + WorkRank(ws[w]) == WorkRanks(ws) + WorkRank(pc)
  {
    var last := |ws| - 1;
    if w < last {
      WorkRanksUpdate(ws[..last], w, pc);
      assert ws[w := pc][..last] == ws[..last][w := pc];
    } else {
      assert ws[w := pc][..last] == ws[..last];
    }
  }

  /** How far the waiting client is from its next test, or from falling asleep. */
  function WaitRank(owner: OwnerPc): nat {
    match owner
    case Announce(_) => 5
    case WaitLock(_) => 4
    case Reacquire(_) => 3
    case Testing(_) => 2
    case Sleeping(_) => 1
    case _ => 0
  }

  /** With tasks to pop: how far worker 0 is from popping one. */
  function SeekPart<T>(p: Pool<T>): nat
    requires p.ws != []
  {
    if p.sh.tasks != [] && !p.sh.paused then SeekRank(p.ws[0]) else 0
  }

  // ----- The wait -----

  /** A client waits, and its wait has not succeeded yet. */
  predicate Awaits(o: OwnerPc) { o.Announce? || o.WaitLock? || o.Testing? || o.Sleeping? || o.Reacquire? }

  /** No client is inside push_task or a query of the queue. */
  predicate ClientsOut<T>(p: Pool<T>) { !p.lock.ByPusher? && !p.lock.ByReader? }

  /** A step of the pool itself: of a worker, of a task that ends, or of the client that waits. */
  predicate OwnStep<T>(l: Label<T>) { l.Work? || l.TaskEnds? || l.Wake? || l.OwnerWork? }

  ghost predicate Waiting<T>(p: Pool<T>) {
    Inv(p) && SleepsForTasks(p) && !Stranded(p) && p.ws != [] && Awaits(p.owner) && ClientsOut(p)
  }

  /** Closer to the end of the wait: fewer tasks, less work on them, a test, a pop, or a release of the mutex. */
  ghost predicate Closer<T>(p: Pool<T>, q: Pool<T>)
    requires p.ws != [] && q.ws != []
  {
    || |q.sh.tasks| < |p.sh.tasks|
    || (|q.sh.tasks| == |p.sh.tasks|
        && (|| WorkRanks(q.ws) < WorkRanks(p.ws)
            || (WorkRanks(q.ws) == WorkRanks(p.ws)
                && (|| WaitRank(q.owner) < WaitRank(p.owner)
                    || (WaitRank(q.owner) == WaitRank(p.owner)
                        && (SeekPart(q) < SeekPart(p) || (SeekPart(q) == SeekPart(p) && HoldPart(q) < HoldPart(p))))))))
  }

  lemma WorkerKeepsPool<T>(p: Pool<T>, w: nat)
    requires w < |p.ws| && WorkerStep(p, w).Some?
    ensures WorkerStep(p, w).value.sh.paused == p.sh.paused
    ensures !(p.ws[w].Take? && p.sh.tasks != []) ==> WorkerStep(p, w).value.sh.tasks == p.sh.tasks
    ensures p.ws[w].Take? && p.sh.tasks != [] ==> |WorkerStep(p, w).value.sh.tasks| == |p.sh.tasks| - 1
    ensures !p.ws[w].NotifyTest? ==> WorkerStep(p, w).value.owner == p.owner
  {
  }

  lemma WorkingStepIsCloser<T>(p: Pool<T>, w: nat)
    requires Waiting(p) && w < |p.ws| && WorkerStep(p, w).Some? && WorkRank(p.ws[w]) > 0
    ensures WorkerStep(p, w).value.ws != [] && Closer(p, WorkerStep(p, w).value)
  {
    var q := WorkerStep(p, w).value;
    WorkerMovesAlone(p, w);
    WorkerKeepsPool(p, w);
    WorkRanksUpdate(p.ws, w, q.ws[w]);
    WorkGoesOn(p, w);
  }

  lemma WorkGoesOn<T>(p: Pool<T>, w: nat)
    requires w < |p.ws| && WorkerStep(p, w).Some? && WorkRank(p.ws[w]) > 0
    ensures w < |WorkerStep(p, w).value.ws| && WorkRank(WorkerStep(p, w).value.ws[w]) < WorkRank(p.ws[w])
  {
  }

  lemma TaskEndIsCloser<T>(p: Pool<T>, w: nat)
    requires Waiting(p) && w < |p.ws| && p.ws[w].Busy?
    ensures Step(p, TaskEnds(w)).Some? && Step(p, TaskEnds(w)).value.ws != [] && Closer(p, Step(p, TaskEnds(w)).value)
  {
    WorkRanksUpdate(p.ws, w, Relocking);
  }

  lemma PopIsCloser<T>(p: Pool<T>, w: nat)
    requires Waiting(p) && w < |p.ws| && p.ws[w].Take? && p.sh.tasks != []
    ensures WorkerStep(p, w).Some? && WorkerStep(p, w).value.ws != [] && Closer(p, WorkerStep(p, w).value)
  {
    WorkerMovesAlone(p, w);
    WorkerKeepsPool(p, w);
  }

  /** An idle worker that holds the mutex, while the pool is running, steps towards its release. */
  lemma IdleHolderGoes<T>(p: Pool<T>, w: nat)
    requires Mutex(p) && Flags(p) && p.sh.running && w < |p.ws| && p.lock == ByWorker(w) && WorkRank(p.ws[w]) == 0
    requires !(p.ws[w].Take? && p.sh.tasks != [])
    ensures WorkerStep(p, w).Some?
    ensures
      var q := WorkerStep(p, w).value;
      && |q.ws| == |p.ws| && WorkRank(q.ws[w]) == 0 && q.sh == p.sh && q.owner == p.owner
      && (q.lock.Free? || q.lock == p.lock)
      && HoldPart(q) < HoldPart(p)
      && (p.sh.tasks != [] && !p.sh.paused ==> SeekRank(q.ws[w]) < SeekRank(p.ws[w]))
  {
  }

  lemma IdleHolderIsCloser<T>(p: Pool<T>, w: nat)
    requires Waiting(p) && w < |p.ws| && p.lock == ByWorker(w) && WorkRank(p.ws[w]) == 0
    requires !(p.ws[w].Take? && p.sh.tasks != [])
    ensures WorkerStep(p, w).Some? && WorkerStep(p, w).value.ws != [] && Closer(p, WorkerStep(p, w).value)
  {
    IdleHolderGoes(p, w);
    var q := WorkerStep(p, w).value;
    WorkerMovesAlone(p, w);
    WorkRanksUpdate(p.ws, w, q.ws[w]);
  }

  /** Worker 0 looks for a task: its next statement while it does not hold the mutex, which is free. */
  lemma SeekerIsCloser<T>(p: Pool<T>) returns (l: Label<T>)
    requires Waiting(p) && p.lock.Free? && WorkRank(p.ws[0]) == 0 && p.sh.tasks != [] && !p.sh.paused
    ensures OwnStep(l) && Step(p, l).Some? && Step(p, l).value.ws != [] && Closer(p, Step(p, l).value)
  {
    l := if p.ws[0].Asleep? then Wake(0, true) else Work(0);
    SeekerGoes(p);
    var q := Step(p, l).value;
    assert q.ws == p.ws[0 := q.ws[0]];
    WorkRanksUpdate(p.ws, 0, q.ws[0]);
  }

  lemma SeekerGoes<T>(p: Pool<T>)
    requires Mutex(p) && Flags(p) && p.sh.running && p.ws != [] && p.lock.Free? && WorkRank(p.ws[0]) == 0 && p.sh.tasks != []
    ensures
      var l := if p.ws[0].Asleep? then Wake(0, true) else Work(0);
      && Step(p, l).Some?
      && var q := Step(p, l).value;
         && |q.ws| == |p.ws| && q.ws == p.ws[0 := q.ws[0]] && q.sh == p.sh && q.owner == p.owner
         && WorkRank(q.ws[0]) == 0 && SeekRank(q.ws[0]) < SeekRank(p.ws[0])
  {
  }

  lemma {:induction false} NoWorkRanks<T>(ws: seq<WorkerPc<T>>)
    requires forall w :: 0 <= w < |ws| ==> WorkRank(ws[w]) == 0
    ensures InFlight(ws) == 0
  {
    if ws != [] {
      NoWorkRanks(ws[..|ws| - 1]);
    }
  }

  /** Nothing is left to do for the workers: the client tests its predicate, or is about to. */
  lemma OwnerIsCloser<T>(p: Pool<T>)
    requires Waiting(p) && OwnerStep(p).Some?
    ensures OwnerStep(p).value.ws != [] && (Awaits(OwnerStep(p).value.owner) ==> Closer(p, OwnerStep(p).value))
  {
  }

  lemma OwnerCanStep<T>(p: Pool<T>)
    requires Waiting(p) && p.lock.Free? && (p.sh.paused || p.sh.tasks == [])
    requires forall w :: 0 <= w < |p.ws| ==> WorkRank(p.ws[w]) == 0
    ensures OwnerStep(p).Some?
  {
    if p.owner.Sleeping? {
      NoWorkRanks(p.ws);
      assert forall w :: 0 <= w < |p.ws| ==> WorkRank(p.ws[w]) == 0 && !p.ws[w].InFlight() && !p.ws[w].NotifyTest?;
    }
  }

  /** Some thread of the pool can step towards the end of the wait. */
  lemma WaitAdvances<T>(p: Pool<T>) returns (l: Label<T>)
    requires Waiting(p)
    ensures OwnStep(l) && Step(p, l).Some? && Step(p, l).value.ws != []
    ensures Awaits(Step(p, l).value.owner) ==> Closer(p, Step(p, l).value)
  {
    if p.lock.ByOwner? {
      l := OwnerWork;
      OwnerIsCloser(p);
    } else if p.lock.ByWorker? {
      l := HolderAdvances(p);
    } else if exists w :: 0 <= w < |p.ws| && WorkRank(p.ws[w]) > 0 {
      var w :| 0 <= w < |p.ws| && WorkRank(p.ws[w]) > 0;
      l := WorkerAdvances(p, w);
    } else if p.sh.tasks != [] && !p.sh.paused {
      l := SeekerIsCloser(p);
    } else {
      l := OwnerWork;
      OwnerCanStep(p);
      OwnerIsCloser(p);
    }
  }

  lemma HolderAdvances<T>(p: Pool<T>) returns (l: Label<T>)
    requires Waiting(p) && p.lock.ByWorker?
    ensures OwnStep(l) && Step(p, l).Some? && Step(p, l).value.ws != [] && Closer(p, Step(p, l).value)
  {
    var w := p.lock.worker;
    l := Work(w);
    if WorkRank(p.ws[w]) > 0 {
      WorkingStepIsCloser(p, w);
    } else if p.ws[w].Take? && p.sh.tasks != [] {
      PopIsCloser(p, w);
    } else {
      IdleHolderIsCloser(p, w);
    }
  }

  lemma WorkerAdvances<T>(p: Pool<T>, w: nat) returns (l: Label<T>)
    requires Waiting(p) && p.lock.Free? && w < |p.ws| && WorkRank(p.ws[w]) > 0
    ensures OwnStep(l) && Step(p, l).Some? && Step(p, l).value.ws != [] && Closer(p, Step(p, l).value)
  {
    if p.ws[w].Busy? {
      l := TaskEnds(w);
      TaskEndIsCloser(p, w);
    } else {
      l := Work(w);
      WorkingStepIsCloser(p, w);
    }
  }

  lemma OwnStepKeepsClientsOut<T>(p: Pool<T>, l: Label<T>)
    requires ClientsOut(p) && OwnStep(l) && Step(p, l).Some?
    ensures ClientsOut(Step(p, l).value)
  {
  }

  lemma OwnStepKeepsDestroying<T>(p: Pool<T>, l: Label<T>)
    requires OwnStep(l) && Step(p, l).Some?
    ensures p.owner.Destroys() ==> Step(p, l).value.owner.Destroys()
    ensures HasWaited(p.owner) ==> HasWaited(Step(p, l).value.owner)
    ensures Awaits(p.owner) ==> Awaits(Step(p, l).value.owner) || Step(p, l).value.owner.Clear?
  {
  }

  ghost predicate OwnSteps<T>(labels: seq<Label<T>>) {
    forall l :: l in labels ==> OwnStep(l)
  }

  lemma {:induction false} WaitCanSucceed<T>(p: Pool<T>) returns (labels: seq<Label<T>>)
    requires Waiting(p)
    ensures CanRun(p, labels) && OwnSteps(labels)
    ensures
      var q := Final(p, labels);
      Inv(q) && ClientsOut(q) && q.owner.Clear? && (p.owner.Destroys() ==> q.owner.Destroys())
    decreases |p.sh.tasks|, WorkRanks(p.ws), WaitRank(p.owner), SeekPart(p), HoldPart(p)
  {
    var l := WaitAdvances(p);
    var q := Step(p, l).value;
    StepKeepsInv(p, l);
    StrandedExactly(p, l);
    OwnStepKeepsClientsOut(p, l);
    OwnStepKeepsDestroying(p, l);
    var rest := [];
    if Awaits(q.owner) {
      rest := WaitCanSucceed(q);
    }
    labels := [l] + rest;
    assert labels[1..] == rest;
  }

  // ----- Joining the workers -----

  ghost predicate Leaving<T>(p: Pool<T>) { Inv(p) && ClientsOut(p) && HasWaited(p.owner) }

  lemma WorkerHeadsForExit<T>(p: Pool<T>, l: Label<T>)
    requires Flags(p) && p.owner.ShuttingDown() && (l.Work? || l.TaskEnds? || l.Wake?) && Step(p, l).Some?
    ensures Step(p, l).value.owner == p.owner
    ensures |Step(p, l).value.ws| == |p.ws| && ExitRanks(Step(p, l).value.ws) < ExitRanks(p.ws)
  {
    var q := Step(p, l).value;
    OwnStepHeadsForExit(p, l);
    if l.Work? {
      WorkerMovesAlone(p, l.w);
      ShutdownKeepsOwner(p, l.w);
    }
    assert q.ws == p.ws[l.w := q.ws[l.w]];
    ExitRanksUpdate(p.ws, l.w, q.ws[l.w]);
  }

  lemma ShutdownKeepsOwner<T>(p: Pool<T>, w: nat)
    requires w < |p.ws| && WorkerStep(p, w).Some? && !p.owner.Sleeping?
    ensures WorkerStep(p, w).value.owner == p.owner
  {
  }

  /** The destructor's own statement, or one of the worker it joins or of the worker that holds the mutex. */
  lemma LeavingAdvances<T>(p: Pool<T>) returns (l: Label<T>)
    requires Leaving(p) && !p.owner.Destroyed?
    ensures OwnStep(l) && Step(p, l).Some?
    ensures
      var q := Step(p, l).value;
      && |q.ws| == |p.ws|
      && (OwnerRank(q.owner, |p.ws|) < OwnerRank(p.owner, |p.ws|)
          || (q.owner == p.owner && ExitRanks(q.ws) < ExitRanks(p.ws)))
  {
    if p.owner.Joining? && p.owner.next < |p.ws| && !p.ws[p.owner.next].Exited? {
      var i := p.owner.next;
      l := if p.lock.ByWorker? then Work(p.lock.worker)
           else if p.ws[i].Busy? then TaskEnds(i)
           else if p.ws[i].Asleep? then Wake(i, true)
           else Work(i);
      JoinedCanStep(p, i, l);
      WorkerHeadsForExit(p, l);
    } else {
      l := OwnerWork;
      OwnerFinishes(p);
    }
  }

  lemma JoinedCanStep<T>(p: Pool<T>, i: nat, l: Label<T>)
    requires Mutex(p) && ClientsOut(p) && p.owner.Joining? && i < |p.ws| && !p.ws[i].Exited?
    requires l == if p.lock.ByWorker? then Work(p.lock.worker)
                  else if p.ws[i].Busy? then TaskEnds(i)
                  else if p.ws[i].Asleep? then Wake(i, true)
                  else Work(i)
    ensures Step(p, l).Some?
  {
  }

  lemma OwnerFinishes<T>(p: Pool<T>)
    requires HasWaited(p.owner) && !p.owner.Destroyed?
    requires !(p.owner.Joining? && p.owner.next < |p.ws| && !p.ws[p.owner.next].Exited?)
    ensures OwnerStep(p).Some? && |OwnerStep(p).value.ws| == |p.ws|
    ensures OwnerRank(OwnerStep(p).value.owner, |p.ws|) < OwnerRank(p.owner, |p.ws|)
  {
  }

  lemma {:induction false} WorkersCanBeJoined<T>(p: Pool<T>) returns (labels: seq<Label<T>>)
    requires Leaving(p)
    ensures CanRun(p, labels) && OwnSteps(labels) && Final(p, labels).owner.Destroyed?
    decreases OwnerRank(p.owner, |p.ws|), ExitRanks(p.ws)
  {
    if p.owner.Destroyed? {
      labels := [];
    } else {
      var l := LeavingAdvances(p);
      StepKeepsInv(p, l);
      OwnStepKeepsClientsOut(p, l);
      OwnStepKeepsDestroying(p, l);
      var rest := WorkersCanBeJoined(Step(p, l).value);
      labels := [l] + rest;
      assert labels[1..] == rest;
    }
  }

  // ----- Clients inside a call -----

  /** A step that finishes the call of a client; `task` is what it may be about to push. */
  ghost predicate Finishes<T>(l: Label<T>, task: T) { l == PushQueue(task) || l == PushCount || l == PushUnlock || l == ReadUnlock }

  ghost predicate FinishingSteps<T>(labels: seq<Label<T>>, task: T) {
    forall l :: l in labels ==> OwnStep(l) || Finishes(l, task)
  }

  /** How far the client that holds the mutex is from releasing it. */
  function ClientRank(lock: Lock): nat {
    match lock
    case ByPusher(_, phase) => (match phase case Entered => 3 case Queued => 2 case Tallied => 1)
    case ByReader(_) => 1
    case _ => 0
  }

  lemma ClientSteps<T>(p: Pool<T>, task: T) returns (l: Label<T>)
    requires !ClientsOut(p)
    ensures Finishes(l, task) && Step(p, l).Some? && ClientRank(Step(p, l).value.lock) < ClientRank(p.lock)
    ensures Step(p, l).value.owner == p.owner && Step(p, l).value.ws == p.ws
  {
    match p.lock {
      case ByReader(_) => l := ReadUnlock;
      case ByPusher(_, phase) =>
        l := match phase case Entered => PushQueue(task) case Queued => PushCount case Tallied => PushUnlock;
    }
  }

  lemma {:induction false} ClientsLeave<T>(p: Pool<T>, task: T) returns (labels: seq<Label<T>>)
    requires Inv(p) && SleepsForTasks(p) && !Stranded(p)
    ensures CanRun(p, labels) && FinishingSteps(labels, task)
    ensures
      var q := Final(p, labels);
      Inv(q) && SleepsForTasks(q) && !Stranded(q) && ClientsOut(q) && q.owner == p.owner && q.ws == p.ws
    decreases ClientRank(p.lock)
  {
    if ClientsOut(p) {
      labels := [];
    } else {
      var l := ClientSteps(p, task);
      StepKeepsInv(p, l);
      StrandedExactly(p, l);
      var rest := ClientsLeave(Step(p, l).value, task);
      labels := [l] + rest;
      assert labels[1..] == rest;
    }
  }

  /** From where the clients have left, the pool finishes its destruction by itself. */
  lemma PoolFinishes<T>(p: Pool<T>) returns (labels: seq<Label<T>>)
    requires Inv(p) && SleepsForTasks(p) && !Stranded(p) && ClientsOut(p) && p.ws != [] && p.owner.Destroys()
    ensures CanRun(p, labels) && OwnSteps(labels) && Final(p, labels).owner.Destroyed?
  {
    var first := [];
    if StillWaits(p.owner) {
      first := WaitCanSucceed(p);
    }
    var rest := WorkersCanBeJoined(Final(p, first));
    RunAppend(p, first, rest);
    labels := first + rest;
  }

  // ----- When a wait can return -----

  /** By steps of the pool's own threads and the rest of the calls that clients are in, the wait can return. */
  ghost predicate CanReturn<T(!new)>(p: Pool<T>, task: T) {
    exists more :: CanRun(p, more) && FinishingSteps(more, task) && Returning(Final(p, more).owner)
  }

  /** By such steps the destructor can finish. */
  ghost predicate CanFinish<T(!new)>(p: Pool<T>, task: T) {
    exists more :: CanRun(p, more) && FinishingSteps(more, task) && Final(p, more).owner.Destroyed?
  }

  lemma StrandedNeverMoves<T(!new)>(p: Pool<T>, task: T)
    requires Inv(p) && Stranded(p)
    ensures !CanReturn(p, task) && !CanFinish(p, task)
  {
    forall more | CanRun(p, more) && FinishingSteps(more, task)
      ensures Final(p, more).owner == p.owner
    {
      StrandedForGood(p, more);
    }
  }

  lemma UnstrandedReturns<T(!new)>(p: Pool<T>, task: T)
    requires Inv(p) && SleepsForTasks(p) && !Stranded(p) && p.ws != [] && Awaits(p.owner)
    ensures CanReturn(p, task)
  {
    var first := ClientsLeave(p, task);
    var rest := WaitCanSucceed(Final(p, first));
    RunAppend(p, first, rest);
    assert Returning(Final(p, first + rest).owner);
  }

  lemma UnstrandedFinishes<T(!new)>(p: Pool<T>, task: T)
    requires Inv(p) && SleepsForTasks(p) && !Stranded(p) && p.ws != [] && p.owner.Destroys()
    ensures CanFinish(p, task)
  {
    var first := ClientsLeave(p, task);
    var rest := PoolFinishes(Final(p, first));
    RunAppend(p, first, rest);
    assert Final(p, first + rest).owner.Destroyed?;
  }

  lemma Reached<T>(threads: nat, labels: seq<Label<T>>)
    requires threads > 0 && CanRun(Init<T>(threads), labels)
    ensures
      var p := Final(Init<T>(threads), labels);
      Inv(p) && SleepsForTasks(p) && p.ws != []
  {
    InitInv<T>(threads);
    RunKeepsInv(Init<T>(threads), labels);
    RunKeepsSleeps(Init<T>(threads), labels);
    RunKeepsSize(Init<T>(threads), labels);
  }

  /**
   Exactly when wait_for_tasks can return: at every moment of every run, a wait that has begun can return, by
   steps of the pool's own threads and the rest of the calls that clients are in and without a spurious
   wake-up, if and only if it is not stranded.
   */
  lemma WaitCanReturnIff<T(!new)>(threads: nat, labels: seq<Label<T>>, task: T)
    requires threads > 0 && CanRun(Init<T>(threads), labels) && Awaits(Final(Init<T>(threads), labels).owner)
    ensures CanReturn(Final(Init<T>(threads), labels), task) <==> !Stranded(Final(Init<T>(threads), labels))
  {
    var p := Final(Init<T>(threads), labels);
    Reached(threads, labels);
    if Stranded(p) {
      StrandedNeverMoves(p, task);
    } else {
      UnstrandedReturns(p, task);
    }
  }

  /** And a destructor that has been called can finish in that way if and only if its wait is not stranded. */
  lemma DestructorCanFinishIff<T(!new)>(threads: nat, labels: seq<Label<T>>, task: T)
    requires threads > 0 && CanRun(Init<T>(threads), labels) && Final(Init<T>(threads), labels).owner.Destroys()
    ensures CanFinish(Final(Init<T>(threads), labels), task) <==> !Stranded(Final(Init<T>(threads), labels))
  {
    var p := Final(Init<T>(threads), labels);
    Reached(threads, labels);
    if Stranded(p) {
      StrandedNeverMoves(p, task);
    } else {
      UnstrandedFinishes(p, task);
    }
  }

  lemma {:induction false} RunKeepsSize<T>(p: Pool<T>, labels: seq<Label<T>>)
    requires CanRun(p, labels)
    ensures |Final(p, labels).ws| == |p.ws|
    decreases |labels|
  {
    if labels != [] {
      StepKeepsSize(p, labels[0]);
      RunKeepsSize(Step(p, labels[0]).value, labels[1..]);
    }
  }

  lemma StepKeepsSize<T>(p: Pool<T>, l: Label<T>)
    requires Step(p, l).Some?
    ensures |Step(p, l).value.ws| == |p.ws|
  {
  }
}
