/**
 Two clients in wait_for_tasks at the same time.  They share the one flag waiting_, which the first to return
 clears; after that no worker notifies the other one any more.
 */
module PoolTwoWaiters {
  import opened Wrappers
  import opened PoolMachine

  /** The pool with its first waiting client, and a second one. */
  datatype Pair<T> = Pair(pool: Pool<T>, second: OwnerPc)

  datatype Turn = First | Second

  /** A step of the pool, and which of the two clients it is about: the one that steps, calls, or is notified. */
  datatype PairLabel<T> = On(l: Label<T>, turn: Turn)

  /** The roles of the two clients exchanged. */
  function Swapped<T>(x: Pair<T>): Pair<T> { Pair(x.pool.(owner := x.second), x.pool.owner) }

  /** notify_one wakes a sleeping client if there is one. */
  predicate WakesASleeper<T>(x: Pair<T>, l: Label<T>) {
    l.Work? && l.w < |x.pool.ws| && x.pool.ws[l.w].NotifyTest? && !x.pool.owner.Sleeping? ==> !x.second.Sleeping?
  }

  function PairStep<T>(x: Pair<T>, pl: PairLabel<T>): Option<Pair<T>> {
    var y := if pl.turn.First? then x else Swapped(x);
    if !WakesASleeper(y, pl.l) then None
    else
      var r := Step(y.pool, pl.l);
      if r.None? then None
      else
        var z := Pair(r.value, y.second);
        Some(if pl.turn.First? then z else Swapped(z))
  }

  predicate CanRunPair<T>(x: Pair<T>, labels: seq<PairLabel<T>>)
    decreases |labels|
  {
    labels == [] || (PairStep(x, labels[0]).Some? && CanRunPair(PairStep(x, labels[0]).value, labels[1..]))
  }

  function FinalPair<T>(x: Pair<T>, labels: seq<PairLabel<T>>): Pair<T>
    requires CanRunPair(x, labels)
    decreases |labels|
  {
    if labels == [] then x else FinalPair(PairStep(x, labels[0]).value, labels[1..])
  }

  // ----- A forgotten client -----

  /** The second client sleeps, nobody else waits, and the workers are told that nobody does. */
  predicate Forgotten<T>(x: Pair<T>) { x.second.Sleeping? && !x.pool.sh.waiting && x.pool.owner.Outside? }

  /** Neither a further wait nor a spurious wake-up. */
  ghost predicate NoFurtherWait<T>(labels: seq<PairLabel<T>>) {
    forall pl :: pl in labels ==> !pl.l.StartWait? && !pl.l.WakeOwner?
  }

  lemma WorkerForgets<T>(p: Pool<T>, w: nat)
    requires w < |p.ws| && WorkerStep(p, w).Some? && !p.sh.waiting
    ensures !WorkerStep(p, w).value.sh.waiting && WorkerStep(p, w).value.owner == p.owner
  {
  }

  lemma PoolForgets<T>(p: Pool<T>, l: Label<T>)
    requires Step(p, l).Some? && !p.sh.waiting && !l.StartWait? && !l.WakeOwner? && (p.owner.Outside? || p.owner.Sleeping?)
    ensures !Step(p, l).value.sh.waiting && Step(p, l).value.owner == p.owner
  {
    if l.Work? {
      WorkerForgets(p, l.w);
    }
  }

  lemma {:induction false} ForgottenForGood<T>(x: Pair<T>, labels: seq<PairLabel<T>>)
    requires Forgotten(x) && CanRunPair(x, labels) && NoFurtherWait(labels)
    ensures Forgotten(FinalPair(x, labels)) && FinalPair(x, labels).second == x.second
    decreases |labels|
  {
    if labels != [] {
      assert labels[0] in labels && forall pl :: pl in labels[1..] ==> pl in labels;
      PoolForgets((if labels[0].turn.First? then x else Swapped(x)).pool, labels[0].l);
      ForgottenForGood(PairStep(x, labels[0]).value, labels[1..]);
    }
  }

  // ----- A run in which that happens -----

  lemma {:induction false} PairAppend<T>(x: Pair<T>, first: seq<PairLabel<T>>, rest: seq<PairLabel<T>>)
    requires CanRunPair(x, first) && CanRunPair(FinalPair(x, first), rest)
    ensures CanRunPair(x, first + rest) && FinalPair(x, first + rest) == FinalPair(FinalPair(x, first), rest)
    decreases |first|
  {
    if first == [] {
      assert first + rest == rest;
    } else {
      assert (first + rest)[1..] == first[1..] + rest;
      PairAppend(PairStep(x, first[0]).value, first[1..], rest);
    }
  }

  /** Four steps, given where each of them leads. */
  lemma PairFour<T>(x: Pair<T>, ls: seq<PairLabel<T>>, x1: Pair<T>, x2: Pair<T>, x3: Pair<T>, x4: Pair<T>)
    requires |ls| == 4
    requires PairStep(x, ls[0]) == Some(x1) && PairStep(x1, ls[1]) == Some(x2)
    requires PairStep(x2, ls[2]) == Some(x3) && PairStep(x3, ls[3]) == Some(x4)
    ensures CanRunPair(x, ls) && FinalPair(x, ls) == x4
  {
    assert ls[1..][1..] == ls[2..] && ls[2..][1..] == ls[3..] && ls[3..][1..] == [];
    assert CanRunPair(x3, ls[3..]) && FinalPair(x3, ls[3..]) == x4;
    assert CanRunPair(x2, ls[2..]) && FinalPair(x2, ls[2..]) == x4;
    assert CanRunPair(x1, ls[1..]) && FinalPair(x1, ls[1..]) == x4;
  }

  /** One worker and task 7, which has been pushed. */
  function At(waiting: bool, tasks: seq<int>, total: int, lock: Lock, pc: WorkerPc<int>, first: OwnerPc, second: OwnerPc): Pair<int> {
    Pair(Pool(Shared(true, waiting, false, tasks, total), lock, [pc], first, [7], if tasks == [] then [7] else [],
              if pc.Relocking? || pc.Decrement? || pc.NotifyTest? || (tasks == [] && (pc.Leaving? || pc.LoopTest?)) then [7] else []),
         second)
  }

  lemma OneWorker(pcs: seq<WorkerPc<int>>)
    ensures forall i :: 0 <= i < |pcs| - 1 ==> [pcs[i]][0 := pcs[i + 1]] == [pcs[i + 1]]
  {
  }

  /** What the client in question does to fall asleep, and what the worker and the first client do then. */
  function Falls(turn: Turn): seq<PairLabel<int>> {
    [On(StartWait(false), turn), On(OwnerWork, turn), On(OwnerWork, turn), On(OwnerWork, turn)]
  }

  const PUSHES: seq<PairLabel<int>> := [On(PushLock(0), First), On(PushQueue(7), First), On(PushCount, First), On(PushUnlock, First)]
  const WORKS: seq<PairLabel<int>> := [On(Work(0), First), On(Work(0), First), On(Work(0), First), On(Work(0), First)]
  const ENDS: seq<PairLabel<int>> := [On(TaskEnds(0), First), On(Work(0), First), On(Work(0), First), On(Work(0), First)]
  const RETURNS: seq<PairLabel<int>> := [On(Work(0), First), On(OwnerWork, First), On(OwnerWork, First), On(OwnerWork, First)]

  const ASLEEP := Sleeping(false)

  lemma TaskIsPushed()
    ensures
      var x := Pair(Init<int>(1), Outside);
      CanRunPair(x, PUSHES) && FinalPair(x, PUSHES) == At(false, [7], 1, Free, LoopTest, Outside, Outside)
  {
    assert Init<int>(1).ws == [LoopTest] && [] + [7] == [7];
    var x := Pair(Init<int>(1), Outside);
    var x1 := x.(pool := x.pool.(lock := ByPusher(0, Entered)));
    var x2 := At(false, [7], 0, ByPusher(0, Queued), LoopTest, Outside, Outside);
    var x3 := At(false, [7], 1, ByPusher(0, Tallied), LoopTest, Outside, Outside);
    PairFour(x, PUSHES, x1, x2, x3, At(false, [7], 1, Free, LoopTest, Outside, Outside));
  }

  lemma FirstFallsAsleep()
    ensures
      var x := At(false, [7], 1, Free, LoopTest, Outside, Outside);
      CanRunPair(x, Falls(First)) && FinalPair(x, Falls(First)) == At(true, [7], 1, Free, LoopTest, ASLEEP, Outside)
  {
    var x1 := At(false, [7], 1, Free, LoopTest, Announce(false), Outside);
    var x2 := At(true, [7], 1, Free, LoopTest, WaitLock(false), Outside);
    var x3 := At(true, [7], 1, ByOwner, LoopTest, Testing(false), Outside);
    PairFour(At(false, [7], 1, Free, LoopTest, Outside, Outside), Falls(First), x1, x2, x3, At(true, [7], 1, Free, LoopTest, ASLEEP, Outside));
  }

  lemma SecondFallsAsleep()
    ensures
      var x := At(true, [7], 1, Free, LoopTest, ASLEEP, Outside);
      CanRunPair(x, Falls(Second)) && FinalPair(x, Falls(Second)) == At(true, [7], 1, Free, LoopTest, ASLEEP, ASLEEP)
  {
    var x1 := At(true, [7], 1, Free, LoopTest, ASLEEP, Announce(false));
    var x2 := At(true, [7], 1, Free, LoopTest, ASLEEP, WaitLock(false));
    var x3 := At(true, [7], 1, ByOwner, LoopTest, ASLEEP, Testing(false));
    PairFour(At(true, [7], 1, Free, LoopTest, ASLEEP, Outside), Falls(Second), x1, x2, x3, At(true, [7], 1, Free, LoopTest, ASLEEP, ASLEEP));
  }

  lemma WorkerFindsTask()
    ensures
      var x := At(true, [7], 1, Free, LoopTest, ASLEEP, ASLEEP);
      CanRunPair(x, WORKS) && FinalPair(x, WORKS) == At(true, [7], 1, ByWorker(0), ReadRunning, ASLEEP, ASLEEP)
  {
    var pcs: seq<WorkerPc<int>> := [LoopTest, Locking, Recheck, Predicate, ReadRunning];
    OneWorker(pcs);
    assert [pcs[0]][0 := pcs[1]] == [pcs[1]];
    assert [pcs[1]][0 := pcs[2]] == [pcs[2]];
    assert [pcs[2]][0 := pcs[3]] == [pcs[3]];
    assert [pcs[3]][0 := pcs[4]] == [pcs[4]];
    var x1 := At(true, [7], 1, Free, Locking, ASLEEP, ASLEEP);
    var x2 := At(true, [7], 1, ByWorker(0), Recheck, ASLEEP, ASLEEP);
    var x3 := At(true, [7], 1, ByWorker(0), Predicate, ASLEEP, ASLEEP);
    PairFour(At(true, [7], 1, Free, LoopTest, ASLEEP, ASLEEP), WORKS, x1, x2, x3, At(true, [7], 1, ByWorker(0), ReadRunning, ASLEEP, ASLEEP));
  }

  lemma WorkerPops()
    ensures PairStep(At(true, [7], 1, ByWorker(0), Take, ASLEEP, ASLEEP), On(Work(0), First))
         == Some(At(true, [], 1, ByWorker(0), Releasing(7), ASLEEP, ASLEEP))
  {
    var pcs: seq<WorkerPc<int>> := [Take, Releasing(7)];
    OneWorker(pcs);
    assert [pcs[0]][0 := pcs[1]] == [pcs[1]] && [7][1..] == [] && [] + [7] == [7];
  }

  lemma WorkerStarts()
    ensures PairStep(At(true, [], 1, ByWorker(0), Releasing(7), ASLEEP, ASLEEP), On(Work(0), First))
         == Some(At(true, [], 1, Free, Busy(7), ASLEEP, ASLEEP))
  {
    var pcs: seq<WorkerPc<int>> := [Releasing(7), Busy(7)];
    OneWorker(pcs);
    assert [pcs[0]][0 := pcs[1]] == [pcs[1]];
  }

  lemma WorkerTakesTask()
    ensures
      var x := At(true, [7], 1, ByWorker(0), ReadRunning, ASLEEP, ASLEEP);
      CanRunPair(x, WORKS) && FinalPair(x, WORKS) == At(true, [], 1, Free, Busy(7), ASLEEP, ASLEEP)
  {
    var pcs: seq<WorkerPc<int>> := [ReadRunning, ReadPaused, Take];
    OneWorker(pcs);
    assert [pcs[0]][0 := pcs[1]] == [pcs[1]] && [pcs[1]][0 := pcs[2]] == [pcs[2]];
    WorkerPops();
    WorkerStarts();
    PairFour(At(true, [7], 1, ByWorker(0), ReadRunning, ASLEEP, ASLEEP), WORKS,
             At(true, [7], 1, ByWorker(0), ReadPaused, ASLEEP, ASLEEP), At(true, [7], 1, ByWorker(0), Take, ASLEEP, ASLEEP),
             At(true, [], 1, ByWorker(0), Releasing(7), ASLEEP, ASLEEP), At(true, [], 1, Free, Busy(7), ASLEEP, ASLEEP));
  }

  lemma WorkerNotifiesFirst()
    ensures
      var x := At(true, [], 1, Free, Busy(7), ASLEEP, ASLEEP);
      CanRunPair(x, ENDS) && FinalPair(x, ENDS) == At(true, [], 0, ByWorker(0), Leaving(false), Reacquire(false), ASLEEP)
  {
    var pcs: seq<WorkerPc<int>> := [Busy(7), Relocking, Decrement, NotifyTest, Leaving(false)];
    OneWorker(pcs);
    assert [pcs[0]][0 := pcs[1]] == [pcs[1]];
    assert [pcs[1]][0 := pcs[2]] == [pcs[2]];
    assert [pcs[2]][0 := pcs[3]] == [pcs[3]];
    assert [pcs[3]][0 := pcs[4]] == [pcs[4]];
    assert [] + [7] == [7];
    var x1 := At(true, [], 1, Free, Relocking, ASLEEP, ASLEEP);
    var x2 := At(true, [], 1, ByWorker(0), Decrement, ASLEEP, ASLEEP);
    var x3 := At(true, [], 0, ByWorker(0), NotifyTest, ASLEEP, ASLEEP);
    PairFour(At(true, [], 1, Free, Busy(7), ASLEEP, ASLEEP), ENDS, x1, x2, x3,
             At(true, [], 0, ByWorker(0), Leaving(false), Reacquire(false), ASLEEP));
  }

  lemma FirstReturns()
    ensures
      var x := At(true, [], 0, ByWorker(0), Leaving(false), Reacquire(false), ASLEEP);
      CanRunPair(x, RETURNS) && FinalPair(x, RETURNS) == At(false, [], 0, ByOwner, LoopTest, WaitUnlock(false), ASLEEP)
  {
    var pcs: seq<WorkerPc<int>> := [Leaving(false), LoopTest];
    OneWorker(pcs);
    assert [pcs[0]][0 := pcs[1]] == [pcs[1]];
    var x1 := At(true, [], 0, Free, LoopTest, Reacquire(false), ASLEEP);
    var x2 := At(true, [], 0, ByOwner, LoopTest, Testing(false), ASLEEP);
    var x3 := At(true, [], 0, ByOwner, LoopTest, Clear(false), ASLEEP);
    PairFour(At(true, [], 0, ByWorker(0), Leaving(false), Reacquire(false), ASLEEP), RETURNS, x1, x2, x3,
             At(false, [], 0, ByOwner, LoopTest, WaitUnlock(false), ASLEEP));
  }

  lemma FirstIsOut()
    ensures
      var x := At(false, [], 0, ByOwner, LoopTest, WaitUnlock(false), ASLEEP);
      && CanRunPair(x, [On(OwnerWork, First)])
      && FinalPair(x, [On(OwnerWork, First)]) == At(false, [], 0, Free, LoopTest, Outside, ASLEEP)
  {
    var ls: seq<PairLabel<int>> := [On(OwnerWork, First)];
    assert ls[1..] == [];
  }

  /**
   A concrete run with one task and two clients waiting for it: the task is done, the first client is
   notified and returns, and the second one sleeps on with its predicate true.  Whatever happens later, unless
   another wait begins or it wakes spuriously, it never wakes.
   */
  lemma SecondWaiterSleepsOn(later: seq<PairLabel<int>>) returns (labels: seq<PairLabel<int>>)
    requires CanRunPair(At(false, [], 0, Free, LoopTest, Outside, ASLEEP), later) && NoFurtherWait(later)
    ensures CanRunPair(Pair(Init<int>(1), Outside), labels)
    ensures
      var x := FinalPair(Pair(Init<int>(1), Outside), labels);
      x == At(false, [], 0, Free, LoopTest, Outside, ASLEEP) && x.second.Sleeping? && x.pool.sh.WaitOver()
    ensures FinalPair(At(false, [], 0, Free, LoopTest, Outside, ASLEEP), later).second.Sleeping?
  {
    var x := Pair(Init<int>(1), Outside);
    TaskIsPushed();
    FirstFallsAsleep();
    PairAppend(x, PUSHES, Falls(First));
    SecondFallsAsleep();
    PairAppend(x, PUSHES + Falls(First), Falls(Second));
    labels := PUSHES + Falls(First) + Falls(Second);
    labels := TaskIsDone(x, labels);
    ForgottenForGood(At(false, [], 0, Free, LoopTest, Outside, ASLEEP), later);
  }

  lemma TaskIsDone(x: Pair<int>, before: seq<PairLabel<int>>) returns (labels: seq<PairLabel<int>>)
    requires CanRunPair(x, before) && FinalPair(x, before) == At(true, [7], 1, Free, LoopTest, ASLEEP, ASLEEP)
    ensures CanRunPair(x, labels) && FinalPair(x, labels) == At(false, [], 0, Free, LoopTest, Outside, ASLEEP)
  {
    WorkerFindsTask();
    PairAppend(x, before, WORKS);
    WorkerTakesTask();
    PairAppend(x, before + WORKS, WORKS);
    WorkerNotifiesFirst();
    PairAppend(x, before + WORKS + WORKS, ENDS);
    FirstReturns();
    PairAppend(x, before + WORKS + WORKS + ENDS, RETURNS);
    FirstIsOut();
    labels := before + WORKS + WORKS + ENDS + RETURNS;
    PairAppend(x, labels, [On(OwnerWork, First)]);
    labels := labels + [On(OwnerWork, First)];
  }
}
