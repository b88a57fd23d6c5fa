/**
 What wait_for_tasks and the destructor's wait guarantee, over every run from the constructor on: a
 wait returns only after it has tested its predicate under the mutex and found it true.
 */
module PoolWaiting {
  import opened PoolMachine
  import opened PoolInvariant
  import opened PoolTheorems

  // ----- Runs and their prefixes -----

  lemma {:induction false} RunSplits<T>(p: Pool<T>, labels: seq<Label<T>>, k: nat)
    requires CanRun(p, labels) && k <= |labels|
    ensures CanRun(p, labels[..k]) && CanRun(Final(p, labels[..k]), labels[k..])
    ensures Final(p, labels) == Final(Final(p, labels[..k]), labels[k..])
    decreases k
  {
    if k == 0 {
      assert labels[..0] == [] && labels[0..] == labels;
    } else {
      assert labels[..k][1..] == labels[1..][..k - 1] && labels[1..][k - 1..] == labels[k..];
      RunSplits(Step(p, labels[0]).value, labels[1..], k - 1);
    }
  }

  /** The last step of a run. */
  lemma LastStep<T>(p: Pool<T>, labels: seq<Label<T>>)
    requires CanRun(p, labels) && labels != []
    ensures
      var k := |labels| - 1;
      && CanRun(p, labels[..k]) && Step(Final(p, labels[..k]), labels[k]).Some?
      && Final(p, labels) == Step(Final(p, labels[..k]), labels[k]).value
  {
    var k := |labels| - 1;
    RunSplits(p, labels, k);
    assert labels[k..] == [labels[k]] && labels[k..][1..] == [];
  }

  // ----- wait_for_tasks -----

  /** The wait has found its predicate true and has not released the mutex yet. */
  predicate Returning(o: OwnerPc) { o.Clear? || o.WaitUnlock? }

  /** The waiting client tests the predicate under the mutex and finds it true. */
  predicate Succeeds<T>(p: Pool<T>, l: Label<T>) { l.OwnerWork? && p.owner.Testing? && p.sh.WaitOver() }

  lemma OnlyATestLetsReturn<T>(p: Pool<T>, l: Label<T>)
    requires Step(p, l).Some? && !Returning(p.owner) && Returning(Step(p, l).value.owner)
    ensures Succeeds(p, l)
    ensures Step(p, l).value.ws == p.ws && Step(p, l).value.sh == p.sh && Step(p, l).value.started == p.started
  {
  }

  lemma TestMeansNothingInFlight<T>(p: Pool<T>)
    requires Inv(p) && p.owner.Testing? && p.sh.WaitOver()
    ensures InFlight(p.ws) == 0 && (!p.sh.paused ==> p.sh.tasks == [])
  {
    assert p.lock == ByOwner;
  }

  /** Until the mutex is released nothing is pushed, popped or started. */
  lemma ReturningIsStill<T>(p: Pool<T>, l: Label<T>)
    requires Inv(p) && Returning(p.owner) && Step(p, l).Some?
    ensures Step(p, l).value.sh.tasks == p.sh.tasks && Step(p, l).value.started == p.started
  {
    assert p.lock == ByOwner;
    if l.Work? {
      assert !p.ws[l.w].HoldsLock();
    }
  }

  lemma {:induction false} LastTest<T>(p: Pool<T>, labels: seq<Label<T>>) returns (k: nat)
    requires Inv(p) && CanRun(p, labels) && !Returning(p.owner) && Returning(Final(p, labels).owner)
    ensures k < |labels| && CanRun(p, labels[..k]) && Succeeds(Final(p, labels[..k]), labels[k])
    ensures Final(p, labels).sh.tasks == Final(p, labels[..k]).sh.tasks
    ensures Final(p, labels).started == Final(p, labels[..k]).started
    ensures InFlight(Final(p, labels).ws) == 0
    decreases |labels|
  {
    var last := |labels| - 1;
    LastStep(p, labels);
    var q := Final(p, labels[..last]);
    RunKeepsInv(p, labels[..last]);
    if Returning(q.owner) {
      k := LastTest(p, labels[..last]);
      assert labels[..last][..k] == labels[..k];
      ReturningIsStill(q, labels[last]);
      LoadComesFromStarts(q, labels[last]);
    } else {
      k := last;
      OnlyATestLetsReturn(q, labels[last]);
      TestMeansNothingInFlight(q);
    }
  }

  /**
   wait_for_tasks, and the wait of the destructor, return only after a test of the predicate that came
   out true under the mutex.  When they do, nothing is in flight, the queue and the tasks started are
   those of that test, and the queue is empty if the test was made unpaused.
   */
  lemma WaitReturnsOnlyWhenOver<T>(threads: nat, labels: seq<Label<T>>) returns (k: nat)
    requires CanRun(Init<T>(threads), labels) && Returning(Final(Init<T>(threads), labels).owner)
    ensures k < |labels| && CanRun(Init<T>(threads), labels[..k])
    ensures Succeeds(Final(Init<T>(threads), labels[..k]), labels[k])
    ensures
      var p := Final(Init<T>(threads), labels);
      var t := Final(Init<T>(threads), labels[..k]);
      && InFlight(p.ws) == 0 && p.sh.tasks == t.sh.tasks && p.started == t.started
      && (!t.sh.paused ==> p.sh.tasks == [])
  {
    InitInv<T>(threads);
    k := LastTest(Init<T>(threads), labels);
    RunKeepsInv(Init<T>(threads), labels[..k]);
    TestMeansNothingInFlight(Final(Init<T>(threads), labels[..k]));
  }

  /** When a wait returns under pause no task is in flight, and until unpause() none is started. */
  lemma WaitUnderPauseLeavesPoolIdle<T>(threads: nat, labels: seq<Label<T>>, later: seq<Label<T>>)
    requires CanRun(Init<T>(threads), labels) && CanRun(Final(Init<T>(threads), labels), later) && NoUnpause(later)
    requires Returning(Final(Init<T>(threads), labels).owner) && Final(Init<T>(threads), labels).sh.paused
    ensures
      var p := Final(Init<T>(threads), labels);
      InFlight(p.ws) == 0 && InFlight(Final(p, later).ws) == 0 && Final(p, later).started == p.started
  {
    var p := Final(Init<T>(threads), labels);
    InitInv<T>(threads);
    RunKeepsInv(Init<T>(threads), labels);
    var k := LastTest(Init<T>(threads), labels);
    assert p.lock == ByOwner;
    RestIsStable(p, later);
  }

  // ----- The destructor waits -----

  /** The destructor has been called and its wait has not succeeded yet. */
  predicate StillWaits(o: OwnerPc) { o.Destroys() && (o.Announce? || o.WaitLock? || o.Testing? || o.Sleeping? || o.Reacquire?) }

  /** The destructor's wait has succeeded. */
  predicate HasWaited(o: OwnerPc) { o.Destroys() && !StillWaits(o) }

  lemma OnlyATestEndsTheWait<T>(p: Pool<T>, l: Label<T>)
    requires Step(p, l).Some? && !HasWaited(p.owner) && HasWaited(Step(p, l).value.owner)
    ensures Succeeds(p, l) && p.owner == Testing(true)
  {
  }

  lemma OnlyACallStartsTheWait<T>(p: Pool<T>, l: Label<T>)
    requires Step(p, l).Some? && !p.owner.Destroys() && Step(p, l).value.owner.Destroys()
    ensures l == StartWait(true)
  {
  }

  lemma {:induction false} CallOfDestructor<T>(p: Pool<T>, labels: seq<Label<T>>) returns (k: nat)
    requires CanRun(p, labels) && !p.owner.Destroys() && Final(p, labels).owner.Destroys()
    ensures k < |labels| && labels[k] == StartWait(true) && CanRun(p, labels[..k])
    ensures CanRun(p, labels[..k + 1]) && Final(p, labels[..k + 1]).owner == Announce(true)
    decreases |labels|
  {
    var last := |labels| - 1;
    LastStep(p, labels);
    if Final(p, labels[..last]).owner.Destroys() {
      k := CallOfDestructor(p, labels[..last]);
      assert labels[..last][..k] == labels[..k] && labels[..last][..k + 1] == labels[..k + 1];
    } else {
      k := last;
      OnlyACallStartsTheWait(Final(p, labels[..last]), labels[last]);
      assert labels[..k + 1] == labels;
    }
  }

  lemma {:induction false} TestOfDestructor<T>(p: Pool<T>, labels: seq<Label<T>>) returns (k: nat)
    requires CanRun(p, labels) && !HasWaited(p.owner) && HasWaited(Final(p, labels).owner)
    ensures k < |labels| && CanRun(p, labels[..k]) && Succeeds(Final(p, labels[..k]), labels[k])
    ensures Final(p, labels[..k]).owner == Testing(true)
    decreases |labels|
  {
    var last := |labels| - 1;
    LastStep(p, labels);
    if HasWaited(Final(p, labels[..last]).owner) {
      k := TestOfDestructor(p, labels[..last]);
      assert labels[..last][..k] == labels[..k];
    } else {
      k := last;
      OnlyATestEndsTheWait(Final(p, labels[..last]), labels[last]);
    }
  }

  /** Every run that destroys the pool first calls the destructor and then has its wait succeed. */
  lemma DestructorWaits<T>(threads: nat, labels: seq<Label<T>>) returns (call: nat, test: nat)
    requires CanRun(Init<T>(threads), labels) && Final(Init<T>(threads), labels).owner.Destroyed?
    ensures call < test < |labels| && labels[call] == StartWait(true)
    ensures CanRun(Init<T>(threads), labels[..test])
    ensures
      var t := Final(Init<T>(threads), labels[..test]);
      Succeeds(t, labels[test]) && t.owner == Testing(true) && InFlight(t.ws) == 0
  {
    InitInv<T>(threads);
    test := TestOfDestructor(Init<T>(threads), labels);
    call := CallOfDestructor(Init<T>(threads), labels[..test]);
    RunKeepsInv(Init<T>(threads), labels[..test]);
    TestMeansNothingInFlight(Final(Init<T>(threads), labels[..test]));
  }

  // ----- Shutdown of an unpaused pool -----

  /**
   What the class expects of its users: while the destructor runs nobody pushes a task or pauses the
   pool, and the pool is not paused when the destructor is called.
   */
  ghost predicate LeftAlone<T>(p: Pool<T>, labels: seq<Label<T>>)
    requires CanRun(p, labels)
    decreases |labels|
  {
    labels == []
    || (&& (labels[0] == StartWait(true) ==> !p.sh.paused)
        && (p.owner.Destroys() ==> !labels[0].Pause? && !labels[0].PushQueue?)
        && LeftAlone(Step(p, labels[0]).value, labels[1..]))
  }

  /** In a pool that is left alone: unpaused during its destruction, and empty once the destructor has waited. */
  ghost predicate Emptied<T>(p: Pool<T>) {
    && (p.owner.Destroys() ==> !p.sh.paused)
    && (HasWaited(p.owner) ==> p.sh.tasks == [])
  }

  lemma TasksOnlyComeFromPushes<T>(p: Pool<T>, l: Label<T>)
    requires Step(p, l).Some? && !l.PushQueue? && p.sh.tasks == []
    ensures Step(p, l).value.sh.tasks == []
  {
  }

  lemma StepKeepsPaused<T>(p: Pool<T>, l: Label<T>)
    requires Step(p, l).Some?
    ensures !l.Pause? && !l.Unpause? ==> Step(p, l).value.sh.paused == p.sh.paused
  {
  }

  lemma StepKeepsEmptied<T>(p: Pool<T>, l: Label<T>)
    requires Inv(p) && Emptied(p) && Step(p, l).Some?
    requires l == StartWait(true) ==> !p.sh.paused
    requires p.owner.Destroys() ==> !l.Pause? && !l.PushQueue?
    ensures Emptied(Step(p, l).value)
  {
    var q := Step(p, l).value;
    StepKeepsPaused(p, l);
    if q.owner.Destroys() && !p.owner.Destroys() {
      OnlyACallStartsTheWait(p, l);
    }
    if HasWaited(p.owner) {
      TasksOnlyComeFromPushes(p, l);
    } else if HasWaited(q.owner) {
      OnlyATestEndsTheWait(p, l);
      TestMeansNothingInFlight(p);
    }
  }

  lemma {:induction false} RunKeepsEmptied<T>(p: Pool<T>, labels: seq<Label<T>>)
    requires Inv(p) && Emptied(p) && CanRun(p, labels) && LeftAlone(p, labels)
    ensures Emptied(Final(p, labels))
    decreases |labels|
  {
    if labels != [] {
      StepKeepsEmptied(p, labels[0]);
      StepKeepsInv(p, labels[0]);
      RunKeepsEmptied(Step(p, labels[0]).value, labels[1..]);
    }
  }

  /**
   Every run, from the constructor to the end of the destructor, of an unpaused pool that is left alone
   while it is destroyed has run every task that was ever pushed, each exactly once.
   */
  lemma UnpausedShutdownRunsEverything<T>(threads: nat, labels: seq<Label<T>>)
    requires CanRun(Init<T>(threads), labels) && LeftAlone(Init<T>(threads), labels)
    requires Final(Init<T>(threads), labels).owner.Destroyed?
    ensures
      var p := Final(Init<T>(threads), labels);
      p.sh.tasks == [] && p.started == p.pushed && multiset(p.finished) == multiset(p.pushed)
  {
    InitInv<T>(threads);
    RunKeepsEmptied(Init<T>(threads), labels);
    DestroyedPoolIsQuiet(threads, labels);
  }

  // ----- Shutdown of a paused pool -----

  lemma SuffixGrows<T>(a: seq<T>, b: seq<T>, c: seq<T>)
    requires a + b <= a + c
    ensures b <= c
  {
    assert forall i :: 0 <= i < |b| ==> b[i] == (a + b)[|a| + i] == (a + c)[|a| + i];
  }

  /** Once a wait has succeeded under pause the tasks started stay as they are and the queue only grows. */
  lemma AfterPausedTest<T>(p: Pool<T>, labels: seq<Label<T>>)
    requires Inv(p) && p.owner.Testing? && p.sh.paused && p.sh.WaitOver()
    requires CanRun(p, labels) && NoUnpause(labels)
    ensures Final(p, labels).started == p.started && p.sh.tasks <= Final(p, labels).sh.tasks
  {
    var q := Final(p, labels);
    TestMeansNothingInFlight(p);
    assert p.lock == ByOwner;
    RestIsStable(p, labels);
    RunKeepsInv(p, labels);
    RunExtends(p, labels);
    SuffixGrows(p.started, p.sh.tasks, q.sh.tasks);
  }

  lemma NoUnpauseInPart<T>(labels: seq<Label<T>>, k: nat)
    requires NoUnpause(labels) && k <= |labels|
    ensures NoUnpause(labels[..k]) && NoUnpause(labels[k..])
  {
  }

  /**
   A pool that is paused when its destructor is called (at the end of `before`) and stays so.  At most one
   more task is started, and none once the destructor's wait has succeeded, at step `test`; the started
   tasks are the ones that have finished, and the ones left behind are the rest of the push order.
   */
  lemma PausedShutdownLeavesSuffix<T>(threads: nat, before: seq<Label<T>>, labels: seq<Label<T>>) returns (test: nat)
    requires CanRun(Init<T>(threads), before) && Final(Init<T>(threads), before).owner == Announce(true)
    requires Final(Init<T>(threads), before).sh.paused
    requires CanRun(Final(Init<T>(threads), before), labels) && NoUnpause(labels)
    requires Final(Final(Init<T>(threads), before), labels).owner.Destroyed?
    ensures test < |labels| && CanRun(Final(Init<T>(threads), before), labels[..test])
    ensures
      var p := Final(Init<T>(threads), before);
      var t := Final(p, labels[..test]);
      var q := Final(p, labels);
      && Succeeds(t, labels[test]) && q.started == t.started && t.sh.tasks <= q.sh.tasks
      && p.started <= q.started && |q.started| <= Starts(p) <= |p.started| + 1
      && multiset(q.finished) == multiset(q.started) && q.pushed == q.started + q.sh.tasks
  {
    var p := Final(Init<T>(threads), before);
    InitInv<T>(threads);
    RunKeepsInv(Init<T>(threads), before);
    test := TestOfDestructor(p, labels);
    RunSplits(p, labels, test);
    NoUnpauseInPart(labels, test);
    PausedRun(p, labels[..test]);
    RunKeepsInv(p, labels[..test]);
    AfterPausedTest(Final(p, labels[..test]), labels[test..]);
    PausedRun(p, labels);
    RunExtends(p, labels);
    EndIsQuiet(p, labels);
  }

  lemma EndIsQuiet<T>(p: Pool<T>, labels: seq<Label<T>>)
    requires Inv(p) && CanRun(p, labels) && Final(p, labels).owner.Destroyed?
    ensures multiset(Final(p, labels).finished) == multiset(Final(p, labels).started)
    ensures Final(p, labels).pushed == Final(p, labels).started + Final(p, labels).sh.tasks
  {
    RunKeepsInv(p, labels);
    InFlightZero(Final(p, labels).ws);
  }
}
