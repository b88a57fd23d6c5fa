/** After wait() has returned, fair rounds also bring the destructor to its end: all workers are joined. */
module ScanFairEnd {
  import opened Wrappers
  import opened FileTree
  import opened ScanMachine
  import opened ScanPhases
  import opened ScanMeasure
  import opened ScanTheorems
  import opened ScanProgress
  import opened ScanCompletion
  import opened ScanShutdown
  import opened ScanQuiet
  import opened ScanFairness
  import opened PoolRanks
  import P = PoolMachine
  import I = PoolInvariant

  lemma {:induction false} ExitRanksBound(ws: seq<P.WorkerPc<string>>)
    ensures ExitRanks(ws) <= 9 * |ws|
  {
    if ws != [] {
      ExitRanksBound(ws[..|ws| - 1]);
    }
  }

  lemma PatienceBound(p: P.Pool<string>)
    ensures Patience(p) < 9 * |p.ws| + 8
  {
    ExitRanksBound(p.ws);
    HoldPartBound(p);
  }

  lemma OwnerRankBound(owner: P.OwnerPc, n: nat)
    ensures OwnerRank(owner, n) <= n + 20
  {
  }

  /** A part of a run of the scan's own threads after wait() has returned. */
  ghost predicate LatePart(fs: FileSystem, s: Scan, labels: seq<Label>) {
    Completed(fs, s) && CanRun(fs, s, labels) && OwnLabels(labels)
  }

  /** Without notifier and recorder, and with nobody asleep in a wait, only the main thread and the workers can step. */
  lemma LateLabels(fs: FileSystem, s: Scan, l: Label)
    requires Completed(fs, s) && Possible(fs, s, l)
    ensures l.MainWork? || l.WorkerWork? || l.WorkerWake?
  {
  }

  lemma LateFirst(fs: FileSystem, s: Scan, labels: seq<Label>)
    requires LatePart(fs, s, labels) && labels != []
    ensures Possible(fs, s, labels[0]) && LatePart(fs, Step(fs, s, labels[0]).value, labels[1..])
    ensures |Step(fs, s, labels[0]).value.pool.ws| == |s.pool.ws|
  {
    assert labels[0] in labels && forall l :: l in labels[1..] ==> l in labels;
    CompletedStays(fs, s, labels[0]);
    PossibleKeeps(fs, s, labels[0]);
  }

  // ----- The main thread -----

  /** A statement of the main thread brings the destructor closer to its end. */
  lemma MainIsNearer(fs: FileSystem, s: Scan)
    requires Completed(fs, s) && MainStep(s).Some?
    ensures
      var t := MainStep(s).value;
      |t.pool.ws| == |s.pool.ws| && OwnerRank(t.pool.owner, |s.pool.ws|) < OwnerRank(s.pool.owner, |s.pool.ws|)
  {
    if s.main.Destroying? {
      if s.pool.owner.Testing? {
        WaitSucceedsAtOnce(fs, s);
      }
      OwnerStepRanks(s.pool);
    }
  }

  lemma OwnerStepRanks(p: P.Pool<string>)
    requires P.OwnerStep(p).Some? && (p.owner.Testing? ==> p.sh.WaitOver()) && p.owner.Destroys()
    ensures |P.OwnerStep(p).value.ws| == |p.ws|
    ensures OwnerRank(P.OwnerStep(p).value.owner, |p.ws|) < OwnerRank(p.owner, |p.ws|)
  {
  }

  lemma WorkerKeepsOwner(fs: FileSystem, s: Scan, l: Label)
    requires Completed(fs, s) && Possible(fs, s, l) && !l.MainWork?
    ensures Step(fs, s, l).value.pool.owner == s.pool.owner && Step(fs, s, l).value.main == s.main
  {
    LateLabels(fs, s, l);
    if l.WorkerWork? {
      QuiescentNobodyWorks(s.pool.ws);
      LateWorkerStep(fs, s, l.w);
    }
  }

  /** After wait() a worker is in the pool's loop. */
  lemma LateWorkerStep(fs: FileSystem, s: Scan, w: nat)
    requires Completed(fs, s) && Step(fs, s, WorkerWork(w)).Some?
    ensures
      var t := Step(fs, s, WorkerWork(w)).value;
      && w < |s.pool.ws| && P.WorkerStep(s.pool, w) == Some(t.pool) && t == s.(pool := t.pool) && t.pool.owner == s.pool.owner
  {
    QuiescentNobodyWorks(s.pool.ws);
    IdleWorkerStep(fs, s, w);
    WorkerLeavesOwner(s.pool, w);
  }

  /** In a part of the run the destructor never gets further from its end, and gets closer when the main thread steps. */
  lemma {:induction false} OwnerComesCloser(fs: FileSystem, s: Scan, labels: seq<Label>)
    requires LatePart(fs, s, labels)
    ensures |Final(fs, s, labels).pool.ws| == |s.pool.ws|
    ensures OwnerRank(Final(fs, s, labels).pool.owner, |s.pool.ws|) <= OwnerRank(s.pool.owner, |s.pool.ws|)
    ensures Acts(labels, Main) ==>
      OwnerRank(Final(fs, s, labels).pool.owner, |s.pool.ws|) < OwnerRank(s.pool.owner, |s.pool.ws|)
    decreases |labels|
  {
    if labels != [] {
      LateFirst(fs, s, labels);
      if labels[0].MainWork? {
        MainIsNearer(fs, s);
      } else {
        WorkerKeepsOwner(fs, s, labels[0]);
      }
      OwnerComesCloser(fs, Step(fs, s, labels[0]).value, labels[1..]);
      if Acts(labels, Main) {
        FirstOrLater(labels, Main);
      }
    }
  }

  // ----- The main thread is blocked -----

  /** The destructor waits for tasks_mutex_, or for a worker to exit, or it is over. */
  lemma WhyMainIsBlocked(fs: FileSystem, s: Scan)
    requires Completed(fs, s) && !Enabled(fs, s, Main) && !s.pool.owner.Destroyed?
    ensures s.main.Destroying?
    ensures
      || ((s.pool.owner.WaitLock? || s.pool.owner.Reacquire?) && !s.pool.lock.Free?)
      || (s.pool.owner.Joining? && s.pool.owner.next < |s.pool.ws| && !s.pool.ws[s.pool.owner.next].Exited?)
  {
  }

  lemma BlockedMainDoesNotAct(fs: FileSystem, s: Scan, labels: seq<Label>)
    requires CanRun(fs, s, labels) && labels != [] && Blocked(fs, s, labels, Main)
    ensures !labels[0].MainWork?
  {
  }

  /** The holder of tasks_mutex_ after wait() is a worker in its loop, and can step. */
  lemma LateHolder(fs: FileSystem, s: Scan) returns (h: nat)
    requires Completed(fs, s) && !s.pool.lock.Free? && !s.pool.lock.ByOwner?
    ensures h < |s.pool.ws| && s.pool.lock == P.ByWorker(h) && Enabled(fs, s, Worker(h))
  {
    QuietHolder(fs, s);
    h := s.pool.lock.worker;
    QuiescentNobodyWorks(s.pool.ws);
    IdleWorkerStep(fs, s, h);
    HolderLetsGo(s.pool, h);
  }

  lemma LateHolderStep(fs: FileSystem, s: Scan, l: Label, h: nat)
    requires Completed(fs, s) && Possible(fs, s, l) && By(l, Worker(h)) && h < |s.pool.ws| && s.pool.lock == P.ByWorker(h)
    requires !Step(fs, s, l).value.pool.lock.Free?
    ensures Step(fs, s, l).value.pool.lock == s.pool.lock && HoldPart(Step(fs, s, l).value.pool) < HoldPart(s.pool)
  {
    assert s.pool.ws[h].HoldsLock();
    QuiescentNobodyWorks(s.pool.ws);
    LateWorkerStep(fs, s, h);
    HolderLetsGo(s.pool, h);
  }

  lemma LateBystander(fs: FileSystem, s: Scan, l: Label, h: nat)
    requires Completed(fs, s) && Possible(fs, s, l) && !l.MainWork? && !By(l, Worker(h))
    requires h < |s.pool.ws| && s.pool.lock == P.ByWorker(h)
    ensures
      var t := Step(fs, s, l).value;
      |t.pool.ws| == |s.pool.ws| && t.pool.lock == s.pool.lock && t.pool.ws[h] == s.pool.ws[h]
  {
    LateLabels(fs, s, l);
    if l.WorkerWork? {
      LateWorkerStep(fs, s, l.w);
      LoopBystander(s.pool, l.w, h);
    }
  }

  lemma LoopBystander(p: P.Pool<string>, w: nat, h: nat)
    requires I.Mutex(p) && w < |p.ws| && h < |p.ws| && w != h && p.lock == P.ByWorker(h) && P.WorkerStep(p, w).Some?
    ensures P.WorkerStep(p, w).value.lock == p.lock && |P.WorkerStep(p, w).value.ws| == |p.ws|
    ensures P.WorkerStep(p, w).value.ws[h] == p.ws[h]
  {
    assert !p.ws[w].HoldsLock();
  }

  lemma {:induction false} LateHolderComesCloser(fs: FileSystem, s: Scan, labels: seq<Label>, h: nat)
    requires LatePart(fs, s, labels) && Blocked(fs, s, labels, Main) && TasksHeld(fs, s, labels)
    requires h < |s.pool.ws| && s.pool.lock == P.ByWorker(h)
    ensures Final(fs, s, labels).pool.owner == s.pool.owner && HoldPart(Final(fs, s, labels).pool) <= HoldPart(s.pool)
    ensures Acts(labels, Worker(h)) ==> HoldPart(Final(fs, s, labels).pool) < HoldPart(s.pool)
    decreases |labels|
  {
    if labels != [] {
      LateFirst(fs, s, labels);
      BlockedMainDoesNotAct(fs, s, labels);
      WorkerKeepsOwner(fs, s, labels[0]);
      if By(labels[0], Worker(h)) {
        LateHolderStep(fs, s, labels[0], h);
      } else {
        LateBystander(fs, s, labels[0], h);
      }
      LateHolderComesCloser(fs, Step(fs, s, labels[0]).value, labels[1..], h);
      if Acts(labels, Worker(h)) {
        FirstOrLater(labels, Worker(h));
      }
    }
  }

  /** A destructor that waits for the mutex, and is blocked all the time, finds it held all the time. */
  lemma {:induction false} BlockedWaitMeansHeld(fs: FileSystem, s: Scan, labels: seq<Label>)
    requires LatePart(fs, s, labels) && Blocked(fs, s, labels, Main) && (s.pool.owner.WaitLock? || s.pool.owner.Reacquire?)
    ensures TasksHeld(fs, s, labels)
    decreases |labels|
  {
    WhyMainIsBlocked(fs, s);
    if labels != [] {
      LateFirst(fs, s, labels);
      BlockedMainDoesNotAct(fs, s, labels);
      WorkerKeepsOwner(fs, s, labels[0]);
      BlockedWaitMeansHeld(fs, Step(fs, s, labels[0]).value, labels[1..]);
    }
  }

  lemma WaitingRound(fs: FileSystem, s: Scan, labels: seq<Label>)
    requires LatePart(fs, s, labels) && Fair(fs, s, labels) && Blocked(fs, s, labels, Main)
    requires s.pool.owner.WaitLock? || s.pool.owner.Reacquire?
    ensures Final(fs, s, labels).pool.owner == s.pool.owner && Patience(Final(fs, s, labels).pool) < Patience(s.pool)
  {
    BlockedWaitMeansHeld(fs, s, labels);
    var h := LateHolder(fs, s);
    assert !Blocked(fs, s, labels, Worker(h));
    LateHolderComesCloser(fs, s, labels, h);
  }

  // ----- Joining the workers -----

  lemma LeavingStep(fs: FileSystem, s: Scan, l: Label)
    requires Completed(fs, s) && Possible(fs, s, l) && !l.MainWork? && s.pool.owner.ShuttingDown()
    ensures Step(fs, s, l).value.pool.owner == s.pool.owner && Patience(Step(fs, s, l).value.pool) < Patience(s.pool)
  {
    LateLabels(fs, s, l);
    if l.WorkerWork? {
      LateWorkerStep(fs, s, l.w);
      LeavingWorkerIsNearer(s.pool, P.Work(l.w));
    } else {
      LeavingWorkerIsNearer(s.pool, P.Wake(l.w, l.timedOut));
    }
  }

  lemma {:induction false} LeavingComesCloser(fs: FileSystem, s: Scan, labels: seq<Label>)
    requires LatePart(fs, s, labels) && Blocked(fs, s, labels, Main) && s.pool.owner.ShuttingDown()
    ensures Final(fs, s, labels).pool.owner == s.pool.owner && Patience(Final(fs, s, labels).pool) + |labels| <= Patience(s.pool)
    decreases |labels|
  {
    if labels != [] {
      LateFirst(fs, s, labels);
      BlockedMainDoesNotAct(fs, s, labels);
      LeavingStep(fs, s, labels[0]);
      LeavingComesCloser(fs, Step(fs, s, labels[0]).value, labels[1..]);
    }
  }

  /** A worker that has not exited can step, or waits for tasks_mutex_ and its holder can step. */
  lemma SomebodyLeaves(fs: FileSystem, s: Scan, i: nat) returns (w: nat)
    requires Completed(fs, s) && s.pool.owner.ShuttingDown() && i < |s.pool.ws| && !s.pool.ws[i].Exited?
    ensures Enabled(fs, s, Worker(w))
  {
    QuiescentNobodyWorks(s.pool.ws);
    if s.pool.ws[i].Asleep? {
      w := i;
    } else if (s.pool.ws[i].Locking? || s.pool.ws[i].Waking?) && !s.pool.lock.Free? {
      w := LateHolder(fs, s);
    } else {
      w := i;
      IdleWorkerStep(fs, s, i);
    }
  }

  lemma JoiningRound(fs: FileSystem, s: Scan, labels: seq<Label>)
    requires LatePart(fs, s, labels) && Fair(fs, s, labels) && Blocked(fs, s, labels, Main)
    requires s.pool.owner.Joining? && s.pool.owner.next < |s.pool.ws| && !s.pool.ws[s.pool.owner.next].Exited?
    ensures Final(fs, s, labels).pool.owner == s.pool.owner && Patience(Final(fs, s, labels).pool) < Patience(s.pool)
  {
    var w := SomebodyLeaves(fs, s, s.pool.owner.next);
    assert !Blocked(fs, s, labels, Worker(w));
    assert Acts(labels, Worker(w)) && labels != [];
    LeavingComesCloser(fs, s, labels);
  }

  // ----- Rounds -----

  /** How many rounds the destructor can still take. */
  function EndRank(s: Scan): nat { (9 * |s.pool.ws| + 8) * OwnerRank(s.pool.owner, |s.pool.ws|) + Patience(s.pool) }

  lemma Lower(k: nat, a: nat, b: nat, x: nat, y: nat)
    requires x < k && (a < b || (a == b && x < y))
    ensures k * a + x < k * b + y
  {
    if a < b {
      assert k * b >= k * (a + 1) == k * a + k;
    }
  }

  lemma BlockedRound(fs: FileSystem, s: Scan, labels: seq<Label>)
    requires LatePart(fs, s, labels) && Fair(fs, s, labels) && Blocked(fs, s, labels, Main) && !s.pool.owner.Destroyed?
    ensures Final(fs, s, labels).pool.owner == s.pool.owner && Patience(Final(fs, s, labels).pool) < Patience(s.pool)
  {
    WhyMainIsBlocked(fs, s);
    if s.pool.owner.Joining? {
      JoiningRound(fs, s, labels);
    } else {
      WaitingRound(fs, s, labels);
    }
  }

  lemma LowerEndRank(s: Scan, t: Scan)
    requires |t.pool.ws| == |s.pool.ws|
    requires
      || OwnerRank(t.pool.owner, |s.pool.ws|) < OwnerRank(s.pool.owner, |s.pool.ws|)
      || (t.pool.owner == s.pool.owner && Patience(t.pool) < Patience(s.pool))
    ensures EndRank(t) < EndRank(s)
  {
    PatienceBound(t.pool);
    Lower(9 * |s.pool.ws| + 8, OwnerRank(t.pool.owner, |s.pool.ws|), OwnerRank(s.pool.owner, |s.pool.ws|),
          Patience(t.pool), Patience(s.pool));
  }

  lemma LateRound(fs: FileSystem, s: Scan, labels: seq<Label>)
    requires LatePart(fs, s, labels) && Fair(fs, s, labels)
    ensures
      var t := Final(fs, s, labels);
      |t.pool.ws| == |s.pool.ws| && (s.pool.owner.Destroyed? || EndRank(t) < EndRank(s))
  {
    OwnerComesCloser(fs, s, labels);
    if !s.pool.owner.Destroyed? {
      if !Acts(labels, Main) {
        assert Blocked(fs, s, labels, Main);
        BlockedRound(fs, s, labels);
      }
      LowerEndRank(s, Final(fs, s, labels));
    }
  }

  lemma {:induction false} BlockedDestroyed(fs: FileSystem, s: Scan, labels: seq<Label>)
    requires LatePart(fs, s, labels) && s.pool.owner.Destroyed?
    ensures Final(fs, s, labels).pool.owner.Destroyed?
    decreases |labels|
  {
    if labels != [] {
      LateFirst(fs, s, labels);
      if labels[0].MainWork? {
        MainIsNearer(fs, s);
      } else {
        WorkerKeepsOwner(fs, s, labels[0]);
      }
      BlockedDestroyed(fs, Step(fs, s, labels[0]).value, labels[1..]);
    }
  }

  lemma {:induction false} LateRunCompleted(fs: FileSystem, s: Scan, labels: seq<Label>)
    requires LatePart(fs, s, labels)
    ensures Completed(fs, Final(fs, s, labels)) && Final(fs, s, labels).roots == s.roots
    decreases |labels|
  {
    if labels != [] {
      LateFirst(fs, s, labels);
      CompletedStays(fs, s, labels[0]);
      LateRunCompleted(fs, Step(fs, s, labels[0]).value, labels[1..]);
    }
  }

  lemma {:induction false} LateRoundsDestroy(fs: FileSystem, s: Scan, rounds: seq<seq<Label>>)
    requires Completed(fs, s) && Rounds(fs, s, rounds) && (s.pool.owner.Destroyed? || |rounds| > EndRank(s))
    ensures
      var t := After(fs, s, rounds);
      Completed(fs, t) && t.pool.owner.Destroyed? && t.roots == s.roots
    decreases |rounds|
  {
    if rounds != [] {
      var t := Final(fs, s, rounds[0]);
      LateRound(fs, s, rounds[0]);
      LateRunCompleted(fs, s, rounds[0]);
      if s.pool.owner.Destroyed? {
        BlockedDestroyed(fs, s, rounds[0]);
      }
      LateRoundsDestroy(fs, t, rounds[1..]);
    }
  }

  /** The rounds that the destruction of a scan with n workers can take. */
  function EndBound(n: nat): nat { (9 * n + 8) * (n + 21) }

  lemma EndRankBound(s: Scan)
    ensures EndRank(s) < EndBound(|s.pool.ws|)
  {
    var k, n := 9 * |s.pool.ws| + 8, |s.pool.ws|;
    PatienceBound(s.pool);
    OwnerRankBound(s.pool.owner, n);
    Lower(k, OwnerRank(s.pool.owner, n), n + 21, Patience(s.pool), 0);
  }

  lemma {:induction false} RoundsDestroy(tf: Tariff, s: Scan, rounds: seq<seq<Label>>)
    requires Fixed(tf) && Good(tf.fs, s) && !s.stopped && |s.pool.ws| > 0 && Rounds(tf.fs, s, rounds)
    requires |rounds| > 300 * WorkLeft(tf, s) + Rest(s) + EndBound(|s.pool.ws|)
    ensures
      var t := After(tf.fs, s, rounds);
      Completed(tf.fs, t) && t.pool.owner.Destroyed? && t.roots == s.roots
    decreases |rounds|
  {
    if HasReturned(s) {
      WaitedIsCompleted(tf.fs, s);
      EndRankBound(s);
      LateRoundsDestroy(tf.fs, s, rounds);
    } else {
      var t := Final(tf.fs, s, rounds[0]);
      RoundIsNearer(tf, s, rounds[0]);
      OwnRunKeeps(tf.fs, s, rounds[0]);
      if HasReturned(t) {
        WaitedIsCompleted(tf.fs, t);
        EndRankBound(t);
        LateRoundsDestroy(tf.fs, t, rounds[1..]);
      } else {
        RestBound(t);
        RoundsDestroy(tf, t, rounds[1..]);
      }
    }
  }

  /**
   Every fair scan ends, its destruction included.  However the scan's own threads go on, after a bounded
   number of rounds the destructor has joined every worker and the records of the sequential walk have been
   drained.
   */
  lemma FairScanIsDestroyed(fs: FileSystem, threads: nat, labels: seq<Label>, rounds: seq<seq<Label>>)
    requires threads > 0 && CanRun(fs, Init(threads), labels) && !Final(fs, Init(threads), labels).stopped
    requires Rounds(fs, Final(fs, Init(threads), labels), rounds)
    requires
      var s := Final(fs, Init(threads), labels);
      |s.pool.ws| == |s.jobs| && |rounds| >= 300 * (WorkLeft(TariffOf(fs), s) + 1) + EndBound(threads)
    ensures
      var s := Final(fs, Init(threads), labels);
      var t := After(fs, s, rounds);
      && t.pool.owner.Destroyed? && (forall w :: 0 <= w < |t.pool.ws| ==> t.pool.ws[w].Exited?)
      && multiset(t.drained) == WalkAll(fs, s.roots).records && t.infos == [] && t.local == []
  {
    var s := Final(fs, Init(threads), labels);
    InitGood(fs, threads);
    RunKeepsGood(fs, Init(threads), labels);
    RunKeepsWorkers(fs, Init(threads), labels);
    RestBound(s);
    RoundsDestroy(TariffOf(fs), s, rounds);
    var t := After(fs, s, rounds);
    WaitedMeansQuiescent(fs, t);
    QuiescentIsComplete(fs, t);
  }
}
