/** The destructor of a completed scan can always finish: its wait does not block and all workers can be joined. */
module ScanShutdown {
  import opened FileTree
  import opened ScanMachine
  import opened ScanInvariant
  import opened ScanPhases
  import opened ScanMeasure
  import opened ScanTheorems
  import opened ScanProgress
  import opened ScanCompletion
  import opened PoolRanks
  import P = PoolMachine
  import I = PoolInvariant
  import T = PoolTheorems
  import W = PoolWakeup

  /** What the worker steps of a shutdown use up: idle statements before running_ is cleared, statements to the exit after. */
  function Patience(p: P.Pool<string>): nat {
    if p.owner.ShuttingDown() then ExitRanks(p.ws) else HoldPart(p)
  }

  ghost predicate Nearer(p: P.Pool<string>, q: P.Pool<string>) {
    && |q.ws| == |p.ws|
    && (OwnerRank(q.owner, |p.ws|) < OwnerRank(p.owner, |p.ws|) || (q.owner == p.owner && Patience(q) < Patience(p)))
  }

  /** Without a sleeping waiter to wake, a worker step leaves the destructor where it is. */
  lemma WorkerLeavesOwner(p: P.Pool<string>, w: nat)
    requires w < |p.ws| && P.WorkerStep(p, w).Some? && !p.owner.Sleeping?
    ensures P.WorkerStep(p, w).value.owner == p.owner
  {
  }

  lemma LeavingWorkerIsNearer(p: P.Pool<string>, l: P.Label<string>)
    requires I.Flags(p) && p.owner.ShuttingDown() && (l.Work? || l.Wake?) && P.Step(p, l).Some?
    ensures Nearer(p, P.Step(p, l).value)
  {
    var q := P.Step(p, l).value;
    T.OwnStepHeadsForExit(p, l);
    if l.Work? {
      WorkerLeavesOwner(p, l.w);
      I.WorkerMovesAlone(p, l.w);
    }
    assert q.ws == p.ws[l.w := q.ws[l.w]];
    ExitRanksUpdate(p.ws, l.w, q.ws[l.w]);
  }

  lemma HolderLetsGo(p: P.Pool<string>, w: nat)
    requires w < |p.ws| && I.Mutex(p) && p.sh.tasks == [] && !p.ws[w].InFlight() && p.lock == P.ByWorker(w) && !p.owner.Sleeping?
    ensures P.WorkerStep(p, w).Some? && |P.WorkerStep(p, w).value.ws| == |p.ws|
    ensures P.WorkerStep(p, w).value.owner == p.owner
    ensures
      var q := P.WorkerStep(p, w).value;
      HoldRank(p.ws[w]) > 0 && (q.lock.Free? || (q.lock == P.ByWorker(w) && HoldRank(q.ws[w]) < HoldRank(p.ws[w])))
  {
  }

  /** In a quiescent scan only a worker in the pool's loop, or the destructor, can hold tasks_mutex_. */
  lemma QuietHolder(fs: FileSystem, s: Scan)
    requires Structure(fs, s) && Quiescent(s) && !s.pool.lock.Free? && !s.pool.lock.ByOwner?
    ensures s.pool.lock.ByWorker?
  {
    QuiescentNobodyWorks(s.pool.ws);
  }

  /** The state of the scan this module starts from: wait() has returned and nobody called stop(). */
  ghost predicate Completed(fs: FileSystem, s: Scan) {
    Good(fs, s) && !s.stopped && Quiescent(s) && (s.main.Waited? || s.main.Destroying?)
  }

  lemma WaitedIsCompleted(fs: FileSystem, s: Scan)
    requires Good(fs, s) && !s.stopped && (s.main.Waited? || s.main.Destroying?)
    ensures Completed(fs, s)
  {
  }

  /** A worker outside do_scan changes only the pool. */
  lemma IdleWorkerStep(fs: FileSystem, s: Scan, w: nat)
    requires Coherent(s.pool.ws, s.jobs) && w < |s.pool.ws| && !s.pool.ws[w].InFlight()
    ensures WorkerStep(fs, s, w) == WithPool(s, P.Step(s.pool, P.Work(w)))
  {
  }

  /** Somebody needs tasks_mutex_: its holder steps. */
  lemma QuietHolderSteps(fs: FileSystem, s: Scan) returns (l: Label)
    requires Completed(fs, s) && s.main.Destroying? && !s.pool.lock.Free? && !s.pool.lock.ByOwner?
    ensures Possible(fs, s, l) && Nearer(s.pool, Step(fs, s, l).value.pool) && Step(fs, s, l).value.main == s.main
  {
    QuietHolder(fs, s);
    QuiescentNobodyWorks(s.pool.ws);
    var w := s.pool.lock.worker;
    l := WorkerWork(w);
    IdleWorkerStep(fs, s, w);
    HolderLetsGo(s.pool, w);
    if s.pool.owner.ShuttingDown() {
      LeavingWorkerIsNearer(s.pool, P.Work(w));
    }
  }

  /** The destructor waits for worker i to exit: that worker, or the holder of the lock it needs, steps. */
  lemma JoinedWorkerSteps(fs: FileSystem, s: Scan, i: nat) returns (l: Label)
    requires Completed(fs, s) && s.main.Destroying? && s.pool.owner == P.Joining(i) && i < |s.pool.ws| && !s.pool.ws[i].Exited?
    ensures Possible(fs, s, l) && Nearer(s.pool, Step(fs, s, l).value.pool) && Step(fs, s, l).value.main == s.main
  {
    QuiescentNobodyWorks(s.pool.ws);
    var pc := s.pool.ws[i];
    if pc.Asleep? {
      l := WorkerWake(i, true);
      LeavingWorkerIsNearer(s.pool, P.Wake(i, true));
    } else if (pc.Locking? || pc.Waking?) && !s.pool.lock.Free? {
      l := QuietHolderSteps(fs, s);
    } else {
      l := WorkerWork(i);
      IdleWorkerStep(fs, s, i);
      LeavingWorkerIsNearer(s.pool, P.Work(i));
    }
  }

  /** The wait inside the destructor succeeds at its first test. */
  lemma WaitSucceedsAtOnce(fs: FileSystem, s: Scan)
    requires Completed(fs, s) && s.pool.owner.Testing?
    ensures s.pool.sh.WaitOver()
  {
    assert s.pool.lock == P.ByOwner;
    W.DueMeansPredicate(s.pool);
  }

  /** The destructor's own statement, when nothing blocks it. */
  lemma OwnerIsNearer(p: P.Pool<string>)
    requires I.Flags(p) && P.OwnerStep(p).Some? && (p.owner.Testing? ==> p.sh.WaitOver()) && p.owner.Destroys()
    ensures Nearer(p, P.OwnerStep(p).value)
  {
  }

  lemma DestructorSteps(fs: FileSystem, s: Scan) returns (l: Label)
    requires Completed(fs, s) && !s.pool.owner.Destroyed?
    ensures Possible(fs, s, l) && Nearer(s.pool, Step(fs, s, l).value.pool)
  {
    if s.main.Waited? {
      l := MainWork;
    } else if (s.pool.owner.WaitLock? || s.pool.owner.Reacquire?) && !s.pool.lock.Free? {
      l := QuietHolderSteps(fs, s);
    } else if s.pool.owner.Joining? && s.pool.owner.next < |s.pool.ws| && !s.pool.ws[s.pool.owner.next].Exited? {
      l := JoinedWorkerSteps(fs, s, s.pool.owner.next);
    } else {
      l := MainWork;
      if s.pool.owner.Testing? {
        WaitSucceedsAtOnce(fs, s);
      }
      OwnerIsNearer(s.pool);
    }
  }

  lemma CompletedStays(fs: FileSystem, s: Scan, l: Label)
    requires Completed(fs, s) && Possible(fs, s, l)
    ensures Completed(fs, Step(fs, s, l).value) && Step(fs, s, l).value.roots == s.roots
  {
    PossibleKeeps(fs, s, l);
    QuiescentStep(fs, s, l);
    MainStays(fs, s, l);
  }

  lemma MainStays(fs: FileSystem, s: Scan, l: Label)
    requires Structure(fs, s) && Quiescent(s) && Possible(fs, s, l) && (s.main.Waited? || s.main.Destroying?)
    ensures Step(fs, s, l).value.main.Destroying? || Step(fs, s, l).value.main.Waited?
  {
    if l.WorkerWork? {
      QuiescentNobodyWorks(s.pool.ws);
      LoopKeepsControl(fs, s, l.w);
    }
  }

  lemma {:induction false} DestructionCanFinish(fs: FileSystem, s: Scan) returns (labels: seq<Label>)
    requires Completed(fs, s)
    ensures CanRun(fs, s, labels) && OwnLabels(labels)
    ensures Completed(fs, Final(fs, s, labels)) && Final(fs, s, labels).pool.owner.Destroyed?
    ensures Final(fs, s, labels).roots == s.roots
    decreases OwnerRank(s.pool.owner, |s.pool.ws|), Patience(s.pool)
  {
    if s.pool.owner.Destroyed? {
      labels := [];
    } else {
      var l := DestructorSteps(fs, s);
      CompletedStays(fs, s, l);
      var rest := DestructionCanFinish(fs, Step(fs, s, l).value);
      labels := [l] + rest;
      assert labels[1..] == rest;
    }
  }

  /**
   No scan is ever stuck.  From every state that some run reaches without an external stop, the scan's
   own threads can take it to the end: wait() returns with exactly the records of the sequential walk
   drained, and the destructor joins every worker.
   */
  lemma EveryRunCanComplete(fs: FileSystem, threads: nat, labels: seq<Label>) returns (more: seq<Label>)
    requires threads > 0 && CanRun(fs, Init(threads), labels) && !Final(fs, Init(threads), labels).stopped
    ensures
      var s := Final(fs, Init(threads), labels);
      CanRun(fs, s, more) && OwnLabels(more)
    ensures
      var s := Final(fs, Init(threads), labels);
      var t := Final(fs, s, more);
      && t.pool.owner.Destroyed? && !t.stopped && t.roots == s.roots
      && (forall w :: 0 <= w < |t.pool.ws| ==> t.pool.ws[w].Exited?)
      && multiset(t.drained) == WalkAll(fs, s.roots).records && t.infos == [] && t.local == []
  {
    InitGood(fs, threads);
    RunKeepsGood(fs, Init(threads), labels);
    var s := Final(fs, Init(threads), labels);
    RunKeepsWorkers(fs, Init(threads), labels);
    var tf := TariffOf(fs);
    var first := WaitCanReturn(tf, s);
    WaitedIsCompleted(fs, Final(fs, s, first));
    var rest := DestructionCanFinish(fs, Final(fs, s, first));
    RunAppend(fs, s, first, rest);
    more := first + rest;
    WaitedMeansQuiescent(fs, Final(fs, s, more));
    QuiescentIsComplete(fs, Final(fs, s, more));
  }
}
