/** The main results about the scan: for every file system, every number of workers and every interleaving. */
module ScanTheorems {
  import opened FileTree
  import opened ScanMachine
  import opened ScanWork
  import opened ScanInvariant
  import opened ScanPhases
  import opened ScanConservation
  import opened ScanTotals
  import opened ScanRefinesPool
  import P = PoolMachine
  import I = PoolInvariant
  import T = PoolTheorems

  /** Done and remaining work never exceed what the roots call for, and make it up exactly unless a user stopped the scan. */
  ghost predicate Balanced(fs: FileSystem, s: Scan)
    requires |s.pool.ws| == |s.jobs|
  {
    forall pr: Probe ::
      && Total(ScaleOf(fs, pr), s) <= Weigh(pr, WalkAll(fs, s.roots))
      && (!s.stopped ==> Total(ScaleOf(fs, pr), s) == Weigh(pr, WalkAll(fs, s.roots)))
  }

  ghost predicate Good(fs: FileSystem, s: Scan) {
    I.Inv(s.pool) && Structure(fs, s) && Phases(s) && Balanced(fs, s)
  }

  lemma InitGood(fs: FileSystem, threads: nat)
    ensures Good(fs, Init(threads))
  {
    var s := Init(threads);
    I.InitInv<string>(threads);
    InitStructure(fs, threads);
    InitPhases(threads);
    forall pr: Probe
      ensures Total(ScaleOf(fs, pr), s) == Weigh(pr, WalkAll(fs, s.roots))
    {
      WorkersNone(ScaleOf(fs, pr), s.pool.ws, s.jobs);
    }
  }

  /** Work is dropped only after a user has called stop(). */
  lemma DropsOnlyWhenStopped(fs: FileSystem, s: Scan, l: Label)
    requires I.Histories(s.pool) && Structure(fs, s) && Phases(s) && Drops(fs, s, l)
    ensures s.stopped
  {
    if s.main.Setup? || s.main.StoreCount? {
      NothingPushed(s.pool);
    } else if s.notifier.SawEnd() {
      QuiescentNobodyWorks(s.pool.ws);
    }
  }

  lemma StepKeepsStopped(fs: FileSystem, s: Scan, l: Label)
    requires Structure(fs, s) && Phases(s) && Step(fs, s, l).Some?
    ensures s.stopped ==> Step(fs, s, l).value.stopped
    ensures !l.AddPath? ==> Step(fs, s, l).value.roots == s.roots
  {
    match l
    case WorkerWork(w) =>
      if s.pool.ws[w].Busy? { JobKeepsFlags(fs, s, w); } else { LoopKeepsControl(fs, s, w); }
    case _ =>
  }

  lemma JobKeepsFlags(fs: FileSystem, s: Scan, w: nat)
    requires w < |s.jobs| && JobStep(fs, s, w).Some?
    ensures JobStep(fs, s, w).value.stopped == s.stopped && JobStep(fs, s, w).value.roots == s.roots
  {
    if s.jobs[w].Reads() {
      ReadKeepsControl(fs, s, w);
    } else if s.jobs[w].Spreads() {
      SpreadKeepsControl(s, w);
    } else if s.jobs[w].Records() {
      RecordKeepsControl(fs, s, w);
    }
  }

  lemma StepKeepsBalance(fs: FileSystem, s: Scan, l: Label, pr: Probe)
    requires Good(fs, s) && Step(fs, s, l).Some? && !l.AddPath?
    ensures
      var t := Step(fs, s, l).value;
      && |t.pool.ws| == |t.jobs|
      && Total(ScaleOf(fs, pr), t) <= Weigh(pr, WalkAll(fs, s.roots))
      && (!t.stopped ==> Total(ScaleOf(fs, pr), t) == Weigh(pr, WalkAll(fs, s.roots)))
  {
    StepTotal(ScaleOf(fs, pr), s, l);
    StepKeepsStopped(fs, s, l);
    if Drops(fs, s, l) {
      DropsOnlyWhenStopped(fs, s, l);
    }
  }

  lemma AddPathKeepsBalance(fs: FileSystem, s: Scan, path: string)
    requires Good(fs, s) && Step(fs, s, AddPath(path)).Some?
    ensures Structure(fs, Step(fs, s, AddPath(path)).value) && Balanced(fs, Step(fs, s, AddPath(path)).value)
  {
    var t := Step(fs, s, AddPath(path)).value;
    StepKeepsStructure(fs, s, AddPath(path));
    forall pr: Probe
      ensures Total(ScaleOf(fs, pr), t) <= Weigh(pr, WalkAll(fs, t.roots))
      ensures !t.stopped ==> Total(ScaleOf(fs, pr), t) == Weigh(pr, WalkAll(fs, t.roots))
    {
      var sc := ScaleOf(fs, pr);
      AddPathTotal(sc, s, path);
      PathsWeightSnoc(sc, s.roots, path);
      PathsWeightIsWalkAll(sc, s.roots);
      PathsWeightIsWalkAll(sc, t.roots);
    }
  }

  lemma StepKeepsGood(fs: FileSystem, s: Scan, l: Label)
    requires Good(fs, s) && Step(fs, s, l).Some?
    ensures Good(fs, Step(fs, s, l).value)
  {
    StepKeepsPoolInv(fs, s, l);
    StepKeepsStructure(fs, s, l);
    StepKeepsPhases(fs, s, l);
    if l.AddPath? {
      AddPathKeepsBalance(fs, s, l.path);
    } else {
      StepKeepsStopped(fs, s, l);
      forall pr: Probe
        ensures Total(ScaleOf(fs, pr), Step(fs, s, l).value) <= Weigh(pr, WalkAll(fs, s.roots))
        ensures !Step(fs, s, l).value.stopped ==> Total(ScaleOf(fs, pr), Step(fs, s, l).value) == Weigh(pr, WalkAll(fs, s.roots))
      {
        StepKeepsBalance(fs, s, l, pr);
      }
    }
  }

  lemma {:induction false} RunKeepsGood(fs: FileSystem, s: Scan, labels: seq<Label>)
    requires Good(fs, s) && CanRun(fs, s, labels)
    ensures Good(fs, Final(fs, s, labels))
    decreases |labels|
  {
    if labels != [] {
      StepKeepsGood(fs, s, labels[0]);
      RunKeepsGood(fs, Step(fs, s, labels[0]).value, labels[1..]);
    }
  }

  // ----- What a reachable state promises -----

  /** No work remains in a quiescent state. */
  lemma QuiescentHasNoWork(sc: Scale, s: Scan)
    requires Coherent(s.pool.ws, s.jobs) && Quiescent(s)
    ensures Total(sc, s) == Weigh(sc.pr, Done(s))
  {
    QuiescentNobodyWorks(s.pool.ws);
    WorkersNone(sc, s.pool.ws, s.jobs);
  }

  /** At quiescence without an external stop, exactly the work of the sequential walk has been done. */
  lemma QuiescentIsComplete(fs: FileSystem, s: Scan)
    requires Good(fs, s) && Quiescent(s) && !s.stopped
    ensures Done(s) == WalkAll(fs, s.roots)
  {
    forall pr: Probe
      ensures Weigh(pr, Done(s)) == Weigh(pr, WalkAll(fs, s.roots))
    {
      QuiescentHasNoWork(ScaleOf(fs, pr), s);
    }
    ProbesDecide(Done(s), WalkAll(fs, s.roots));
  }

  /** Whatever the user does, only work that the walk calls for is ever done, and none of it twice. */
  lemma NeverMoreThanTheWalk(fs: FileSystem, s: Scan)
    requires Good(fs, s)
    ensures Done(s).AtMost(WalkAll(fs, s.roots))
  {
    forall pr: Probe
      ensures Weigh(pr, Done(s)) <= Weigh(pr, WalkAll(fs, s.roots))
    {
      assert Weigh(pr, Done(s)) <= Total(ScaleOf(fs, pr), s);
    }
    ProbesBound(Done(s), WalkAll(fs, s.roots));
  }

  lemma WaitedMeansQuiescent(fs: FileSystem, s: Scan)
    requires Structure(fs, s) && Phases(s) && !s.stopped && (s.main.Waited? || s.main.Destroying?)
    ensures Quiescent(s) && s.infos == [] && s.local == [] && s.emplaced == s.drained
    ensures s.counts == Wrap(|s.roots| + s.entries)
  {
  }

  /** The paths added in a run, in order. */
  function PathsAdded(labels: seq<Label>): seq<string> {
    if labels == [] then [] else (if labels[0].AddPath? then [labels[0].path] else []) + PathsAdded(labels[1..])
  }

  lemma StepAddsPath(fs: FileSystem, s: Scan, l: Label)
    requires Good(fs, s) && Step(fs, s, l).Some?
    ensures Step(fs, s, l).value.roots == s.roots + if l.AddPath? then [l.path] else []
  {
    if !l.AddPath? {
      StepKeepsStopped(fs, s, l);
    }
  }

  lemma Regroup(a: seq<string>, b: seq<string>, c: seq<string>)
    ensures (a + b) + c == a + (b + c)
  {
  }

  lemma {:induction false} RootsAreThePathsAdded(fs: FileSystem, s: Scan, labels: seq<Label>)
    requires Good(fs, s) && CanRun(fs, s, labels)
    ensures Final(fs, s, labels).roots == s.roots + PathsAdded(labels)
    decreases |labels|
  {
    if labels == [] {
      assert s.roots + [] == s.roots;
    } else {
      StepAddsPath(fs, s, labels[0]);
      StepKeepsGood(fs, s, labels[0]);
      RootsAreThePathsAdded(fs, Step(fs, s, labels[0]).value, labels[1..]);
      Regroup(s.roots, if labels[0].AddPath? then [labels[0].path] else [], PathsAdded(labels[1..]));
    }
  }

  /**
   End-to-end refinement.  In every interleaving of the launcher, any number of workers, the notifier
   and the recorder, with no stop() from outside, once wait() has returned the recorder has drained
   exactly the records of the sequential recursive walk of all paths added, each directory of that walk has
   been handled exactly as often as the walk handles it, and nothing is left behind.
   */
  lemma ScanRefinesWalk(fs: FileSystem, threads: nat, labels: seq<Label>)
    requires CanRun(fs, Init(threads), labels)
    requires !Final(fs, Init(threads), labels).stopped
    requires Final(fs, Init(threads), labels).main.Waited? || Final(fs, Init(threads), labels).main.Destroying?
    ensures
      var s := Final(fs, Init(threads), labels);
      && s.roots == PathsAdded(labels)
      && multiset(s.drained) == WalkAll(fs, s.roots).records
      && s.visited == WalkAll(fs, s.roots).visits
      && s.counts == Wrap(|s.roots| + WalkAll(fs, s.roots).entries)
      && s.infos == [] && s.local == []
  {
    InitGood(fs, threads);
    RunKeepsGood(fs, Init(threads), labels);
    RootsAreThePathsAdded(fs, Init(threads), labels);
    var s := Final(fs, Init(threads), labels);
    WaitedMeansQuiescent(fs, s);
    QuiescentIsComplete(fs, s);
  }

  /**
   Recorder conservation: in every run, interrupted at any moment or not, what has been drained, what
   the recorder holds and what waits in file_infos_ make up everything emplaced, in order; and that is
   never more than the records of the walk.
   */
  lemma RecordsAreConserved(fs: FileSystem, threads: nat, labels: seq<Label>)
    requires CanRun(fs, Init(threads), labels)
    ensures
      var s := Final(fs, Init(threads), labels);
      && s.emplaced == s.drained + s.local + s.infos
      && multiset(s.emplaced) <= WalkAll(fs, s.roots).records
      && s.visited <= WalkAll(fs, s.roots).visits
      && s.entries <= WalkAll(fs, s.roots).entries
  {
    InitGood(fs, threads);
    RunKeepsGood(fs, Init(threads), labels);
    NeverMoreThanTheWalk(fs, Final(fs, Init(threads), labels));
  }

  lemma {:induction false} QuiescenceLasts(fs: FileSystem, s: Scan, labels: seq<Label>)
    requires Good(fs, s) && Quiescent(s) && CanRun(fs, s, labels)
    ensures Quiescent(Final(fs, s, labels)) && SameResults(s, Final(fs, s, labels))
    decreases |labels|
  {
    if labels != [] {
      QuiescentStep(fs, s, labels[0]);
      StepKeepsGood(fs, s, labels[0]);
      QuiescenceLasts(fs, Step(fs, s, labels[0]).value, labels[1..]);
    }
  }

  /**
   Termination detection is sound: in every run, once all roots are pushed, a zero in tasks_total_
   means that nothing is queued or in flight; no later step starts a task, records a file or counts
   an entry; and without an external stop the whole walk has been done by then.
   */
  lemma ScanOverIsFinal(fs: FileSystem, threads: nat, labels: seq<Label>, later: seq<Label>)
    requires CanRun(fs, Init(threads), labels)
    requires Final(fs, Init(threads), labels).main.PastLaunch() && Final(fs, Init(threads), labels).pool.sh.total == 0
    requires CanRun(fs, Final(fs, Init(threads), labels), later)
    ensures
      var s := Final(fs, Init(threads), labels);
      var t := Final(fs, s, later);
      && Quiescent(s) && Quiescent(t) && SameResults(s, t)
      && (!s.stopped ==> Done(s) == WalkAll(fs, s.roots))
  {
    InitGood(fs, threads);
    RunKeepsGood(fs, Init(threads), labels);
    var s := Final(fs, Init(threads), labels);
    ZeroMeansQuiescent(fs, s);
    QuiescenceLasts(fs, s, later);
    if !s.stopped {
      QuiescentIsComplete(fs, s);
    }
  }

  /** Stopped from outside or not: once wait() has returned running_ is cleared and the pool paused, with nothing in it. */
  lemma WaitedScanIsStopped(fs: FileSystem, threads: nat, labels: seq<Label>)
    requires CanRun(fs, Init(threads), labels)
    requires Final(fs, Init(threads), labels).main.Waited? || Final(fs, Init(threads), labels).main.Destroying?
    ensures
      var s := Final(fs, Init(threads), labels);
      !s.running && s.pool.sh.paused && Quiescent(s) && s.notifier.NotifierOver? && s.recorder.RecorderOver?
  {
    InitGood(fs, threads);
    RunKeepsGood(fs, Init(threads), labels);
  }

  /** After the scan object is gone every worker has left its loop, and each task that was started has finished. */
  lemma DestroyedScanIsQuiet(fs: FileSystem, threads: nat, labels: seq<Label>)
    requires CanRun(fs, Init(threads), labels)
    requires Final(fs, Init(threads), labels).pool.owner.Destroyed?
    ensures
      var s := Final(fs, Init(threads), labels);
      && (forall w :: 0 <= w < |s.pool.ws| ==> s.pool.ws[w].Exited?)
      && (forall w :: 0 <= w < |s.jobs| ==> s.jobs[w].NoJob?)
      && multiset(s.pool.finished) == multiset(s.pool.started)
      && s.notifier.NotifierOver? && s.recorder.RecorderOver?
  {
    InitGood(fs, threads);
    RunKeepsGood(fs, Init(threads), labels);
    ScanRunIsPoolRun(fs, Init(threads), labels);
    T.DestroyedPoolIsQuiet(threads, PoolLabels(fs, Init(threads), labels));
  }

  /** No step of the scan unpauses the pool. */
  lemma {:induction false} ScanNeverUnpauses(fs: FileSystem, s: Scan, labels: seq<Label>)
    requires CanRun(fs, s, labels)
    ensures T.NoUnpause(PoolLabels(fs, s, labels))
    decreases |labels|
  {
    if labels != [] {
      ScanNeverUnpauses(fs, Step(fs, s, labels[0]).value, labels[1..]);
    }
  }

  /**
   What stop() cannot do.  wait() after stop() is no promise: once the pool is paused with a task in
   the queue and no worker about to pop, no continuation ever lets the notifier see the end, so wait()
   never returns.
   */
  lemma StopWithQueuedTasksHangsWait(fs: FileSystem, threads: nat, labels: seq<Label>, later: seq<Label>)
    requires CanRun(fs, Init(threads), labels)
    requires
      var s := Final(fs, Init(threads), labels);
      s.pool.sh.paused && s.pool.sh.tasks != [] && !T.Committed(s.pool) && CanRun(fs, s, later)
    ensures
      var t := Final(fs, Final(fs, Init(threads), labels), later);
      t.pool.sh.tasks != [] && !t.notifier.SawEnd() && !t.main.Waited? && !t.main.Destroying?
  {
    InitGood(fs, threads);
    RunKeepsGood(fs, Init(threads), labels);
    var s := Final(fs, Init(threads), labels);
    RunKeepsGood(fs, s, later);
    ScanRunIsPoolRun(fs, s, later);
    ScanNeverUnpauses(fs, s, later);
    QueueStays(s.pool, PoolLabels(fs, s, later));
  }

  lemma QueueStays(p: P.Pool<string>, labels: seq<P.Label<string>>)
    requires I.Inv(p) && p.sh.paused && p.sh.tasks != [] && !T.Committed(p)
    requires P.CanRun(p, labels) && T.NoUnpause(labels)
    ensures P.Final(p, labels).sh.tasks != []
  {
    var q := P.Final(p, labels);
    T.PausedRun(p, labels);
    T.RunExtends(p, labels);
    I.RunKeepsInv(p, labels);
    assert |p.pushed| == |p.started| + |p.sh.tasks| && |q.pushed| == |q.started| + |q.sh.tasks|;
  }
}
