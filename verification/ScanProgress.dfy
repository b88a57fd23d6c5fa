/**
 Progress: unless a user stops it, a scan is never stuck.  From every reachable state some thread can
 take a step towards the end of wait(), so the scan can always be brought to its end.
 */
module ScanProgress {
  import opened FileTree
  import opened ScanMachine
  import opened ScanWork
  import opened ScanInvariant
  import opened ScanMeasure
  import opened ScanDescent
  import opened PoolRanks
  import P = PoolMachine
  import I = PoolInvariant

  // ----- Three more measures -----

  function NotifierRank(n: NotifierPc): nat {
    match n
    case NotifierOff => 6
    case Napping => 5
    case Checking => 4
    case StopRunning => 3
    case StopPause => 2
    case NotifierOver => 0
  }

  /** How far the recorder is from its exit once running_ is clear; a batch still in file_infos_ costs one more round. */
  function RecorderRank(r: RecorderPc, more: bool): nat {
    match r
    case RecUnlocking => if more then 17 else 7
    case Clearing => if more then 16 else 6
    case TestRunning => if more then 15 else 5
    case TestEmpty => if more then 14 else 4
    case RecLocking => if more then 13 else 9
    case Swapping => if more then 12 else 8
    case RecorderOver => 0
    case RecorderOff => 18
  }

  function JoinRank(main: MainPc): nat {
    if main.JoinNotifier? then 2 else if main.JoinRecorder? then 1 else 0
  }

  ghost predicate NobodyWorks(p: P.Pool<string>) {
    forall w :: 0 <= w < |p.ws| ==> !p.ws[w].InFlight() && !p.ws[w].NotifyTest?
  }

  /** Tasks are queued and no worker has one. */
  ghost predicate Seeking(s: Scan) { !Launches(s.main) && NobodyWorks(s.pool) && s.pool.sh.tasks != [] }

  /** There are no tasks any more. */
  ghost predicate Closing(s: Scan) { !Launches(s.main) && NobodyWorks(s.pool) && s.pool.sh.tasks == [] }

  ghost function Distance(s: Scan): nat
    requires |s.pool.ws| > 0
  {
    if Seeking(s) then SeekRank(s.pool.ws[0])
    else if Closing(s) then NotifierRank(s.notifier) + RecorderRank(s.recorder, s.infos != []) + JoinRank(s.main)
    else 0
  }

  /** The idle steps that the holder of tasks_mutex_ and the recorder have left before they release their locks. */
  function Holding(s: Scan): nat {
    HoldPart(s.pool) + (if s.recorder.Swapping? then 2 else if s.recorder.RecUnlocking? then 1 else 0)
  }

  /** The step is possible, and it is one of the scan's own threads that takes it. */
  ghost predicate Possible(fs: FileSystem, s: Scan, l: Label) {
    Step(fs, s, l).Some? && !l.AddPath? && !l.UserStop?
  }

  /** The step brings the scan closer to its end. */
  ghost predicate Advances(tf: Tariff, s: Scan, l: Label)
    requires |s.pool.ws| == |s.jobs| && |s.pool.ws| > 0 && Step(tf.fs, s, l).Some?
  {
    var t := Step(tf.fs, s, l).value;
    && |t.pool.ws| == |t.jobs| == |s.jobs|
    && WorkLeft(tf, t) <= WorkLeft(tf, s)
    && (WorkLeft(tf, t) < WorkLeft(tf, s)
        || Distance(t) < Distance(s)
        || (Distance(t) == Distance(s) && Holding(t) < Holding(s)))
  }

  // ----- The holder of tasks_mutex_ can always step -----

  /** A worker that holds the lock and has no task steps towards its release, and nothing else changes. */
  ghost predicate IdleStep(p: P.Pool<string>, q: P.Pool<string>, w: nat)
    requires w < |p.ws|
  {
    && |q.ws| == |p.ws| && (forall v :: 0 <= v < |p.ws| && v != w ==> q.ws[v] == p.ws[v])
    && q.sh == p.sh && q.pushed == p.pushed && !q.ws[w].InFlight() && !q.ws[w].NotifyTest?
    && (q.lock.Free? || (q.lock == P.ByWorker(w) && HoldRank(q.ws[w]) < HoldRank(p.ws[w])))
    && HoldRank(p.ws[w]) > 0
  }

  lemma HolderSteps(p: P.Pool<string>, w: nat)
    requires I.Mutex(p) && p.lock == P.ByWorker(w) && w < |p.ws|
    ensures P.WorkerStep(p, w).Some?
    ensures !AtWork(p, w) ==> IdleStep(p, P.WorkerStep(p, w).value, w)
  {
  }

  /** Which thread holds tasks_mutex_ before the destructor runs: it can step. */
  lemma TasksHolderSteps(fs: FileSystem, s: Scan) returns (l: Label)
    requires I.Mutex(s.pool) && Structure(fs, s) && !s.main.Destroying? && !s.pool.lock.Free?
    ensures Possible(fs, s, l)
    ensures Productive(s, l)
      || (l.WorkerWork? && s.pool.lock == P.ByWorker(l.w) && l.w < |s.pool.ws| && Step(fs, s, l).value == s.(pool := Step(fs, s, l).value.pool)
          && IdleStep(s.pool, Step(fs, s, l).value.pool, l.w))
  {
    match s.pool.lock {
      case ByWorker(w) =>
        l := WorkerWork(w);
        HolderSteps(s.pool, w);
      case ByPusher(client, _) =>
        if client < |s.jobs| {
          l := WorkerWork(client);
          PusherSteps(fs, s, client);
        } else {
          l := MainWork;
        }
      case ByReader(_) =>
        assert false;
        l := MainWork;
      case ByOwner =>
        assert false;
        l := MainWork;
    }
  }

  lemma PusherSteps(fs: FileSystem, s: Scan, w: nat)
    requires Structure(fs, s) && w < |s.jobs| && JobPushes(s.jobs[w])
    ensures Step(fs, s, WorkerWork(w)).Some? && Productive(s, WorkerWork(w))
  {
    assert s.pool.lock == P.ByPusher(w, PhaseOf(s.jobs[w].pc));
    assert s.pool.ws[w].Busy?;
  }

  // ----- Advancing -----

  lemma ProductiveAdvances(tf: Tariff, s: Scan, l: Label)
    requires Fixed(tf) && Structure(tf.fs, s) && |s.pool.ws| > 0 && Possible(tf.fs, s, l) && Productive(s, l)
    ensures Advances(tf, s, l)
  {
    StepDescends(tf, s, l);
    SameSize(tf.fs, s, l);
  }

  lemma SameSize(fs: FileSystem, s: Scan, l: Label)
    requires Coherent(s.pool.ws, s.jobs) && Step(fs, s, l).Some?
    ensures |Step(fs, s, l).value.jobs| == |s.jobs|
  {
    match l
    case MainWork => if s.main.Launching? { } else if s.main.Destroying? { } else { }
    case WorkerWork(w) => if s.pool.ws[w].Busy? { JobSameSize(fs, s, w); } else { LoopJobs(fs, s, w); }
    case _ =>
  }

  lemma JobSameSize(fs: FileSystem, s: Scan, w: nat)
    requires w < |s.jobs| && JobStep(fs, s, w).Some?
    ensures |JobStep(fs, s, w).value.jobs| == |s.jobs|
  {
    if s.jobs[w].Reads() {
      ReadMoves(fs, s, w);
    } else if s.jobs[w].Spreads() {
      SpreadMoves(s, w);
    }
  }

  /** An idle step of the lock's holder advances, unless it is worker 0 looking for a task, or nothing is left to do. */
  lemma IdleStepAdvances(tf: Tariff, s: Scan, w: nat)
    requires Fixed(tf) && Structure(tf.fs, s) && |s.pool.ws| > 0 && Possible(tf.fs, s, WorkerWork(w)) && w < |s.pool.ws|
    requires s.pool.lock == P.ByWorker(w)
    requires
      var t := Step(tf.fs, s, WorkerWork(w)).value;
      t == s.(pool := t.pool) && IdleStep(s.pool, t.pool, w)
    requires !Closing(s) && (Seeking(s) ==> w != 0)
    requires !s.pool.ws[w].InFlight() && !s.pool.ws[w].NotifyTest?
    ensures Advances(tf, s, WorkerWork(w))
  {
    var t := Step(tf.fs, s, WorkerWork(w)).value;
    StepDescends(tf, s, WorkerWork(w));
    assert Holding(t) < Holding(s);
    NobodyWorksFrame(s.pool, t.pool, w);
    assert Distance(t) == Distance(s);
  }

  lemma NobodyWorksFrame(p: P.Pool<string>, q: P.Pool<string>, w: nat)
    requires w < |p.ws| && IdleStep(p, q, w) && !p.ws[w].InFlight() && !p.ws[w].NotifyTest?
    ensures NobodyWorks(q) <==> NobodyWorks(p)
  {
    if !NobodyWorks(p) {
      var v :| 0 <= v < |p.ws| && (p.ws[v].InFlight() || p.ws[v].NotifyTest?);
      assert q.ws[v] == p.ws[v];
    }
  }

  /** The recorder holding file_info_mutex_ steps towards its release. */
  lemma RecorderReleases(tf: Tariff, s: Scan)
    requires Fixed(tf) && Structure(tf.fs, s) && |s.pool.ws| > 0 && s.recorder.HoldsInfo() && !Closing(s)
    ensures Possible(tf.fs, s, RecorderWork) && Advances(tf, s, RecorderWork)
  {
    StepDescends(tf, s, RecorderWork);
    RecorderFrame(s);
    assert RecorderStep(s).value.pool == s.pool;
    assert Distance(RecorderStep(s).value) == Distance(s);
    assert Holding(RecorderStep(s).value) < Holding(s);
  }

  /** Somebody waits for tasks_mutex_ while tasks or roots are being handled: its holder advances. */
  lemma HolderAdvances(tf: Tariff, s: Scan) returns (l: Label)
    requires Fixed(tf) && I.Mutex(s.pool) && Structure(tf.fs, s) && |s.pool.ws| > 0 && !s.main.Destroying? && !s.pool.lock.Free?
    requires !Closing(s) && (Seeking(s) ==> s.pool.lock != P.ByWorker(0))
    ensures Possible(tf.fs, s, l) && Advances(tf, s, l)
  {
    l := TasksHolderSteps(tf.fs, s);
    if Productive(s, l) {
      ProductiveAdvances(tf, s, l);
    } else {
      assert HoldRank(s.pool.ws[l.w]) > 0;
      IdleStepAdvances(tf, s, l.w);
    }
  }

  // ----- launch() -----

  lemma LaunchAdvances(tf: Tariff, s: Scan) returns (l: Label)
    requires Fixed(tf) && I.Mutex(s.pool) && Structure(tf.fs, s) && |s.pool.ws| > 0 && Launches(s.main)
    ensures Possible(tf.fs, s, l) && Advances(tf, s, l)
  {
    if s.main.Launching? && s.main.pc.Locking? && !s.pool.lock.Free? {
      l := HolderAdvances(tf, s);
    } else {
      l := MainWork;
      LaunchCanStep(s);
      ProductiveAdvances(tf, s, l);
    }
  }

  lemma LaunchCanStep(s: Scan)
    requires MainFormed(s) && Pushers(s.pool.lock, s.jobs, s.main) && Launches(s.main)
    requires s.main.Launching? && s.main.pc.Locking? ==> s.pool.lock.Free?
    ensures MainStep(s).Some?
  {
  }

  // ----- A worker with a task -----

  /** What do_scan waits for, if anything. */
  predicate JobBlocked(s: Scan, w: nat)
    requires w < |s.jobs|
  {
    match s.jobs[w]
    case DirLocking(_) => s.dirLock.Some?
    case Pushing(pc, _, _) => pc.Locking? && !s.pool.lock.Free?
    case InfoLocking(_) => !s.infoLock.InfoFree?
    case _ => false
  }

  lemma JobCanStep(fs: FileSystem, s: Scan, w: nat)
    requires Structure(fs, s) && w < |s.jobs| && s.pool.ws[w].Busy? && !JobBlocked(s, w)
    ensures JobStep(fs, s, w).Some?
  {
    if s.jobs[w].Pushing? && JobPushes(s.jobs[w]) {
      assert s.pool.lock == P.ByPusher(w, PhaseOf(s.jobs[w].pc));
    }
  }

  lemma BusyAdvances(tf: Tariff, s: Scan, w: nat) returns (l: Label)
    requires Fixed(tf) && I.Mutex(s.pool) && Structure(tf.fs, s) && !s.main.Destroying? && w < |s.jobs| && s.pool.ws[w].Busy?
    ensures Possible(tf.fs, s, l) && Advances(tf, s, l)
  {
    if !JobBlocked(s, w) {
      l := WorkerWork(w);
      JobCanStep(tf.fs, s, w);
      ProductiveAdvances(tf, s, l);
    } else if s.jobs[w].Pushing? {
      l := HolderAdvances(tf, s);
    } else if s.jobs[w].InfoLocking? {
      l := InfoHolderAdvances(tf, s, w);
    } else {
      l := DirHolderAdvances(tf, s, w);
    }
  }

  lemma InfoHolderAdvances(tf: Tariff, s: Scan, w: nat) returns (l: Label)
    requires Fixed(tf) && Structure(tf.fs, s) && w < |s.jobs| && s.pool.ws[w].Busy? && !s.infoLock.InfoFree?
    ensures Possible(tf.fs, s, l) && Advances(tf, s, l)
  {
    if s.infoLock.InfoRecorder? {
      l := RecorderWork;
      RecorderReleases(tf, s);
    } else {
      var u := s.infoLock.worker;
      l := WorkerWork(u);
      JobCanStep(tf.fs, s, u);
      ProductiveAdvances(tf, s, l);
    }
  }

  lemma DirHolderAdvances(tf: Tariff, s: Scan, w: nat) returns (l: Label)
    requires Fixed(tf) && I.Mutex(s.pool) && Structure(tf.fs, s) && !s.main.Destroying? && w < |s.jobs| && s.pool.ws[w].Busy?
    requires s.dirLock.Some?
    ensures Possible(tf.fs, s, l) && Advances(tf, s, l)
  {
    var u := s.dirLock.value;
    if JobBlocked(s, u) {
      l := HolderAdvances(tf, s);
    } else {
      l := WorkerWork(u);
      JobCanStep(tf.fs, s, u);
      ProductiveAdvances(tf, s, l);
    }
  }

  lemma WorkingAdvances(tf: Tariff, s: Scan) returns (l: Label)
    requires Fixed(tf) && I.Mutex(s.pool) && Structure(tf.fs, s) && !s.main.Destroying? && !NobodyWorks(s.pool)
    ensures |s.pool.ws| > 0 && Possible(tf.fs, s, l) && Advances(tf, s, l)
  {
    var w :| 0 <= w < |s.pool.ws| && (s.pool.ws[w].InFlight() || s.pool.ws[w].NotifyTest?);
    if s.pool.ws[w].Busy? {
      l := BusyAdvances(tf, s, w);
    } else if s.pool.ws[w].Relocking? && !s.pool.lock.Free? {
      l := HolderAdvances(tf, s);
    } else {
      l := WorkerWork(w);
      ProductiveAdvances(tf, s, l);
    }
  }
}
