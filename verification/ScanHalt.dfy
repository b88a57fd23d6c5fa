/**
 The tasks that a stop() leaves behind.  Once the pool is paused, how many tasks will stay in the queue
 is determined by what each thread is doing: the task a worker is just popping returns at its first test
 of running_, and every task in flight still pushes the subdirectories it has read.
 */
module ScanHalt {
  import opened Wrappers
  import opened FileTree
  import opened ScanMachine
  import opened ScanWork
  import opened ScanConservation
  import opened ScanInvariant
  import opened ScanPhases
  import opened ScanRefinesPool
  import opened ScanTheorems
  import opened ScanDescent
  import P = PoolMachine
  import I = PoolInvariant
  import T = PoolTheorems

  // ----- In the pool -----

  /** The queued tasks that no worker is about to pop. */
  function Kept(p: P.Pool<string>): nat {
    if T.Committed(p) && p.sh.tasks != [] then |p.sh.tasks| - 1 else |p.sh.tasks|
  }

  lemma PausedWorkerKeeps(p: P.Pool<string>, w: nat)
    requires I.Mutex(p) && p.sh.paused && w < |p.ws| && P.WorkerStep(p, w).Some?
    ensures P.WorkerStep(p, w).value.sh.paused && Kept(P.WorkerStep(p, w).value) == Kept(p)
  {
  }

  /** Under pause only a push changes the number of tasks that are kept. */
  lemma PausedPoolKeeps(p: P.Pool<string>, l: P.Label<string>)
    requires I.Mutex(p) && p.sh.paused && !l.Unpause? && P.Step(p, l).Some?
    ensures P.Step(p, l).value.sh.paused
    ensures Kept(P.Step(p, l).value) == Kept(p) + if l.PushQueue? then 1 else 0
  {
    if l.Work? {
      PausedWorkerKeeps(p, l.w);
    }
  }

  // ----- Pushes still to come -----

  /** The subdirectories read so far that the task has not handed to the queue. */
  function PushesLeft(job: Job): nat {
    match job
    case Reading(_, _, out) => |out.dirs|
    case Counting(out) => |out.dirs|
    case DirLocking(out) => |out.dirs|
    case Pushing(pc, out, i) => |From(out.dirs, if Handed(pc) then i + 1 else i)|
    case _ => 0
  }

  function JobsLeft(jobs: seq<Job>): nat {
    if jobs == [] then 0 else JobsLeft(jobs[..|jobs| - 1]) + PushesLeft(jobs[|jobs| - 1])
  }

  /** The roots that launch() has not handed to the queue. */
  function RootsLeft(main: MainPc, roots: seq<string>): nat {
    match main
    case Setup => |roots|
    case StoreCount => |roots|
    case Launching(pc, i) => |From(roots, if Handed(pc) then i + 1 else i)|
    case _ => 0
  }

  /** The tasks that a paused pool will be left with. */
  function LeftBehind(s: Scan): nat { Kept(s.pool) + JobsLeft(s.jobs) + RootsLeft(s.main, s.roots) }

  lemma {:induction false} JobsLeftUpdate(jobs: seq<Job>, w: nat, job: Job)
    requires w < |jobs|
    ensures JobsLeft(jobs[w := job]) + PushesLeft(jobs[w]) == JobsLeft(jobs) + PushesLeft(job)
  {
    var last := |jobs| - 1;
    if w == last {
      assert jobs[w := job][..last] == jobs[..last];
    } else {
      assert jobs[w := job][..last] == jobs[..last][w := job];
      JobsLeftUpdate(jobs[..last], w, job);
    }
  }

  lemma {:induction false} JobsLeftZero(jobs: seq<Job>)
    requires forall w :: 0 <= w < |jobs| ==> PushesLeft(jobs[w]) == 0
    ensures JobsLeft(jobs) == 0
  {
    if jobs != [] {
      JobsLeftZero(jobs[..|jobs| - 1]);
    }
  }

  lemma {:induction false} JobsLeftCovers(jobs: seq<Job>, w: nat)
    requires w < |jobs|
    ensures PushesLeft(jobs[w]) <= JobsLeft(jobs)
  {
    if w < |jobs| - 1 {
      JobsLeftCovers(jobs[..|jobs| - 1], w);
    }
  }

  /** 1 if the pool step is the enqueueing statement of push_task. */
  function Enqueues(pl: Option<P.Label<string>>): nat {
    if pl.Some? && pl.value.PushQueue? then 1 else 0
  }

  // ----- What one step of a task does -----

  /** Reading on can only add subdirectories; with running_ clear it adds none. */
  lemma ReadLeft(fs: FileSystem, running: bool, job: Job)
    requires job.Reads()
    ensures PushesLeft(ReadOne(fs, running, job).next) >= PushesLeft(job)
    ensures !running ==> PushesLeft(ReadOne(fs, running, job).next) == PushesLeft(job)
  {
  }

  lemma PushingLeft(pc: PushPc, out: Listing, i: nat)
    requires i < |out.dirs|
    ensures
      PushesLeft(SpreadNext(Pushing(pc, out, i))) + (if pc.Entered? then 1 else 0) == PushesLeft(Pushing(pc, out, i))
  {
  }

  lemma SpreadLeft(job: Job)
    requires job.Spreads() && (job.Pushing? ==> job.i < |job.out.dirs|)
    ensures PushesLeft(SpreadNext(job)) + (if job.Pushing? && job.pc.Entered? then 1 else 0) == PushesLeft(job)
  {
    if job.Pushing? {
      PushingLeft(job.pc, job.out, job.i);
    }
  }

  /** The job of one worker moves on: the others, and launch(), are where they were. */
  predicate Moves(s: Scan, t: Scan, w: nat) {
    w < |s.jobs| && |t.jobs| == |s.jobs| && t.jobs == s.jobs[w := t.jobs[w]] && t.main == s.main && t.roots == s.roots
  }

  lemma ReadingMoves(fs: FileSystem, s: Scan, w: nat)
    requires w < |s.jobs| && s.pool.ws != [] && s.jobs[w].Reads()
    ensures
      var t := ReadStep(fs, s, w);
      && Moves(s, t, w) && PushesLeft(t.jobs[w]) >= PushesLeft(s.jobs[w])
      && (!s.running ==> PushesLeft(t.jobs[w]) == PushesLeft(s.jobs[w]))
  {
    ReadLeft(fs, s.running, s.jobs[w]);
  }

  lemma SpreadingMoves(s: Scan, w: nat)
    requires w < |s.jobs| && w < |s.pool.ws| && s.pool.ws[w].Busy? && s.jobs[w].Spreads() && SpreadStep(s, w).Some?
    ensures
      var t := SpreadStep(s, w).value;
      Moves(s, t, w) && PushesLeft(t.jobs[w]) + Enqueues(WorkerPoolLabel(s, w)) == PushesLeft(s.jobs[w])
  {
    SpreadGoes(s, w);
    SpreadMoves(s, w);
    SpreadFrame(s, w);
    SpreadLeft(s.jobs[w]);
  }

  lemma RecordingMoves(fs: FileSystem, s: Scan, w: nat)
    requires w < |s.jobs| && s.jobs[w].Records() && RecordStep(fs, s, w).Some?
    ensures
      var t := RecordStep(fs, s, w).value;
      Moves(s, t, w) && PushesLeft(t.jobs[w]) == PushesLeft(s.jobs[w]) == 0
  {
  }

  lemma ReturningMoves(s: Scan, w: nat)
    requires w < |s.jobs| && s.jobs[w].Return? && ReturnStep(s, w).Some?
    ensures
      var t := ReturnStep(s, w).value;
      Moves(s, t, w) && PushesLeft(t.jobs[w]) == PushesLeft(s.jobs[w]) == 0
  {
  }

  /** Every statement of do_scan: what it enqueues it no longer has to push. */
  lemma JobMoves(fs: FileSystem, s: Scan, w: nat)
    requires w < |s.jobs| && w < |s.pool.ws| && s.pool.ws[w].Busy? && JobStep(fs, s, w).Some?
    ensures
      var t := JobStep(fs, s, w).value;
      && Moves(s, t, w)
      && PushesLeft(t.jobs[w]) + Enqueues(WorkerPoolLabel(s, w)) >= PushesLeft(s.jobs[w])
      && (!s.running ==> PushesLeft(t.jobs[w]) + Enqueues(WorkerPoolLabel(s, w)) == PushesLeft(s.jobs[w]))
  {
    if s.jobs[w].Reads() {
      ReadingMoves(fs, s, w);
    } else if s.jobs[w].Spreads() {
      SpreadingMoves(s, w);
    } else if s.jobs[w].Records() {
      RecordingMoves(fs, s, w);
    } else {
      ReturningMoves(s, w);
    }
  }

  /** A worker outside do_scan pushes nothing, and a task that it starts has read nothing yet. */
  lemma LoopLeavesPushes(fs: FileSystem, s: Scan, w: nat)
    requires Coherent(s.pool.ws, s.jobs) && w < |s.jobs| && !s.pool.ws[w].Busy? && WorkerStep(fs, s, w).Some?
    ensures
      var t := WorkerStep(fs, s, w).value;
      Moves(s, t, w) && PushesLeft(t.jobs[w]) == PushesLeft(s.jobs[w]) == 0 && Enqueues(WorkerPoolLabel(s, w)) == 0
  {
    assert s.jobs[w := s.jobs[w]] == s.jobs;
  }

  lemma LaunchingLeft(pc: PushPc, i: nat, roots: seq<string>)
    requires i < |roots|
    ensures
      var next := if pc.Notifying? then LaunchFrom(roots, i + 1) else Launching(NextPushPc(pc), i);
      RootsLeft(next, roots) + (if pc.Entered? then 1 else 0) == RootsLeft(Launching(pc, i), roots)
  {
  }

  lemma LaunchLeavesRoots(s: Scan)
    requires s.main.Launching? && LaunchStep(s).Some?
    ensures
      var t := LaunchStep(s).value;
      && t.jobs == s.jobs && t.roots == s.roots
      && RootsLeft(t.main, t.roots) + Enqueues(MainPoolLabel(s)) == RootsLeft(s.main, s.roots)
  {
    LaunchGoes(s);
    LaunchingLeft(s.main.pc, s.main.i, s.roots);
  }

  lemma MainLeavesRoots(s: Scan)
    requires MainStep(s).Some?
    ensures
      var t := MainStep(s).value;
      && t.jobs == s.jobs && t.roots == s.roots
      && RootsLeft(t.main, t.roots) + Enqueues(MainPoolLabel(s)) == RootsLeft(s.main, s.roots)
  {
    if s.main.Launching? {
      LaunchLeavesRoots(s);
    }
  }

  // ----- What a step of any thread does -----

  /** The pushes still to come, of tasks and of launch(). */
  function ToPush(s: Scan): nat { JobsLeft(s.jobs) + RootsLeft(s.main, s.roots) }

  lemma WorkerToPush(fs: FileSystem, s: Scan, w: nat)
    requires Coherent(s.pool.ws, s.jobs) && w < |s.jobs| && WorkerStep(fs, s, w).Some?
    ensures
      var t := WorkerStep(fs, s, w).value;
      && ToPush(t) + Enqueues(WorkerPoolLabel(s, w)) >= ToPush(s)
      && (!s.running || s.jobs[w].NoJob? ==> ToPush(t) + Enqueues(WorkerPoolLabel(s, w)) == ToPush(s))
  {
    if s.pool.ws[w].Busy? {
      JobMoves(fs, s, w);
    } else {
      LoopLeavesPushes(fs, s, w);
    }
    JobsLeftUpdate(s.jobs, w, WorkerStep(fs, s, w).value.jobs[w]);
  }

  lemma ServiceToPush(fs: FileSystem, s: Scan, l: Label)
    requires !l.AddPath? && !l.MainWork? && !l.WorkerWork? && Step(fs, s, l).Some?
    ensures ToPush(Step(fs, s, l).value) == ToPush(s) && Enqueues(PoolLabel(s, l)) == 0
  {
    if l.NotifierWork? || l.RecorderWork? || l.UserStop? {
      ServiceFrame(fs, s, l);
    } else {
      assert Step(fs, s, l).value == s.(pool := Step(fs, s, l).value.pool);
    }
  }

  /** No task in flight can find more subdirectories: running_ is clear, or there is no such task. */
  ghost predicate Determined(s: Scan) { !s.running || forall w :: 0 <= w < |s.jobs| ==> s.jobs[w].NoJob? }

  lemma StepToPush(fs: FileSystem, s: Scan, l: Label)
    requires Coherent(s.pool.ws, s.jobs) && Step(fs, s, l).Some?
    ensures
      var t := Step(fs, s, l).value;
      && ToPush(t) + Enqueues(PoolLabel(s, l)) >= ToPush(s)
      && (Determined(s) && !l.AddPath? ==> ToPush(t) + Enqueues(PoolLabel(s, l)) == ToPush(s))
  {
    match l
    case WorkerWork(w) => WorkerToPush(fs, s, w);
    case MainWork => MainLeavesRoots(s);
    case AddPath(path) =>
    case _ => ServiceToPush(fs, s, l);
  }

  lemma StepKept(fs: FileSystem, s: Scan, l: Label)
    requires I.Mutex(s.pool) && s.pool.sh.paused && Step(fs, s, l).Some?
    ensures Step(fs, s, l).value.pool.sh.paused
    ensures Kept(Step(fs, s, l).value.pool) == Kept(s.pool) + Enqueues(PoolLabel(s, l))
  {
    StepRefines(fs, s, l);
    if PoolLabel(s, l).Some? {
      NeverUnpauses(s, l);
      PausedPoolKeeps(s.pool, PoolLabel(s, l).value);
    }
  }

  lemma NeverUnpauses(s: Scan, l: Label)
    requires PoolLabel(s, l).Some?
    ensures !PoolLabel(s, l).value.Unpause?
  {
  }

  /**
   Under pause no step of any thread makes the number of tasks left behind smaller, and once running_ is
   clear no step of the scan changes it.
   */
  lemma StepLeavesBehind(fs: FileSystem, s: Scan, l: Label)
    requires I.Mutex(s.pool) && Coherent(s.pool.ws, s.jobs) && s.pool.sh.paused && Step(fs, s, l).Some?
    ensures Step(fs, s, l).value.pool.sh.paused
    ensures LeftBehind(Step(fs, s, l).value) >= LeftBehind(s)
    ensures Determined(s) && !l.AddPath? ==> LeftBehind(Step(fs, s, l).value) == LeftBehind(s)
  {
    StepToPush(fs, s, l);
    StepKept(fs, s, l);
  }

  lemma {:induction false} RunLeavesBehind(fs: FileSystem, s: Scan, labels: seq<Label>)
    requires Good(fs, s) && s.pool.sh.paused && CanRun(fs, s, labels)
    ensures Final(fs, s, labels).pool.sh.paused && LeftBehind(Final(fs, s, labels)) >= LeftBehind(s)
    decreases |labels|
  {
    if labels != [] {
      StepLeavesBehind(fs, s, labels[0]);
      StepKeepsGood(fs, s, labels[0]);
      RunLeavesBehind(fs, Step(fs, s, labels[0]).value, labels[1..]);
    }
  }

  /** When all is over nothing has been left behind. */
  lemma QuiescentLeavesNothing(s: Scan)
    requires Coherent(s.pool.ws, s.jobs) && Quiescent(s)
    ensures LeftBehind(s) == 0
  {
    QuiescentNobodyWorks(s.pool.ws);
    assert forall w :: 0 <= w < |s.jobs| ==> s.jobs[w].NoJob?;
    JobsLeftZero(s.jobs);
  }

  // ----- A stop that leaves nothing behind -----

  /**
   The pool is paused and nothing will be left in its queue; and there is no task while running_ is set,
   so that none can find more subdirectories.
   */
  ghost predicate Halted(s: Scan) {
    s.pool.sh.paused && LeftBehind(s) == 0 && (s.running ==> NoTasks(s.pool))
  }

  /** No task is queued, popped or running. */
  ghost predicate NoTasks(p: P.Pool<string>) {
    p.sh.tasks == [] && forall w :: 0 <= w < |p.ws| ==> !p.ws[w].Busy? && !p.ws[w].Releasing?
  }

  lemma WorkerFindsNoTask(p: P.Pool<string>, w: nat)
    requires NoTasks(p) && w < |p.ws| && P.WorkerStep(p, w).Some?
    ensures NoTasks(P.WorkerStep(p, w).value)
  {
  }

  /** An empty pool stays empty until something is pushed. */
  lemma EmptyPoolStays(p: P.Pool<string>, l: P.Label<string>)
    requires NoTasks(p) && P.Step(p, l).Some? && !l.PushQueue?
    ensures NoTasks(P.Step(p, l).value)
  {
    if l.Work? {
      WorkerFindsNoTask(p, l.w);
    }
  }

  /** While running_ is set and no task exists, none comes into being. */
  lemma IdleStaysHalted(fs: FileSystem, s: Scan, l: Label)
    requires I.Mutex(s.pool) && Coherent(s.pool.ws, s.jobs) && Halted(s) && s.running && Step(fs, s, l).Some? && !l.AddPath?
    ensures Halted(Step(fs, s, l).value)
  {
    StepToPush(fs, s, l);
    StepLeavesBehind(fs, s, l);
    StepRefines(fs, s, l);
    if PoolLabel(s, l).Some? {
      EmptyPoolStays(s.pool, PoolLabel(s, l).value);
    }
  }

  /** Only launch() sets running_, and then nothing has been pushed yet. */
  lemma RunningComesFromLaunch(fs: FileSystem, s: Scan, l: Label)
    requires Good(fs, s) && !s.running && Step(fs, s, l).Some? && Step(fs, s, l).value.running
    ensures NoTasks(Step(fs, s, l).value.pool)
  {
    RunningStaysClear(fs, s, l);
    NothingPushed(s.pool);
  }

  lemma RunningStaysClear(fs: FileSystem, s: Scan, l: Label)
    requires !s.running && Step(fs, s, l).Some? && Step(fs, s, l).value.running
    ensures l.MainWork? && s.main.Setup? && Step(fs, s, l).value.pool == s.pool
  {
  }

  lemma StepKeepsHalted(fs: FileSystem, s: Scan, l: Label)
    requires Good(fs, s) && Halted(s) && Step(fs, s, l).Some? && !l.AddPath?
    ensures Halted(Step(fs, s, l).value)
  {
    if s.running {
      IdleStaysHalted(fs, s, l);
    } else {
      StepLeavesBehind(fs, s, l);
      if Step(fs, s, l).value.running {
        RunningComesFromLaunch(fs, s, l);
      }
    }
  }
}
