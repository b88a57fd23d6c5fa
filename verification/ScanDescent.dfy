/** Every step keeps the work left from growing, and every statement on behalf of a task or of launch makes it smaller. */
module ScanDescent {
  import opened FileTree
  import opened ScanMachine
  import opened ScanWork
  import opened ScanConservation
  import opened ScanInvariant
  import opened ScanPhases
  import opened ScanTotals
  import opened ScanMeasure
  import P = PoolMachine
  import I = PoolInvariant
  import R = ScanRefinesPool

  /** The worker has a task, is about to pop one, or has just finished one. */
  predicate AtWork(p: P.Pool<string>, w: nat)
    requires w < |p.ws|
  {
    p.ws[w].InFlight() || p.ws[w].NotifyTest? || (p.ws[w].Take? && p.sh.tasks != [])
  }

  /** launch() has not finished. */
  predicate Launches(main: MainPc) { !main.PastLaunch() || main.StartRecorder? || main.StartNotifier? }

  predicate Productive(s: Scan, l: Label) {
    match l
    case WorkerWork(w) => w < |s.pool.ws| && AtWork(s.pool, w)
    case MainWork => Launches(s.main)
    case _ => false
  }

  lemma JobMoveCost(tf: Tariff, s: Scan, t: Scan, w: nat)
    requires |s.pool.ws| == |s.jobs| && w < |s.jobs| && s.pool.ws[w].Busy?
    requires t.pool.ws == s.pool.ws && |t.jobs| == |s.jobs| && t.jobs == s.jobs[w := t.jobs[w]]
    requires t.main == s.main && t.roots == s.roots
    requires JobCost(tf, t.jobs[w]) + PathsCost(tf, t.pool.sh.tasks) < JobCost(tf, s.jobs[w]) + PathsCost(tf, s.pool.sh.tasks)
    ensures WorkLeft(tf, t) < WorkLeft(tf, s)
  {
    WorkersCostUpdate(tf, s.pool.ws, s.jobs, w, s.pool.ws[w], t.jobs[w]);
    assert s.pool.ws[w := s.pool.ws[w]] == s.pool.ws;
  }

  lemma JobDescends(tf: Tariff, s: Scan, w: nat)
    requires Fixed(tf) && |s.pool.ws| == |s.jobs| && w < |s.jobs| && s.pool.ws[w].Busy? && JobFormed(tf.fs, s.jobs[w])
    requires !s.jobs[w].Return? && JobStep(tf.fs, s, w).Some?
    ensures |JobStep(tf.fs, s, w).value.pool.ws| == |JobStep(tf.fs, s, w).value.jobs|
    ensures WorkLeft(tf, JobStep(tf.fs, s, w).value) < WorkLeft(tf, s)
  {
    var t := JobStep(tf.fs, s, w).value;
    if s.jobs[w].Reads() {
      ReadCheaper(tf, s.running, s.jobs[w]);
      ReadFrame(tf.fs, s, w);
    } else if s.jobs[w].Spreads() {
      SpreadShape(s, w);
      SpreadGoes(s, w);
      SpreadMoves(s, w);
      SpreadFrame(s, w);
      SpreadCheaper(tf, s.jobs[w], s.pool.sh.tasks, t.pool.sh.tasks);
    } else {
      RecordGoes(tf.fs, s, w);
      RecordMoves(tf.fs, s, w);
      RecordFrame(tf.fs, s, w);
      RecordCheaper(tf, s.jobs[w]);
    }
    JobMoveCost(tf, s, t, w);
  }

  lemma ReturnDescends(tf: Tariff, s: Scan, w: nat)
    requires |s.pool.ws| == |s.jobs| && w < |s.jobs| && s.pool.ws[w].Busy? && s.jobs[w].Return? && ReturnStep(s, w).Some?
    ensures |ReturnStep(s, w).value.pool.ws| == |ReturnStep(s, w).value.jobs|
    ensures WorkLeft(tf, ReturnStep(s, w).value) < WorkLeft(tf, s)
  {
    WorkersCostUpdate(tf, s.pool.ws, s.jobs, w, P.Relocking, NoJob);
  }

  lemma PopDescends(tf: Tariff, s: Scan, w: nat)
    requires Coherent(s.pool.ws, s.jobs) && w < |s.jobs| && s.pool.ws[w].Take? && s.pool.sh.tasks != []
    requires WorkerStep(tf.fs, s, w).Some?
    ensures |WorkerStep(tf.fs, s, w).value.pool.ws| == |WorkerStep(tf.fs, s, w).value.jobs|
    ensures WorkLeft(tf, WorkerStep(tf.fs, s, w).value) < WorkLeft(tf, s)
  {
    var path := s.pool.sh.tasks[0];
    PathsCostFront(tf, s.pool.sh.tasks);
    WorkersCostUpdate(tf, s.pool.ws, s.jobs, w, P.Releasing(path), s.jobs[w]);
    assert s.jobs[w := s.jobs[w]] == s.jobs;
  }

  lemma ReleaseDescends(tf: Tariff, s: Scan, w: nat)
    requires Coherent(s.pool.ws, s.jobs) && w < |s.jobs| && s.pool.ws[w].Releasing?
    requires WorkerStep(tf.fs, s, w).Some?
    ensures |WorkerStep(tf.fs, s, w).value.pool.ws| == |WorkerStep(tf.fs, s, w).value.jobs|
    ensures WorkLeft(tf, WorkerStep(tf.fs, s, w).value) < WorkLeft(tf, s)
  {
    var path := s.pool.ws[w].task;
    WorkersCostUpdate(tf, s.pool.ws, s.jobs, w, P.Busy(path), Enter(path));
  }

  /** The rest of the pool's loop: the end of a task costs, looking for one does not. */
  lemma LoopCost(tf: Tariff, p: P.Pool<string>, w: nat, job: Job)
    requires w < |p.ws| && P.WorkerStep(p, w).Some? && !p.ws[w].Releasing? && !(p.ws[w].Take? && p.sh.tasks != [])
    ensures |P.WorkerStep(p, w).value.ws| == |p.ws|
    ensures WorkerCost(tf, P.WorkerStep(p, w).value.ws[w], job) <= WorkerCost(tf, p.ws[w], job)
    ensures p.ws[w].Relocking? || p.ws[w].Decrement? || p.ws[w].NotifyTest? ==>
      WorkerCost(tf, P.WorkerStep(p, w).value.ws[w], job) < WorkerCost(tf, p.ws[w], job)
  {
  }

  lemma LoopDescends(tf: Tariff, s: Scan, w: nat)
    requires Coherent(s.pool.ws, s.jobs) && w < |s.jobs| && !s.pool.ws[w].Busy? && !s.pool.ws[w].Releasing?
    requires !(s.pool.ws[w].Take? && s.pool.sh.tasks != []) && WorkerStep(tf.fs, s, w).Some?
    ensures |WorkerStep(tf.fs, s, w).value.pool.ws| == |WorkerStep(tf.fs, s, w).value.jobs|
    ensures WorkLeft(tf, WorkerStep(tf.fs, s, w).value) <= WorkLeft(tf, s)
    ensures AtWork(s.pool, w) ==> WorkLeft(tf, WorkerStep(tf.fs, s, w).value) < WorkLeft(tf, s)
  {
    var q := P.WorkerStep(s.pool, w).value;
    LoopCost(tf, s.pool, w, s.jobs[w]);
    I.QuietWorkerStep(s.pool, w);
    I.WorkerMovesAlone(s.pool, w);
    WorkersCostUpdate(tf, s.pool.ws, s.jobs, w, q.ws[w], s.jobs[w]);
    assert s.jobs[w := s.jobs[w]] == s.jobs;
    assert WorkerStep(tf.fs, s, w).value == s.(pool := q);
  }

  lemma WorkerDescends(tf: Tariff, s: Scan, w: nat)
    requires Fixed(tf) && Coherent(s.pool.ws, s.jobs) && Formed(tf.fs, s.jobs) && WorkerStep(tf.fs, s, w).Some?
    ensures |WorkerStep(tf.fs, s, w).value.pool.ws| == |WorkerStep(tf.fs, s, w).value.jobs|
    ensures WorkLeft(tf, WorkerStep(tf.fs, s, w).value) <= WorkLeft(tf, s)
    ensures AtWork(s.pool, w) ==> WorkLeft(tf, WorkerStep(tf.fs, s, w).value) < WorkLeft(tf, s)
  {
    if s.pool.ws[w].Busy? {
      if s.jobs[w].Return? { ReturnDescends(tf, s, w); } else { JobDescends(tf, s, w); }
    } else if s.pool.ws[w].Take? && s.pool.sh.tasks != [] {
      PopDescends(tf, s, w);
    } else if s.pool.ws[w].Releasing? {
      ReleaseDescends(tf, s, w);
    } else {
      LoopDescends(tf, s, w);
    }
  }

  // ----- The other threads -----

  lemma LaunchGoes(s: Scan)
    requires s.main.Launching? && LaunchStep(s).Some?
    ensures s.main.i < |s.roots|
    ensures
      var t := LaunchStep(s).value;
      && t.roots == s.roots && t.jobs == s.jobs && t.pool.ws == s.pool.ws
      && t.main == (if s.main.pc.Notifying? then LaunchFrom(s.roots, s.main.i + 1) else s.main.(pc := NextPushPc(s.main.pc)))
      && t.pool.sh.tasks == if s.main.pc.Entered? then s.pool.sh.tasks + [s.roots[s.main.i]] else s.pool.sh.tasks
  {
    PushShape(s.pool, s.main.pc, |s.pool.ws|, s.roots[s.main.i]);
  }

  lemma LaunchCheaper(tf: Tariff, pc: PushPc, i: nat, roots: seq<string>, tasks: seq<string>, tasks': seq<string>)
    requires i < |roots| && tasks' == if pc.Entered? then tasks + [roots[i]] else tasks
    ensures
      var next := if pc.Notifying? then LaunchFrom(roots, i + 1) else Launching(NextPushPc(pc), i);
      MainCost(tf, next, roots) + PathsCost(tf, tasks') < MainCost(tf, Launching(pc, i), roots) + PathsCost(tf, tasks)
  {
    if pc.Notifying? {
      NotifyingCheaper(tf, roots, i);
    } else {
      PushCheaper(tf, tasks, tasks', pc, roots, i);
    }
  }

  lemma NotifyingCheaper(tf: Tariff, roots: seq<string>, i: nat)
    requires i < |roots|
    ensures MainCost(tf, LaunchFrom(roots, i + 1), roots) < MainCost(tf, Launching(Notifying, i), roots)
  {
  }

  lemma LaunchDescends(tf: Tariff, s: Scan)
    requires |s.pool.ws| == |s.jobs| && s.main.Launching? && LaunchStep(s).Some?
    ensures LaunchStep(s).value.pool.ws == s.pool.ws
    ensures WorkLeft(tf, LaunchStep(s).value) < WorkLeft(tf, s)
  {
    LaunchGoes(s);
    LaunchCheaper(tf, s.main.pc, s.main.i, s.roots, s.pool.sh.tasks, LaunchStep(s).value.pool.sh.tasks);
  }

  lemma LaunchFromCost(tf: Tariff, roots: seq<string>)
    ensures MainCost(tf, LaunchFrom(roots, 0), roots) < MainCost(tf, StoreCount, roots)
  {
    assert From(roots, 0) == roots;
  }

  lemma OwnerCost(tf: Tariff, p: P.Pool<string>, jobs: seq<Job>)
    requires |p.ws| == |jobs| && P.OwnerStep(p).Some?
    ensures |P.OwnerStep(p).value.ws| == |p.ws| && P.OwnerStep(p).value.sh.tasks == p.sh.tasks
    ensures WorkersCost(tf, P.OwnerStep(p).value.ws, jobs) == WorkersCost(tf, p.ws, jobs)
  {
    WorkersCostPointwise(tf, p.ws, P.OwnerStep(p).value.ws, jobs);
  }

  lemma MainDescends(tf: Tariff, s: Scan)
    requires |s.pool.ws| == |s.jobs| && MainStep(s).Some?
    ensures |MainStep(s).value.pool.ws| == |MainStep(s).value.jobs|
    ensures WorkLeft(tf, MainStep(s).value) <= WorkLeft(tf, s)
    ensures Launches(s.main) ==> WorkLeft(tf, MainStep(s).value) < WorkLeft(tf, s)
  {
    if s.main.Launching? {
      LaunchDescends(tf, s);
    } else if s.main.Destroying? {
      OwnerCost(tf, s.pool, s.jobs);
    } else {
      ControlFrame(s);
      LaunchFromCost(tf, s.roots);
    }
  }

  lemma OtherDescends(tf: Tariff, s: Scan, l: Label)
    requires Coherent(s.pool.ws, s.jobs) && !l.AddPath? && !l.MainWork? && !l.WorkerWork? && Step(tf.fs, s, l).Some?
    ensures |Step(tf.fs, s, l).value.pool.ws| == |Step(tf.fs, s, l).value.jobs|
    ensures WorkLeft(tf, Step(tf.fs, s, l).value) == WorkLeft(tf, s)
  {
    if l.WorkerWake? {
      WorkersCostUpdate(tf, s.pool.ws, s.jobs, l.w, P.Waking(l.timedOut), s.jobs[l.w]);
      assert s.jobs[l.w := s.jobs[l.w]] == s.jobs;
    } else if !l.MainWake? {
      ServiceFrame(tf.fs, s, l);
    }
  }

  /** The measure never grows, and a productive step makes it smaller. */
  lemma StepDescends(tf: Tariff, s: Scan, l: Label)
    requires Fixed(tf) && Structure(tf.fs, s) && Step(tf.fs, s, l).Some? && !l.AddPath?
    ensures |Step(tf.fs, s, l).value.pool.ws| == |Step(tf.fs, s, l).value.jobs|
    ensures WorkLeft(tf, Step(tf.fs, s, l).value) <= WorkLeft(tf, s)
    ensures Productive(s, l) ==> WorkLeft(tf, Step(tf.fs, s, l).value) < WorkLeft(tf, s)
  {
    match l
    case MainWork => MainDescends(tf, s);
    case WorkerWork(w) => WorkerDescends(tf, s, w);
    case _ => OtherDescends(tf, s, l);
  }

  // ----- Whole runs -----

  function ProductiveSteps(fs: FileSystem, s: Scan, labels: seq<Label>): nat
    requires CanRun(fs, s, labels)
    decreases |labels|
  {
    if labels == [] then 0
    else (if Productive(s, labels[0]) then 1 else 0) + ProductiveSteps(fs, Step(fs, s, labels[0]).value, labels[1..])
  }

  /** Termination: on any file system, a run that adds no more paths takes at most as many productive steps as its first state has work left. */
  lemma {:induction false} ProductiveStepsAreBounded(tf: Tariff, s: Scan, labels: seq<Label>)
    requires Fixed(tf) && I.Inv(s.pool) && Structure(tf.fs, s) && CanRun(tf.fs, s, labels)
    requires forall l :: l in labels ==> !l.AddPath?
    ensures |Final(tf.fs, s, labels).pool.ws| == |Final(tf.fs, s, labels).jobs|
    ensures ProductiveSteps(tf.fs, s, labels) + WorkLeft(tf, Final(tf.fs, s, labels)) <= WorkLeft(tf, s)
    decreases |labels|
  {
    if labels != [] {
      assert labels[0] in labels;
      assert forall l :: l in labels[1..] ==> l in labels;
      StepDescends(tf, s, labels[0]);
      StepKeepsStructure(tf.fs, s, labels[0]);
      R.StepKeepsPoolInv(tf.fs, s, labels[0]);
      ProductiveStepsAreBounded(tf, Step(tf.fs, s, labels[0]).value, labels[1..]);
    }
  }
}
