/**
 Fair rounds exist.  From every reachable state of the scan, stopped or not, the scan's own threads can go on
 so that each of them steps unless it is blocked all the time; the bounds on fair rounds are therefore not empty.
 */
module ScanRounds {
  import opened Wrappers
  import opened FileTree
  import opened ScanMachine
  import opened ScanConservation
  import opened ScanInvariant
  import opened ScanTheorems
  import opened ScanProgress
  import opened ScanCompletion
  import opened ScanQuiet
  import opened ScanFairness
  import P = PoolMachine
  import I = PoolInvariant

  // ----- Freeing tasks_mutex_ -----

  /** The statements between here and the release of tasks_mutex_. */
  function HoldCost(s: Scan): nat {
    match s.pool.lock
    case Free => 0
    case ByWorker(h) => if h < |s.pool.ws| then HolderCost(s.pool.ws[h]) else 0
    case ByPusher(_, phase) => (match phase case Entered => 3 case Queued => 2 case Tallied => 1)
    case ByReader(_) => 1
    case ByOwner => if s.pool.owner.Testing? then 3 else if s.pool.owner.Clear? then 2 else 1
  }

  function HolderCost(pc: P.WorkerPc<string>): nat {
    match pc
    case Recheck => 7
    case Predicate => 6
    case ReadRunning => 5
    case ReadPaused => 4
    case Take => 3
    case Decrement => 3
    case NotifyTest => 2
    case _ => 1
  }

  function HolderLabel(s: Scan): Label {
    match s.pool.lock
    case ByWorker(h) => WorkerWork(h)
    case ByPusher(client, _) => if client < |s.jobs| then WorkerWork(client) else MainWork
    case _ => MainWork
  }

  /** A worker that waits for tasks_mutex_ to push a subdirectory. */
  predicate AwaitsPush(job: Job) { job.Pushing? && job.pc.Locking? }

  /** A step of the holder: the other mutexes, and the tasks that wait for this one, are left alone. */
  ghost predicate Frees(s: Scan, t: Scan) {
    && (t.pool.lock.Free? || HoldCost(t) < HoldCost(s))
    && t.dirLock == s.dirLock && t.infoLock == s.infoLock && |t.jobs| == |s.jobs|
    && forall v :: 0 <= v < |s.jobs| && AwaitsPush(s.jobs[v]) ==> t.jobs[v] == s.jobs[v]
  }

  lemma WorkerHolderFrees(fs: FileSystem, s: Scan, h: nat)
    requires I.Mutex(s.pool) && Structure(fs, s) && s.pool.lock == P.ByWorker(h)
    ensures Step(fs, s, WorkerWork(h)).Some? && Frees(s, Step(fs, s, WorkerWork(h)).value)
  {
    assert s.pool.ws[h].HoldsLock();
    HolderCostFalls(s.pool, h);
    LoopFrame(fs, s, h);
    LoopJobs(fs, s, h);
  }

  lemma HolderCostFalls(p: P.Pool<string>, h: nat)
    requires h < |p.ws| && p.ws[h].HoldsLock() && p.lock == P.ByWorker(h)
    ensures P.WorkerStep(p, h).Some? && |P.WorkerStep(p, h).value.ws| == |p.ws|
    ensures
      var q := P.WorkerStep(p, h).value;
      q.lock.Free? || (q.lock == p.lock && HolderCost(q.ws[h]) < HolderCost(p.ws[h]))
  {
  }

  lemma PushingWorkerFrees(fs: FileSystem, s: Scan, w: nat)
    requires Structure(fs, s) && w < |s.jobs| && JobPushes(s.jobs[w])
    ensures Step(fs, s, WorkerWork(w)).Some? && Frees(s, Step(fs, s, WorkerWork(w)).value)
  {
    PusherSteps(fs, s, w);
    SpreadMoves(s, w);
    SpreadFrame(s, w);
  }

  lemma PushingMainFrees(fs: FileSystem, s: Scan)
    requires Structure(fs, s) && MainPushes(s.main)
    ensures MainStep(s).Some? && Frees(s, MainStep(s).value)
  {
  }

  lemma OwnerFrees(fs: FileSystem, s: Scan)
    requires I.Mutex(s.pool) && Structure(fs, s) && s.pool.lock.ByOwner?
    ensures MainStep(s).Some? && Frees(s, MainStep(s).value)
  {
  }

  lemma HolderFrees(fs: FileSystem, s: Scan)
    requires I.Mutex(s.pool) && Structure(fs, s) && !s.pool.lock.Free?
    ensures Step(fs, s, HolderLabel(s)).Some? && Frees(s, Step(fs, s, HolderLabel(s)).value)
  {
    match s.pool.lock {
      case ByWorker(h) => WorkerHolderFrees(fs, s, h);
      case ByPusher(client, _) =>
        if client < |s.jobs| { PushingWorkerFrees(fs, s, client); } else { PushingMainFrees(fs, s); }
      case ByOwner => OwnerFrees(fs, s);
      case ByReader(_) =>
    }
  }

  /** The other mutexes, and the tasks that wait for this one, are left alone. */
  ghost predicate LeavesRest(s: Scan, t: Scan) {
    && t.dirLock == s.dirLock && t.infoLock == s.infoLock && |t.jobs| == |s.jobs|
    && forall v :: 0 <= v < |s.jobs| && AwaitsPush(s.jobs[v]) ==> t.jobs[v] == s.jobs[v]
  }

  lemma LeavesRestTransitive(s: Scan, t: Scan, u: Scan)
    requires LeavesRest(s, t) && LeavesRest(t, u)
    ensures LeavesRest(s, u)
  {
  }

  lemma HolderStepFrees(fs: FileSystem, s: Scan) returns (l: Label)
    requires Good(fs, s) && !s.pool.lock.Free?
    ensures Possible(fs, s, l)
    ensures
      var t := Step(fs, s, l).value;
      Good(fs, t) && LeavesRest(s, t) && (t.pool.lock.Free? || HoldCost(t) < HoldCost(s))
  {
    l := HolderLabel(s);
    HolderFrees(fs, s);
    StepKeepsGood(fs, s, l);
  }

  lemma {:induction false} FreeTasks(fs: FileSystem, s: Scan) returns (labels: seq<Label>)
    requires Good(fs, s)
    ensures CanRun(fs, s, labels) && OwnLabels(labels)
    ensures Good(fs, Final(fs, s, labels)) && Final(fs, s, labels).pool.lock.Free? && LeavesRest(s, Final(fs, s, labels))
    decreases !s.pool.lock.Free?, HoldCost(s)
  {
    if s.pool.lock.Free? {
      labels := [];
    } else {
      var l := HolderStepFrees(fs, s);
      var t := Step(fs, s, l).value;
      var rest := FreeTasks(fs, t);
      labels := [l] + rest;
      assert labels[1..] == rest;
      LeavesRestTransitive(s, t, Final(fs, s, labels));
    }
  }

  // ----- Freeing dir_mutex_ -----

  function PushCost(pc: PushPc): nat {
    match pc
    case Locking => 5
    case Entered => 4
    case Queued => 3
    case Tallied => 2
    case Notifying => 1
  }

  /** The statements between here and the release of dir_mutex_. */
  function DirCost(job: Job): nat {
    match job
    case Pushing(pc, out, i) => if i < |out.dirs| then 6 * (|out.dirs| - i) + PushCost(pc) + 1 else 1
    case _ => 1
  }

  lemma SpreadCostFalls(job: Job)
    requires job.HoldsDir() && (job.Pushing? ==> job.i < |job.out.dirs|)
    ensures job.Pushing? ==> SpreadNext(job).HoldsDir() && DirCost(SpreadNext(job)) < DirCost(job)
  {
  }

  lemma DirHolderFrees(fs: FileSystem, s: Scan, v: nat)
    requires Structure(fs, s) && s.dirLock == Some(v) && (AwaitsPush(s.jobs[v]) ==> s.pool.lock.Free?)
    ensures Step(fs, s, WorkerWork(v)).Some?
    ensures
      var t := Step(fs, s, WorkerWork(v)).value;
      && t.infoLock == s.infoLock && v < |t.jobs|
      && (t.dirLock.None? || (t.dirLock == s.dirLock && DirCost(t.jobs[v]) < DirCost(s.jobs[v])))
  {
    assert s.jobs[v].HoldsDir() && s.pool.ws[v].Busy?;
    JobCanStep(fs, s, v);
    SpreadFrame(s, v);
    SpreadGoes(s, v);
    SpreadCostFalls(s.jobs[v]);
  }

  /** dir_mutex_ is held by worker v, and nothing keeps it from its next statement. */
  ghost predicate CanSpread(fs: FileSystem, s: Scan, v: nat) {
    Good(fs, s) && s.dirLock == Some(v) && v < |s.jobs| && (AwaitsPush(s.jobs[v]) ==> s.pool.lock.Free?)
  }

  lemma DirHolderGetsReady(fs: FileSystem, s: Scan, v: nat) returns (labels: seq<Label>)
    requires Good(fs, s) && s.dirLock == Some(v)
    ensures v < |s.jobs| && CanRun(fs, s, labels) && OwnLabels(labels) && CanSpread(fs, Final(fs, s, labels), v)
    ensures Final(fs, s, labels).infoLock == s.infoLock && Final(fs, s, labels).jobs[v] == s.jobs[v]
  {
    if AwaitsPush(s.jobs[v]) {
      labels := FreeTasks(fs, s);
    } else {
      labels := [];
    }
  }

  /** One statement of the holder of dir_mutex_. */
  lemma DirStep(fs: FileSystem, s: Scan, v: nat) returns (t: Scan)
    requires CanSpread(fs, s, v)
    ensures Step(fs, s, WorkerWork(v)) == Some(t) && Good(fs, t) && t.infoLock == s.infoLock
    ensures t.dirLock.None? || (t.dirLock == Some(v) && v < |t.jobs| && DirCost(t.jobs[v]) < DirCost(s.jobs[v]))
  {
    DirHolderFrees(fs, s, v);
    StepKeepsGood(fs, s, WorkerWork(v));
    t := Step(fs, s, WorkerWork(v)).value;
  }

  function DirCostOf(s: Scan): nat {
    if s.dirLock.Some? && s.dirLock.value < |s.jobs| then DirCost(s.jobs[s.dirLock.value]) else 0
  }

  lemma DirCostFell(s: Scan, t: Scan, v: nat)
    requires s.dirLock == Some(v) && v < |s.jobs|
    requires t.dirLock.None? || (t.dirLock == Some(v) && v < |t.jobs| && DirCost(t.jobs[v]) < DirCost(s.jobs[v]))
    ensures t.dirLock.None? || DirCostOf(t) < DirCostOf(s)
  {
  }

  /** The holder of dir_mutex_ is brought to its next statement, and takes it. */
  lemma DirHolderSteps(fs: FileSystem, s: Scan) returns (labels: seq<Label>)
    requires Good(fs, s) && s.dirLock.Some?
    ensures CanRun(fs, s, labels) && OwnLabels(labels)
    ensures
      var t := Final(fs, s, labels);
      Good(fs, t) && t.infoLock == s.infoLock && (t.dirLock.None? || DirCostOf(t) < DirCostOf(s))
  {
    var v := s.dirLock.value;
    var first := DirHolderGetsReady(fs, s, v);
    var t := DirStep(fs, Final(fs, s, first), v);
    RunOne(fs, s, first, WorkerWork(v));
    labels := first + [WorkerWork(v)];
    DirCostFell(s, t, v);
  }

  lemma {:induction false} FreeDir(fs: FileSystem, s: Scan) returns (labels: seq<Label>)
    requires Good(fs, s)
    ensures CanRun(fs, s, labels) && OwnLabels(labels)
    ensures
      var t := Final(fs, s, labels);
      Good(fs, t) && t.dirLock.None? && t.infoLock == s.infoLock
    decreases s.dirLock.Some?, DirCostOf(s)
  {
    if s.dirLock.None? {
      labels := [];
    } else {
      var first := DirHolderSteps(fs, s);
      var rest := FreeDir(fs, Final(fs, s, first));
      RunAppend(fs, s, first, rest);
      labels := first + rest;
    }
  }

  lemma RunOne(fs: FileSystem, s: Scan, first: seq<Label>, l: Label)
    requires CanRun(fs, s, first) && Step(fs, Final(fs, s, first), l).Some?
    ensures CanRun(fs, s, first + [l]) && Final(fs, s, first + [l]) == Step(fs, Final(fs, s, first), l).value
  {
    SingleStep(fs, Final(fs, s, first), l);
    RunAppend(fs, s, first, [l]);
  }

  lemma SingleStep(fs: FileSystem, s: Scan, l: Label)
    requires Step(fs, s, l).Some?
    ensures CanRun(fs, s, [l]) && Final(fs, s, [l]) == Step(fs, s, l).value
  {
    assert [l][1..] == [];
  }

  // ----- Freeing file_info_mutex_ -----

  /** The statements between here and the release of file_info_mutex_. */
  function InfoCost(s: Scan): nat {
    match s.infoLock
    case InfoFree => 0
    case InfoRecorder => if s.recorder.Swapping? then 2 else 1
    case InfoWorker(v) => if v < |s.jobs| then RecordCost(s.jobs[v]) else 0
  }

  function RecordCost(job: Job): nat {
    match job
    case Files(out, i) => if i <= |out.files| then |out.files| - i + |out.links| + 2 else 1
    case Links(out, i) => if i <= |out.links| then |out.links| - i + 1 else 1
    case _ => 1
  }

  lemma InfoWorkerFrees(fs: FileSystem, s: Scan, v: nat)
    requires Structure(fs, s) && s.infoLock == InfoWorker(v)
    ensures Step(fs, s, WorkerWork(v)).Some?
    ensures
      var t := Step(fs, s, WorkerWork(v)).value;
      t.dirLock == s.dirLock && t.pool == s.pool && (t.infoLock.InfoFree? || (t.infoLock == s.infoLock && InfoCost(t) < InfoCost(s)))
  {
    assert s.jobs[v].HoldsInfo() && s.pool.ws[v].Busy?;
    RecordFrame(fs, s, v);
    RecordCostFalls(fs, s, v);
  }

  lemma RecordCostFalls(fs: FileSystem, s: Scan, v: nat)
    requires v < |s.jobs| && s.jobs[v].HoldsInfo() && JobFormed(fs, s.jobs[v]) && s.infoLock == InfoWorker(v)
    ensures RecordStep(fs, s, v).Some?
    ensures
      var t := RecordStep(fs, s, v).value;
      t.infoLock.InfoFree? || (t.infoLock == s.infoLock && v < |t.jobs| && RecordCost(t.jobs[v]) < RecordCost(s.jobs[v]))
  {
  }

  lemma RecorderFrees(s: Scan)
    requires s.infoLock.InfoRecorder? && s.recorder.HoldsInfo()
    ensures RecorderStep(s).Some?
    ensures
      var t := RecorderStep(s).value;
      t.dirLock == s.dirLock && t.pool == s.pool && (t.infoLock.InfoFree? || (t.infoLock == s.infoLock && InfoCost(t) < InfoCost(s)))
  {
  }

  lemma {:induction false} FreeInfo(fs: FileSystem, s: Scan) returns (labels: seq<Label>)
    requires Good(fs, s)
    ensures CanRun(fs, s, labels) && OwnLabels(labels)
    ensures
      var t := Final(fs, s, labels);
      Good(fs, t) && t.infoLock.InfoFree? && t.dirLock == s.dirLock
    decreases InfoCost(s)
  {
    if s.infoLock.InfoFree? {
      labels := [];
    } else {
      var l := if s.infoLock.InfoRecorder? then RecorderWork else WorkerWork(s.infoLock.worker);
      if s.infoLock.InfoRecorder? {
        RecorderFrees(s);
      } else {
        InfoWorkerFrees(fs, s, s.infoLock.worker);
      }
      StepKeepsGood(fs, s, l);
      var rest := [];
      if !Step(fs, s, l).value.infoLock.InfoFree? {
        rest := FreeInfo(fs, Step(fs, s, l).value);
      }
      labels := [l] + rest;
      assert labels[1..] == rest;
    }
  }

  /** No mutex is held. */
  predicate AllFree(s: Scan) { s.pool.lock.Free? && s.dirLock.None? && s.infoLock.InfoFree? }

  lemma FreeAll(fs: FileSystem, s: Scan) returns (labels: seq<Label>)
    requires Good(fs, s)
    ensures CanRun(fs, s, labels) && OwnLabels(labels)
    ensures Good(fs, Final(fs, s, labels)) && AllFree(Final(fs, s, labels))
  {
    var a := FreeDir(fs, s);
    var t := Final(fs, s, a);
    var b := FreeInfo(fs, t);
    RunAppend(fs, s, a, b);
    var u := Final(fs, t, b);
    var c := FreeTasks(fs, u);
    RunAppend(fs, s, a + b, c);
    labels := a + b + c;
  }

  // ----- Who can step once the mutexes are free -----

  /** The thread has a next statement that only a mutex can keep it from. */
  predicate Ready(s: Scan, a: Agent) {
    match a
    case Main =>
      (match s.main
       case JoinNotifier => s.notifier.NotifierOver?
       case JoinRecorder => s.recorder.RecorderOver?
       case Destroying => OwnerReady(s.pool)
       case _ => true)
    case Worker(w) => w < |s.pool.ws| && !s.pool.ws[w].Exited?
    case Notifier => !s.notifier.NotifierOff? && !s.notifier.NotifierOver?
    case Recorder => !s.recorder.RecorderOff? && !s.recorder.RecorderOver?
  }

  predicate OwnerReady(p: P.Pool<string>) {
    match p.owner
    case Outside => false
    case Sleeping(_) => false
    case Destroyed => false
    case Joining(i) => i >= |p.ws| || p.ws[i].Exited?
    case _ => true
  }

  lemma EnabledIsReady(fs: FileSystem, s: Scan, a: Agent)
    requires Structure(fs, s) && Enabled(fs, s, a)
    ensures Ready(s, a)
  {
  }

  lemma FreeMainIsEnabled(fs: FileSystem, s: Scan)
    requires I.Mutex(s.pool) && Structure(fs, s) && AllFree(s) && Ready(s, Main)
    ensures Enabled(fs, s, Main)
  {
    if s.main.Launching? {
      LaunchCanStep(s);
    }
  }

  lemma FreeWorkerIsEnabled(fs: FileSystem, s: Scan, w: nat)
    requires I.Mutex(s.pool) && Structure(fs, s) && AllFree(s) && Ready(s, Worker(w))
    ensures Enabled(fs, s, Worker(w))
  {
    assert !s.pool.ws[w].HoldsLock();
    if s.pool.ws[w].Busy? {
      JobCanStep(fs, s, w);
    }
  }

  lemma FreeIsEnabled(fs: FileSystem, s: Scan, a: Agent)
    requires I.Mutex(s.pool) && Structure(fs, s) && AllFree(s) && Ready(s, a)
    ensures Enabled(fs, s, a)
  {
    match a
    case Main => FreeMainIsEnabled(fs, s);
    case Worker(w) => FreeWorkerIsEnabled(fs, s, w);
    case _ =>
  }

  // ----- Readiness lasts until the thread steps -----

  lemma WorkerLeavesOthers(fs: FileSystem, s: Scan, w: nat)
    requires Coherent(s.pool.ws, s.jobs) && WorkerStep(fs, s, w).Some?
    ensures
      var t := WorkerStep(fs, s, w).value;
      && t.main == s.main && t.notifier == s.notifier && t.recorder == s.recorder && |t.pool.ws| == |s.pool.ws|
      && (forall v :: 0 <= v < |s.pool.ws| && v != w ==> t.pool.ws[v] == s.pool.ws[v])
      && (!s.pool.owner.Sleeping? ==> t.pool.owner == s.pool.owner)
  {
    if s.pool.ws[w].Busy? {
      JobLeavesOthers(fs, s, w);
    } else {
      LoopFrame(fs, s, w);
      LoopJobs(fs, s, w);
      LoopLeavesOthers(s.pool, w);
    }
  }

  lemma LoopLeavesOthers(p: P.Pool<string>, w: nat)
    requires w < |p.ws| && P.WorkerStep(p, w).Some?
    ensures |P.WorkerStep(p, w).value.ws| == |p.ws|
    ensures forall v :: 0 <= v < |p.ws| && v != w ==> P.WorkerStep(p, w).value.ws[v] == p.ws[v]
    ensures !p.owner.Sleeping? ==> P.WorkerStep(p, w).value.owner == p.owner
  {
  }

  lemma JobLeavesOthers(fs: FileSystem, s: Scan, w: nat)
    requires w < |s.jobs| && w < |s.pool.ws| && s.pool.ws[w].Busy? && JobStep(fs, s, w).Some?
    ensures
      var t := JobStep(fs, s, w).value;
      && t.main == s.main && t.notifier == s.notifier && t.recorder == s.recorder && |t.pool.ws| == |s.pool.ws|
      && (forall v :: 0 <= v < |s.pool.ws| && v != w ==> t.pool.ws[v] == s.pool.ws[v])
      && t.pool.owner == s.pool.owner
  {
    if s.jobs[w].Reads() {
      ReadFrame(fs, s, w);
    } else if s.jobs[w].Spreads() {
      SpreadFrame(s, w);
      SpreadMoves(s, w);
    } else if s.jobs[w].Records() {
      RecordFrame(fs, s, w);
      RecordLeavesRecorder(fs, s, w);
    }
  }

  lemma RecordLeavesRecorder(fs: FileSystem, s: Scan, w: nat)
    requires w < |s.jobs| && s.jobs[w].Records() && RecordStep(fs, s, w).Some?
    ensures RecordStep(fs, s, w).value.recorder == s.recorder && RecordStep(fs, s, w).value.notifier == s.notifier
  {
  }

  lemma WorkerKeepsReady(fs: FileSystem, s: Scan, w: nat, a: Agent)
    requires Structure(fs, s) && Step(fs, s, WorkerWork(w)).Some? && Ready(s, a) && a != Worker(w)
    ensures Ready(Step(fs, s, WorkerWork(w)).value, a)
  {
    WorkerLeavesOthers(fs, s, w);
    if a.Main? && s.main.Destroying? && s.pool.owner.Joining? && s.pool.owner.next < |s.pool.ws| {
      ExitedStays(fs, s, w, s.pool.owner.next);
    }
  }

  lemma ExitedStays(fs: FileSystem, s: Scan, w: nat, v: nat)
    requires Step(fs, s, WorkerWork(w)).Some? && v < |s.pool.ws| && s.pool.ws[v].Exited?
    ensures w != v
  {
  }

  lemma MainKeepsReady(fs: FileSystem, s: Scan, a: Agent)
    requires Structure(fs, s) && MainStep(s).Some? && Ready(s, a) && !a.Main?
    ensures Ready(MainStep(s).value, a)
  {
  }

  lemma ServiceKeepsReady(fs: FileSystem, s: Scan, l: Label, a: Agent)
    requires Structure(fs, s) && (l.NotifierWork? || l.RecorderWork?) && Step(fs, s, l).Some? && Ready(s, a) && !By(l, a)
    ensures Ready(Step(fs, s, l).value, a)
  {
    ServiceFrame(fs, s, l);
    if l.NotifierWork? {
      NotifierLeavesRecorder(s);
    } else {
      RecorderFrame(s);
    }
  }

  lemma WakeKeepsReady(fs: FileSystem, s: Scan, l: Label, a: Agent)
    requires (l.WorkerWake? || l.MainWake?) && Step(fs, s, l).Some? && Ready(s, a) && !By(l, a)
    ensures Ready(Step(fs, s, l).value, a)
  {
  }

  lemma ReadyPersists(fs: FileSystem, s: Scan, l: Label, a: Agent)
    requires Structure(fs, s) && Possible(fs, s, l) && Ready(s, a) && !By(l, a)
    ensures Ready(Step(fs, s, l).value, a)
  {
    match l
    case WorkerWork(w) => WorkerKeepsReady(fs, s, w, a);
    case MainWork => MainKeepsReady(fs, s, a);
    case NotifierWork => ServiceKeepsReady(fs, s, l, a);
    case RecorderWork => ServiceKeepsReady(fs, s, l, a);
    case _ => WakeKeepsReady(fs, s, l, a);
  }

  lemma NotFirst(labels: seq<Label>, a: Agent)
    requires labels != [] && !Acts(labels, a)
    ensures !By(labels[0], a) && !Acts(labels[1..], a)
  {
    if Acts(labels[1..], a) {
      LaterActs(labels, a);
    }
  }

  lemma LaterActs(labels: seq<Label>, a: Agent)
    requires labels != [] && Acts(labels[1..], a)
    ensures Acts(labels, a)
  {
    var i :| 0 <= i < |labels[1..]| && By(labels[1..][i], a);
    assert labels[i + 1] == labels[1..][i];
  }

  lemma {:induction false} RunKeepsReady(fs: FileSystem, s: Scan, labels: seq<Label>, a: Agent)
    requires Good(fs, s) && CanRun(fs, s, labels) && OwnLabels(labels) && Ready(s, a) && !Acts(labels, a)
    ensures Ready(Final(fs, s, labels), a)
    decreases |labels|
  {
    if labels != [] {
      assert labels[0] in labels && forall l :: l in labels[1..] ==> l in labels;
      NotFirst(labels, a);
      ReadyPersists(fs, s, labels[0], a);
      StepKeepsGood(fs, s, labels[0]);
      RunKeepsReady(fs, Step(fs, s, labels[0]).value, labels[1..], a);
    }
  }

  /** A thread that has not stepped and is not ready in the end has been blocked all the time. */
  lemma {:induction false} UnreadyIsBlocked(fs: FileSystem, s: Scan, labels: seq<Label>, a: Agent)
    requires Good(fs, s) && CanRun(fs, s, labels) && OwnLabels(labels) && !Acts(labels, a) && !Ready(Final(fs, s, labels), a)
    ensures Blocked(fs, s, labels, a)
    decreases |labels|
  {
    if Enabled(fs, s, a) {
      EnabledIsReady(fs, s, a);
      RunKeepsReady(fs, s, labels, a);
    }
    if labels != [] {
      assert labels[0] in labels && forall l :: l in labels[1..] ==> l in labels;
      NotFirst(labels, a);
      StepKeepsGood(fs, s, labels[0]);
      UnreadyIsBlocked(fs, Step(fs, s, labels[0]).value, labels[1..], a);
    }
  }

  // ----- Every thread gets its turn -----

  function Agents(n: nat): set<Agent> { {Main, Notifier, Recorder} + set w: nat | w < n :: Worker(w) }

  /** The threads that have not stepped yet. */
  function Unserved(labels: seq<Label>, n: nat): set<Agent> { set a | a in Agents(n) && !Acts(labels, a) }

  lemma ActsMore(labels: seq<Label>, more: seq<Label>, a: Agent)
    ensures Acts(labels, a) || Acts(more, a) ==> Acts(labels + more, a)
  {
    if Acts(labels, a) {
      var i :| 0 <= i < |labels| && By(labels[i], a);
      assert (labels + more)[i] == labels[i];
    } else if Acts(more, a) {
      var i :| 0 <= i < |more| && By(more[i], a);
      assert (labels + more)[|labels| + i] == more[i];
    }
  }

  lemma FewerUnserved(labels: seq<Label>, more: seq<Label>, a: Agent, n: nat)
    requires a in Unserved(labels, n) && Acts(more, a)
    ensures Unserved(labels + more, n) < Unserved(labels, n)
  {
    forall b
      ensures Acts(labels, b) || Acts(more, b) ==> Acts(labels + more, b)
    {
      ActsMore(labels, more, b);
    }
    assert a !in Unserved(labels + more, n);
  }

  lemma OneStep(fs: FileSystem, s: Scan, a: Agent) returns (l: Label)
    requires Enabled(fs, s, a)
    ensures Possible(fs, s, l) && By(l, a)
  {
    match a {
      case Main => l := MainWork;
      case Worker(w) => l := if Step(fs, s, WorkerWork(w)).Some? then WorkerWork(w) else WorkerWake(w, true);
      case Notifier => l := NotifierWork;
      case Recorder => l := RecorderWork;
    }
  }

  /** A thread that is ready can be brought to step. */
  lemma ReadyGetsItsTurn(fs: FileSystem, s: Scan, a: Agent) returns (labels: seq<Label>)
    requires Good(fs, s) && Ready(s, a)
    ensures CanRun(fs, s, labels) && OwnLabels(labels) && Acts(labels, a)
  {
    labels := FreeAll(fs, s);
    if !Acts(labels, a) {
      var t := Final(fs, s, labels);
      RunKeepsReady(fs, s, labels, a);
      FreeIsEnabled(fs, t, a);
      var l := OneStep(fs, t, a);
      RunOne(fs, s, labels, l);
      assert By([l][0], a);
      ActsMore(labels, [l], a);
      labels := labels + [l];
    }
  }

  lemma {:induction false} ExtendToRound(fs: FileSystem, s: Scan, labels: seq<Label>) returns (round: seq<Label>)
    requires Good(fs, s) && CanRun(fs, s, labels) && OwnLabels(labels)
    ensures Round(fs, s, round)
    decreases Unserved(labels, |s.pool.ws|)
  {
    var n, t := |s.pool.ws|, Final(fs, s, labels);
    RunKeepsGood(fs, s, labels);
    RunKeepsWorkers(fs, s, labels);
    if exists a :: a in Unserved(labels, n) && Ready(t, a) {
      var a :| a in Unserved(labels, n) && Ready(t, a);
      var more := ReadyGetsItsTurn(fs, t, a);
      FewerUnserved(labels, more, a, n);
      RunAppend(fs, s, labels, more);
      round := ExtendToRound(fs, s, labels + more);
    } else {
      round := labels;
      forall a | !Acts(labels, a)
        ensures Blocked(fs, s, labels, a)
      {
        assert a in Agents(n) || (a.Worker? && a.w >= n);
        UnreadyIsBlocked(fs, s, labels, a);
      }
    }
  }

  /** From every reachable state a fair round is possible. */
  lemma RoundExists(fs: FileSystem, threads: nat, labels: seq<Label>) returns (round: seq<Label>)
    requires CanRun(fs, Init(threads), labels)
    ensures Round(fs, Final(fs, Init(threads), labels), round)
  {
    InitGood(fs, threads);
    RunKeepsGood(fs, Init(threads), labels);
    round := ExtendToRound(fs, Final(fs, Init(threads), labels), []);
  }

  lemma {:induction false} MoreRounds(fs: FileSystem, s: Scan, n: nat) returns (rounds: seq<seq<Label>>)
    requires Good(fs, s)
    ensures |rounds| == n && Rounds(fs, s, rounds)
    decreases n
  {
    if n == 0 {
      rounds := [];
    } else {
      var round := ExtendToRound(fs, s, []);
      RunKeepsGood(fs, s, round);
      var rest := MoreRounds(fs, Final(fs, s, round), n - 1);
      rounds := [round] + rest;
      assert rounds[1..] == rest;
    }
  }

  /** And so is any number of them, one after the other. */
  lemma RoundsExist(fs: FileSystem, threads: nat, labels: seq<Label>, n: nat) returns (rounds: seq<seq<Label>>)
    requires CanRun(fs, Init(threads), labels)
    ensures |rounds| == n && Rounds(fs, Final(fs, Init(threads), labels), rounds)
  {
    InitGood(fs, threads);
    RunKeepsGood(fs, Init(threads), labels);
    rounds := MoreRounds(fs, Final(fs, Init(threads), labels), n);
  }
}
