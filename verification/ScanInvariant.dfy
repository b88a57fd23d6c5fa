/** The structural invariant of the scan: who holds which lock, and what each thread's statement implies. */
module ScanInvariant {
  import opened Wrappers
  import opened FileTree
  import opened ScanMachine
  import P = PoolMachine
  import I = PoolInvariant

  predicate InPush(pc: PushPc) { pc.Entered? || pc.Queued? || pc.Tallied? }

  function PhaseOf(pc: PushPc): P.PushPhase {
    match pc
    case Queued => P.Queued
    case Tallied => P.Tallied
    case _ => P.Entered
  }

  /** A worker runs do_scan exactly while it is inside task(). */
  ghost predicate Coherent(ws: seq<P.WorkerPc<string>>, jobs: seq<Job>) {
    |jobs| == |ws| && forall w :: 0 <= w < |jobs| ==> (jobs[w].NoJob? <==> !ws[w].Busy?)
  }

  predicate JobPushes(job: Job) { job.Pushing? && InPush(job.pc) }

  predicate MainPushes(main: MainPc) { main.Launching? && InPush(main.pc) }

  /** tasks_mutex_ is held for a push by exactly the thread inside push_task, and by no reader. */
  ghost predicate Pushers(lock: P.Lock, jobs: seq<Job>, main: MainPc) {
    && !lock.ByReader?
    && (forall w :: 0 <= w < |jobs| && JobPushes(jobs[w]) ==> lock == P.ByPusher(w, PhaseOf(jobs[w].pc)))
    && (MainPushes(main) ==> lock == P.ByPusher(|jobs|, PhaseOf(main.pc)))
    && (lock.ByPusher? ==> lock.client <= |jobs|)
    && (lock.ByPusher? && lock.client < |jobs| ==> JobPushes(jobs[lock.client]))
    && (lock.ByPusher? && lock.client == |jobs| ==> MainPushes(main))
  }

  /** dir_mutex_ and file_info_mutex_ are held by exactly the threads inside their locked regions. */
  ghost predicate DirHeld(dirLock: Option<nat>, jobs: seq<Job>) {
    && (forall w :: 0 <= w < |jobs| ==> (jobs[w].HoldsDir() <==> dirLock == Some(w)))
    && (dirLock.Some? ==> dirLock.value < |jobs|)
  }

  ghost predicate InfoHeld(infoLock: InfoLock, jobs: seq<Job>, recorder: RecorderPc) {
    && (forall w :: 0 <= w < |jobs| ==> (jobs[w].HoldsInfo() <==> infoLock == InfoWorker(w)))
    && (recorder.HoldsInfo() <==> infoLock == InfoRecorder)
    && (infoLock.InfoWorker? ==> infoLock.worker < |jobs|)
  }

  /** The local state of do_scan at each statement; the listing read so far is what the first entries give. */
  ghost predicate JobFormed(fs: FileSystem, job: Job) {
    match job
    case Reading(path, next, out) =>
      path in fs.dirs && ValidPath(path) && next <= |fs.dirs[path]| && out == ListEntries(path, fs.dirs[path][..next])
    case Pushing(_, out, i) => i < |out.dirs|
    case Files(out, i) => i <= |out.files|
    case Links(out, i) => i <= |out.links|
    case _ => true
  }

  ghost predicate Formed(fs: FileSystem, jobs: seq<Job>) {
    forall w :: 0 <= w < |jobs| ==> JobFormed(fs, jobs[w])
  }

  ghost predicate MainFormed(s: Scan) {
    && (s.main.Launching? ==> s.main.i < |s.roots|)
    && (s.notifier.NotifierOff? <==> s.main.Setup? || s.main.StoreCount? || s.main.Launching? || s.main.StartRecorder? || s.main.StartNotifier?)
    && (s.recorder.RecorderOff? <==> s.main.Setup? || s.main.StoreCount? || s.main.Launching? || s.main.StartRecorder?)
    && (s.main.JoinRecorder? || s.main.Waited? || s.main.Destroying? ==> s.notifier.NotifierOver?)
    && (s.main.Waited? || s.main.Destroying? ==> s.recorder.RecorderOver?)
    && (if s.main.Destroying? then s.pool.owner.Destroys() else s.pool.owner.Outside?)
  }

  /** What the recorder has drained, holds and has left in file_infos_ is everything emplaced, in order. */
  ghost predicate Recording(s: Scan) {
    && s.emplaced == s.drained + s.local + s.infos
    && (!s.recorder.HasBatch() ==> s.local == [])
  }

  ghost predicate Structure(fs: FileSystem, s: Scan) {
    && Coherent(s.pool.ws, s.jobs)
    && Pushers(s.pool.lock, s.jobs, s.main)
    && DirHeld(s.dirLock, s.jobs)
    && InfoHeld(s.infoLock, s.jobs, s.recorder)
    && Formed(fs, s.jobs)
    && MainFormed(s)
    && Recording(s)
  }

  lemma InitStructure(fs: FileSystem, threads: nat)
    ensures Structure(fs, Init(threads))
  {
  }

  // ----- Workers outside do_scan -----

  lemma LoopStepKeepsCoherent(p: P.Pool<string>, w: nat, jobs: seq<Job>)
    requires Coherent(p.ws, jobs) && w < |p.ws| && !p.ws[w].Busy? && !p.ws[w].Releasing? && P.WorkerStep(p, w).Some?
    ensures Coherent(P.WorkerStep(p, w).value.ws, jobs)
  {
  }

  lemma LoopStepKeepsPushers(p: P.Pool<string>, w: nat, jobs: seq<Job>, main: MainPc)
    requires I.Mutex(p) && Pushers(p.lock, jobs, main) && w < |p.ws| && P.WorkerStep(p, w).Some?
    ensures Pushers(P.WorkerStep(p, w).value.lock, jobs, main)
  {
  }

  lemma LoopStepKeepsOwner(p: P.Pool<string>, w: nat)
    requires w < |p.ws| && P.WorkerStep(p, w).Some?
    ensures P.WorkerStep(p, w).value.owner.Outside? <==> p.owner.Outside?
    ensures P.WorkerStep(p, w).value.owner.Destroys() <==> p.owner.Destroys()
  {
  }

  /** A worker moves inside the pool's loop, a release before the task included. */
  lemma LoopKeepsCoherent(fs: FileSystem, s: Scan, w: nat)
    requires Coherent(s.pool.ws, s.jobs) && w < |s.jobs| && !s.pool.ws[w].Busy? && WorkerStep(fs, s, w).Some?
    ensures Coherent(WorkerStep(fs, s, w).value.pool.ws, WorkerStep(fs, s, w).value.jobs)
  {
    if !s.pool.ws[w].Releasing? {
      LoopStepKeepsCoherent(s.pool, w, s.jobs);
    }
  }

  /** What a worker outside do_scan leaves alone. */
  lemma LoopFrame(fs: FileSystem, s: Scan, w: nat)
    requires Coherent(s.pool.ws, s.jobs) && w < |s.jobs| && !s.pool.ws[w].Busy? && WorkerStep(fs, s, w).Some?
    ensures
      var t := WorkerStep(fs, s, w).value;
      && t.main == s.main && t.notifier == s.notifier && t.recorder == s.recorder && t.roots == s.roots
      && t.dirLock == s.dirLock && t.infoLock == s.infoLock
      && t.infos == s.infos && t.local == s.local && t.emplaced == s.emplaced && t.drained == s.drained
  {
  }

  lemma LoopJobs(fs: FileSystem, s: Scan, w: nat)
    requires Coherent(s.pool.ws, s.jobs) && w < |s.jobs| && !s.pool.ws[w].Busy? && WorkerStep(fs, s, w).Some?
    ensures
      var t := WorkerStep(fs, s, w).value;
      && P.WorkerStep(s.pool, w) == Some(t.pool)
      && |t.jobs| == |s.jobs| && (forall v :: 0 <= v < |s.jobs| && v != w ==> t.jobs[v] == s.jobs[v])
      && (t.jobs[w] == s.jobs[w] || t.jobs[w].Enter?)
      && s.jobs[w].NoJob?
  {
  }

  lemma LoopKeepsStructure(fs: FileSystem, s: Scan, w: nat)
    requires I.Mutex(s.pool) && Structure(fs, s) && w < |s.jobs| && !s.pool.ws[w].Busy? && WorkerStep(fs, s, w).Some?
    ensures Structure(fs, WorkerStep(fs, s, w).value)
  {
    LoopFrame(fs, s, w);
    LoopJobs(fs, s, w);
    LoopKeepsCoherent(fs, s, w);
    LoopStepKeepsOwner(s.pool, w);
    LoopStepKeepsPushers(s.pool, w, s.jobs, s.main);
  }

  // ----- Workers inside do_scan -----

  /** What it takes for a move of worker w inside do_scan to keep the invariant. */
  lemma MoveKeepsStructure(fs: FileSystem, s: Scan, t: Scan, w: nat)
    requires Structure(fs, s) && w < |s.jobs| == |t.jobs| && t.jobs == s.jobs[w := t.jobs[w]]
    requires t.main == s.main && t.notifier == s.notifier && t.recorder == s.recorder && t.roots == s.roots
    requires t.pool.owner == s.pool.owner
    requires Coherent(t.pool.ws, t.jobs) && Pushers(t.pool.lock, t.jobs, t.main) && DirHeld(t.dirLock, t.jobs)
    requires InfoHeld(t.infoLock, t.jobs, t.recorder) && JobFormed(fs, t.jobs[w]) && Recording(t)
    ensures Structure(fs, t)
  {
  }

  /** One more entry read is one more entry listed. */
  lemma ListOneMore(path: string, entries: seq<Entry>, next: nat)
    requires next < |entries|
    ensures ListEntries(path, entries[..next + 1]) == Classify(path, entries[next], ListEntries(path, entries[..next]))
  {
    assert entries[..next + 1][..next] == entries[..next];
  }

  lemma ReadMoves(fs: FileSystem, s: Scan, w: nat)
    requires w < |s.jobs| && s.jobs[w].Reads()
    ensures
      var t := ReadStep(fs, s, w);
      && |t.jobs| == |s.jobs| && t.jobs == s.jobs[w := t.jobs[w]]
      && (t.jobs[w].Reads() || t.jobs[w].DirLocking? || t.jobs[w].Return?)
  {
  }

  lemma ReadFrame(fs: FileSystem, s: Scan, w: nat)
    requires w < |s.jobs| && s.jobs[w].Reads()
    ensures
      var t := ReadStep(fs, s, w);
      && t.main == s.main && t.notifier == s.notifier && t.recorder == s.recorder && t.roots == s.roots
      && t.pool == s.pool && t.dirLock == s.dirLock && t.infoLock == s.infoLock
      && t.infos == s.infos && t.local == s.local && t.emplaced == s.emplaced && t.drained == s.drained
  {
  }

  lemma ReadKeepsFormed(fs: FileSystem, s: Scan, w: nat)
    requires w < |s.jobs| && s.jobs[w].Reads() && JobFormed(fs, s.jobs[w])
    ensures |ReadStep(fs, s, w).jobs| == |s.jobs| && JobFormed(fs, ReadStep(fs, s, w).jobs[w])
  {
    var job := s.jobs[w];
    if job.Reading? && job.next < |fs.dirs[job.path]| {
      ListOneMore(job.path, fs.dirs[job.path], job.next);
    }
  }

  lemma ReadKeepsStructure(fs: FileSystem, s: Scan, w: nat)
    requires Structure(fs, s) && w < |s.jobs| && s.jobs[w].Reads()
    ensures Structure(fs, ReadStep(fs, s, w))
  {
    ReadMoves(fs, s, w);
    ReadFrame(fs, s, w);
    ReadKeepsFormed(fs, s, w);
    MoveKeepsStructure(fs, s, ReadStep(fs, s, w), w);
  }

  lemma SpreadMoves(s: Scan, w: nat)
    requires w < |s.jobs| && s.jobs[w].Spreads() && SpreadStep(s, w).Some?
    ensures
      var t := SpreadStep(s, w).value;
      && |t.jobs| == |s.jobs| && t.jobs == s.jobs[w := t.jobs[w]]
      && (t.jobs[w].Spreads() || t.jobs[w].InfoLocking?)
      && t.pool.owner == s.pool.owner && t.pool.ws == s.pool.ws
  {
  }

  lemma SpreadFrame(s: Scan, w: nat)
    requires w < |s.jobs| && s.jobs[w].Spreads() && SpreadStep(s, w).Some?
    ensures
      var t := SpreadStep(s, w).value;
      && t.main == s.main && t.notifier == s.notifier && t.recorder == s.recorder && t.roots == s.roots
      && t.infoLock == s.infoLock
      && t.infos == s.infos && t.local == s.local && t.emplaced == s.emplaced && t.drained == s.drained
  {
  }

  lemma SpreadKeepsDirHeld(fs: FileSystem, s: Scan, w: nat)
    requires w < |s.jobs| && s.jobs[w].Spreads() && DirHeld(s.dirLock, s.jobs) && JobFormed(fs, s.jobs[w]) && SpreadStep(s, w).Some?
    ensures DirHeld(SpreadStep(s, w).value.dirLock, SpreadStep(s, w).value.jobs)
    ensures |SpreadStep(s, w).value.jobs| == |s.jobs| && JobFormed(fs, SpreadStep(s, w).value.jobs[w])
  {
  }

  lemma SpreadKeepsPushers(s: Scan, w: nat)
    requires w < |s.jobs| && s.jobs[w].Spreads() && Pushers(s.pool.lock, s.jobs, s.main) && SpreadStep(s, w).Some?
    ensures Pushers(SpreadStep(s, w).value.pool.lock, SpreadStep(s, w).value.jobs, s.main)
  {
  }

  lemma SpreadKeepsStructure(fs: FileSystem, s: Scan, w: nat)
    requires Structure(fs, s) && w < |s.jobs| && s.jobs[w].Spreads() && SpreadStep(s, w).Some?
    ensures Structure(fs, SpreadStep(s, w).value)
  {
    SpreadMoves(s, w);
    SpreadFrame(s, w);
    SpreadKeepsDirHeld(fs, s, w);
    SpreadKeepsPushers(s, w);
    MoveKeepsStructure(fs, s, SpreadStep(s, w).value, w);
  }

  lemma RecordMoves(fs: FileSystem, s: Scan, w: nat)
    requires w < |s.jobs| && s.jobs[w].Records() && JobFormed(fs, s.jobs[w]) && RecordStep(fs, s, w).Some?
    ensures
      var t := RecordStep(fs, s, w).value;
      && |t.jobs| == |s.jobs| && t.jobs == s.jobs[w := t.jobs[w]]
      && (t.jobs[w].HoldsInfo() || t.jobs[w].Return?) && JobFormed(fs, t.jobs[w])
  {
  }

  lemma RecordFrame(fs: FileSystem, s: Scan, w: nat)
    requires w < |s.jobs| && s.jobs[w].Records() && RecordStep(fs, s, w).Some?
    ensures
      var t := RecordStep(fs, s, w).value;
      && t.main == s.main && t.notifier == s.notifier && t.recorder == s.recorder && t.roots == s.roots
      && t.pool == s.pool && t.dirLock == s.dirLock
  {
  }

  lemma RecordKeepsRecording(fs: FileSystem, s: Scan, w: nat)
    requires w < |s.jobs| && s.jobs[w].Records() && Recording(s) && RecordStep(fs, s, w).Some?
    ensures Recording(RecordStep(fs, s, w).value)
  {
  }

  lemma RecordKeepsInfoHeld(fs: FileSystem, s: Scan, w: nat)
    requires w < |s.jobs| && s.jobs[w].Records() && InfoHeld(s.infoLock, s.jobs, s.recorder) && RecordStep(fs, s, w).Some?
    ensures InfoHeld(RecordStep(fs, s, w).value.infoLock, RecordStep(fs, s, w).value.jobs, s.recorder)
  {
  }

  lemma RecordKeepsStructure(fs: FileSystem, s: Scan, w: nat)
    requires Structure(fs, s) && w < |s.jobs| && s.jobs[w].Records() && RecordStep(fs, s, w).Some?
    ensures Structure(fs, RecordStep(fs, s, w).value)
  {
    RecordMoves(fs, s, w);
    RecordFrame(fs, s, w);
    RecordKeepsRecording(fs, s, w);
    RecordKeepsInfoHeld(fs, s, w);
    MoveKeepsStructure(fs, s, RecordStep(fs, s, w).value, w);
  }

  lemma ReturnKeepsStructure(fs: FileSystem, s: Scan, w: nat)
    requires Structure(fs, s) && w < |s.jobs| && s.jobs[w].Return? && ReturnStep(s, w).Some?
    ensures Structure(fs, ReturnStep(s, w).value)
  {
    MoveKeepsStructure(fs, s, ReturnStep(s, w).value, w);
  }

  lemma JobKeepsStructure(fs: FileSystem, s: Scan, w: nat)
    requires Structure(fs, s) && w < |s.jobs| && JobStep(fs, s, w).Some?
    ensures Structure(fs, JobStep(fs, s, w).value)
  {
    if s.jobs[w].Reads() {
      ReadKeepsStructure(fs, s, w);
    } else if s.jobs[w].Spreads() {
      SpreadKeepsStructure(fs, s, w);
    } else if s.jobs[w].Records() {
      RecordKeepsStructure(fs, s, w);
    } else {
      ReturnKeepsStructure(fs, s, w);
    }
  }

  // ----- The other threads -----

  lemma LaunchKeepsPushers(s: Scan)
    requires Pushers(s.pool.lock, s.jobs, s.main) && |s.jobs| == |s.pool.ws| && s.main.Launching? && LaunchStep(s).Some?
    ensures Pushers(LaunchStep(s).value.pool.lock, s.jobs, LaunchStep(s).value.main)
    ensures LaunchStep(s).value.pool.ws == s.pool.ws
  {
  }

  lemma OwnerKeepsPushers(p: P.Pool<string>, jobs: seq<Job>)
    requires I.Mutex(p) && Pushers(p.lock, jobs, Destroying) && P.OwnerStep(p).Some?
    ensures Pushers(P.OwnerStep(p).value.lock, jobs, Destroying)
  {
  }

  lemma OwnerKeepsCoherent(p: P.Pool<string>, jobs: seq<Job>)
    requires Coherent(p.ws, jobs) && P.OwnerStep(p).Some?
    ensures Coherent(P.OwnerStep(p).value.ws, jobs)
  {
  }

  lemma MainKeepsPushers(s: Scan)
    requires Pushers(s.pool.lock, s.jobs, s.main) && Coherent(s.pool.ws, s.jobs) && I.Mutex(s.pool) && MainStep(s).Some?
    ensures Pushers(MainStep(s).value.pool.lock, s.jobs, MainStep(s).value.main)
    ensures Coherent(MainStep(s).value.pool.ws, s.jobs)
  {
    if s.main.Launching? {
      LaunchKeepsPushers(s);
    } else if s.main.Destroying? {
      OwnerKeepsPushers(s.pool, s.jobs);
      OwnerKeepsCoherent(s.pool, s.jobs);
    }
  }

  lemma MainKeepsFormed(s: Scan)
    requires MainFormed(s) && I.Mutex(s.pool) && MainStep(s).Some?
    ensures MainFormed(MainStep(s).value)
  {
  }

  lemma MainFrame(s: Scan)
    requires MainStep(s).Some? && (s.main.StartRecorder? ==> s.recorder.RecorderOff?)
    ensures
      var t := MainStep(s).value;
      && t.jobs == s.jobs && t.dirLock == s.dirLock && t.infoLock == s.infoLock
      && t.recorder.HoldsInfo() == s.recorder.HoldsInfo() && t.recorder.HasBatch() == s.recorder.HasBatch()
      && t.infos == s.infos && t.local == s.local && t.emplaced == s.emplaced && t.drained == s.drained
  {
  }

  lemma MainKeepsStructure(fs: FileSystem, s: Scan)
    requires I.Mutex(s.pool) && Structure(fs, s) && MainStep(s).Some?
    ensures Structure(fs, MainStep(s).value)
  {
    MainKeepsPushers(s);
    MainKeepsFormed(s);
    MainFrame(s);
  }

  /** What the notifier, the recorder and a user calling stop() leave alone. */
  predicate SameWork(s: Scan, t: Scan) {
    && t.pool.ws == s.pool.ws && t.pool.sh.tasks == s.pool.sh.tasks && t.pool.sh.total == s.pool.sh.total
    && t.pool.lock == s.pool.lock && t.pool.owner == s.pool.owner
    && t.pool.pushed == s.pool.pushed && t.pool.started == s.pool.started
    && t.jobs == s.jobs && t.main == s.main && t.roots == s.roots && t.dirLock == s.dirLock
    && t.emplaced == s.emplaced && t.visited == s.visited && t.entries == s.entries && t.counts == s.counts
  }

  /** pause() writes its flag only. */
  lemma PausingFrame(s: Scan)
    requires s.notifier.StopPause?
    ensures NotifierStep(s).Some? && SameWork(s, NotifierStep(s).value)
  {
    assert P.Step(s.pool, P.Pause) == Some(s.pool.(sh := s.pool.sh.(paused := true)));
  }

  lemma NotifierFrame(s: Scan)
    requires NotifierStep(s).Some?
    ensures SameWork(s, NotifierStep(s).value)
  {
    if s.notifier.StopPause? {
      PausingFrame(s);
    } else {
      assert NotifierStep(s).value == s.(notifier := NotifierStep(s).value.notifier, running := NotifierStep(s).value.running);
    }
  }

  /** Nor does the notifier touch what the recorder works on. */
  lemma NotifierLeavesRecorder(s: Scan)
    requires NotifierStep(s).Some?
    ensures
      var t := NotifierStep(s).value;
      && t.recorder == s.recorder && t.infoLock == s.infoLock && t.infos == s.infos
      && t.local == s.local && t.drained == s.drained
  {
  }

  lemma RecorderFrame(s: Scan)
    requires RecorderStep(s).Some?
    ensures SameWork(s, RecorderStep(s).value)
    ensures RecorderStep(s).value.notifier == s.notifier && RecorderStep(s).value.pool == s.pool
    ensures RecorderStep(s).value.recorder.RecorderOff? <==> s.recorder.RecorderOff?
    ensures !s.recorder.RecorderOver?
  {
  }

  lemma UserFrame(s: Scan)
    requires UserStep(s).Some?
    ensures SameWork(s, UserStep(s).value)
  {
  }

  lemma ServiceFrame(fs: FileSystem, s: Scan, l: Label)
    requires (l.NotifierWork? || l.RecorderWork? || l.UserStop?) && Step(fs, s, l).Some?
    ensures SameWork(s, Step(fs, s, l).value)
  {
    match l
    case NotifierWork => NotifierFrame(s);
    case RecorderWork => RecorderFrame(s);
    case UserStop => UserFrame(s);
  }

  lemma RecorderKeepsInfoHeld(s: Scan)
    requires InfoHeld(s.infoLock, s.jobs, s.recorder) && RecorderStep(s).Some?
    ensures InfoHeld(RecorderStep(s).value.infoLock, s.jobs, RecorderStep(s).value.recorder)
  {
  }

  lemma RecorderKeepsRecording(s: Scan)
    requires Recording(s) && RecorderStep(s).Some?
    ensures Recording(RecorderStep(s).value)
  {
  }

  lemma RecorderKeepsStructure(fs: FileSystem, s: Scan)
    requires Structure(fs, s) && RecorderStep(s).Some?
    ensures Structure(fs, RecorderStep(s).value)
  {
    RecorderFrame(s);
    RecorderKeepsInfoHeld(s);
    RecorderKeepsRecording(s);
  }

  lemma NotifierKeepsMainFormed(s: Scan)
    requires MainFormed(s) && NotifierStep(s).Some?
    ensures MainFormed(NotifierStep(s).value)
  {
    NotifierFrame(s);
    NotifierLeavesRecorder(s);
    NotifierStaysOn(s);
  }

  /** The notifier is neither started nor taken back by its own steps. */
  lemma NotifierStaysOn(s: Scan)
    requires NotifierStep(s).Some?
    ensures !s.notifier.NotifierOff? && !NotifierStep(s).value.notifier.NotifierOff? && !s.notifier.NotifierOver?
  {
  }

  lemma NotifierKeepsStructure(fs: FileSystem, s: Scan)
    requires Structure(fs, s) && NotifierStep(s).Some?
    ensures Structure(fs, NotifierStep(s).value)
  {
    NotifierFrame(s);
    NotifierLeavesRecorder(s);
    NotifierKeepsMainFormed(s);
  }

  lemma UserKeepsStructure(fs: FileSystem, s: Scan)
    requires Structure(fs, s) && UserStep(s).Some?
    ensures Structure(fs, UserStep(s).value)
  {
  }

  lemma WakeKeepsStructure(fs: FileSystem, s: Scan, l: Label)
    requires Structure(fs, s) && (l.WorkerWake? || l.MainWake? || l.AddPath?) && Step(fs, s, l).Some?
    ensures Structure(fs, Step(fs, s, l).value)
  {
  }

  lemma StepKeepsStructure(fs: FileSystem, s: Scan, l: Label)
    requires I.Mutex(s.pool) && Structure(fs, s) && Step(fs, s, l).Some?
    ensures Structure(fs, Step(fs, s, l).value)
  {
    match l
    case MainWork => MainKeepsStructure(fs, s);
    case WorkerWork(w) => if s.pool.ws[w].Busy? { JobKeepsStructure(fs, s, w); } else { LoopKeepsStructure(fs, s, w); }
    case NotifierWork => NotifierKeepsStructure(fs, s);
    case RecorderWork => RecorderKeepsStructure(fs, s);
    case UserStop => UserKeepsStructure(fs, s);
    case _ => WakeKeepsStructure(fs, s, l);
  }
}
