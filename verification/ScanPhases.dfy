/**
 Termination detection.  The notifier reads tasks_total_ without a lock; once all roots are pushed a
 zero there means that nothing is queued or in flight, and this stays so.  The flags of the scan are
 then determined by how far the notifier has come.
 */
module ScanPhases {
  import opened FileTree
  import opened ScanMachine
  import opened ScanInvariant
  import P = PoolMachine
  import I = PoolInvariant

  /** All roots have been pushed, the queue is empty and no task is in flight. */
  ghost predicate Quiescent(s: Scan) {
    s.main.PastLaunch() && s.pool.sh.tasks == [] && I.InFlight(s.pool.ws) == 0
  }

  /** The notifier has cleared running_. */
  predicate HasStopped(n: NotifierPc) { n.StopPause? || n.NotifierOver? }

  lemma InFlightIfBusy(ws: seq<P.WorkerPc<string>>, w: nat)
    requires w < |ws| && ws[w].InFlight()
    ensures I.InFlight(ws) > 0
  {
    I.InFlightZero(ws);
  }

  /** The notifier's test is sound: is_scan_over() is false while anything remains to be scanned. */
  lemma ZeroMeansQuiescent(fs: FileSystem, s: Scan)
    requires I.Conserved(s.pool) && Structure(fs, s) && s.main.PastLaunch() && s.pool.sh.total == 0
    ensures Quiescent(s)
  {
    if s.pool.MidPush() {
      assert s.pool.lock.client < |s.jobs|;
      InFlightIfBusy(s.pool.ws, s.pool.lock.client);
    }
  }

  lemma QuiescentNobodyWorks(ws: seq<P.WorkerPc<string>>)
    requires I.InFlight(ws) == 0
    ensures forall w :: 0 <= w < |ws| ==> !ws[w].InFlight()
  {
    I.InFlightZero(ws);
  }

  /** The fields that only a task in flight changes. */
  predicate SameResults(s: Scan, t: Scan) {
    && t.emplaced == s.emplaced && t.visited == s.visited && t.entries == s.entries && t.counts == s.counts
    && t.roots == s.roots && t.pool.pushed == s.pool.pushed && t.pool.started == s.pool.started
  }

  lemma IdleStaysIdle(p: P.Pool<string>, w: nat)
    requires w < |p.ws| && p.sh.tasks == [] && !p.ws[w].InFlight() && P.WorkerStep(p, w).Some?
    ensures |P.WorkerStep(p, w).value.ws| == |p.ws| && !P.WorkerStep(p, w).value.ws[w].InFlight()
  {
  }

  lemma QuietLoopStep(p: P.Pool<string>, w: nat)
    requires w < |p.ws| && p.sh.tasks == [] && I.InFlight(p.ws) == 0 && P.WorkerStep(p, w).Some?
    ensures P.WorkerStep(p, w).value.sh.tasks == [] && I.InFlight(P.WorkerStep(p, w).value.ws) == 0
    ensures P.WorkerStep(p, w).value.pushed == p.pushed && P.WorkerStep(p, w).value.started == p.started
  {
    I.InFlightZero(p.ws);
    IdleStaysIdle(p, w);
    I.QuietWorkerStep(p, w);
    I.WorkerMovesAlone(p, w);
    var q := P.WorkerStep(p, w).value;
    I.InFlightUpdate(p.ws, w, q.ws[w]);
  }

  lemma QuietWorkerStep(fs: FileSystem, s: Scan, w: nat)
    requires Coherent(s.pool.ws, s.jobs) && Quiescent(s) && WorkerStep(fs, s, w).Some?
    ensures Quiescent(WorkerStep(fs, s, w).value) && SameResults(s, WorkerStep(fs, s, w).value)
  {
    QuiescentNobodyWorks(s.pool.ws);
    QuietLoopStep(s.pool, w);
  }

  lemma QuietOwnerStep(p: P.Pool<string>)
    requires P.OwnerStep(p).Some?
    ensures P.OwnerStep(p).value.sh.tasks == p.sh.tasks && I.InFlight(P.OwnerStep(p).value.ws) == I.InFlight(p.ws)
    ensures P.OwnerStep(p).value.pushed == p.pushed && P.OwnerStep(p).value.started == p.started
    ensures P.OwnerStep(p).value.sh.paused == p.sh.paused
  {
    if p.owner.NotifyAll? {
      I.WokenSums(p.ws, P.OwnerStep(p).value.ws);
    } else {
      assert P.OwnerStep(p).value.ws == p.ws;
    }
  }

  lemma QuietMainStep(s: Scan)
    requires Quiescent(s) && MainStep(s).Some?
    ensures Quiescent(MainStep(s).value) && SameResults(s, MainStep(s).value)
  {
    if s.main.Destroying? {
      QuietOwnerStep(s.pool);
    }
  }

  lemma QuietWake(fs: FileSystem, s: Scan, l: Label)
    requires Quiescent(s) && (l.WorkerWake? || l.MainWake?) && Step(fs, s, l).Some?
    ensures Quiescent(Step(fs, s, l).value) && SameResults(s, Step(fs, s, l).value)
  {
    if l.WorkerWake? {
      I.InFlightUpdate(s.pool.ws, l.w, Step(fs, s, l).value.pool.ws[l.w]);
    }
  }

  lemma QuietServiceStep(fs: FileSystem, s: Scan, l: Label)
    requires Quiescent(s) && (l.NotifierWork? || l.RecorderWork? || l.UserStop?) && Step(fs, s, l).Some?
    ensures Quiescent(Step(fs, s, l).value) && SameResults(s, Step(fs, s, l).value)
  {
    ServiceFrame(fs, s, l);
  }

  /** Quiescence lasts: no step of any thread starts, pushes, records or counts anything any more. */
  lemma QuiescentStep(fs: FileSystem, s: Scan, l: Label)
    requires Coherent(s.pool.ws, s.jobs) && Quiescent(s) && Step(fs, s, l).Some?
    ensures Quiescent(Step(fs, s, l).value) && SameResults(s, Step(fs, s, l).value)
  {
    match l
    case MainWork => QuietMainStep(s);
    case WorkerWork(w) => QuietWorkerStep(fs, s, w);
    case WorkerWake(_, _) => QuietWake(fs, s, l);
    case MainWake => QuietWake(fs, s, l);
    case NotifierWork => QuietServiceStep(fs, s, l);
    case RecorderWork => QuietServiceStep(fs, s, l);
    case UserStop => QuietServiceStep(fs, s, l);
    case AddPath(_) =>
  }

  // ----- The flags -----

  /** Nothing has been pushed or recorded before the push loop of launch. */
  ghost predicate Fresh(s: Scan) {
    s.main.Setup? || s.main.StoreCount? ==>
      s.pool.pushed == [] && s.emplaced == [] && s.visited == multiset{} && s.entries == 0
  }

  ghost predicate Detected(s: Scan) {
    && (s.notifier.SawEnd() ==> Quiescent(s))
    && (HasStopped(s.notifier) ==> !s.running)
    && (s.notifier.NotifierOver? ==> s.pool.sh.paused)
  }

  /** Without a stop() from outside, the flags say how far the notifier is, and the recorder leaves only after it. */
  ghost predicate Undisturbed(s: Scan) {
    !s.stopped ==>
      && (!s.main.Setup? ==> (s.running <==> !HasStopped(s.notifier)))
      && (s.pool.sh.paused <==> s.notifier.NotifierOver?)
      && (s.recorder.TestEmpty? || s.recorder.RecorderOver? ==> HasStopped(s.notifier))
      && (s.recorder.RecorderOver? ==> s.infos == [])
      && s.user.UserIdle?
  }

  ghost predicate Counted(s: Scan) {
    s.counts == if s.main.Setup? || s.main.StoreCount? then 0 else Wrap(|s.roots| + s.entries)
  }

  /** Without a stop() from outside, the wait inside ~thread_pool finds its predicate true at once. */
  ghost predicate Awake(s: Scan) { !s.stopped ==> !s.pool.owner.Sleeping? }

  ghost predicate Phases(s: Scan) { Fresh(s) && Detected(s) && Undisturbed(s) && Counted(s) && Awake(s) }

  lemma InitPhases(threads: nat)
    ensures Phases(Init(threads))
  {
  }

  /** An empty push history means that no task exists anywhere. */
  lemma NothingPushed(p: P.Pool<string>)
    requires I.Histories(p) && p.pushed == []
    ensures p.sh.tasks == [] && p.started == []
    ensures forall w :: 0 <= w < |p.ws| ==> !p.ws[w].Busy? && !p.ws[w].Releasing?
  {
    assert |p.pushed| == |p.started| + |p.sh.tasks|;
    assert multiset(p.started) == multiset{};
    assert I.Held(p.ws) == multiset{};
    forall w | 0 <= w < |p.ws|
      ensures !p.ws[w].Busy? && !p.ws[w].Releasing?
    {
      HoldingIsHeld(p.ws, w);
    }
  }

  lemma {:induction false} HoldingIsHeld<T>(ws: seq<P.WorkerPc<T>>, w: nat)
    requires w < |ws|
    ensures I.Holding(ws[w]) <= I.Held(ws)
    ensures ws[w].Busy? || ws[w].Releasing? ==> |I.Held(ws)| > 0
  {
    if w < |ws| - 1 {
      HoldingIsHeld(ws[..|ws| - 1], w);
    }
  }

  /** A wrapped count is a 32-bit integer, and equal to the exact count modulo the size of that type. */
  lemma WrapIsInt32(x: int)
    ensures -0x8000_0000 <= Wrap(x) < 0x8000_0000
    ensures (x - Wrap(x)) % 0x1_0000_0000 == 0
    ensures -0x8000_0000 <= x < 0x8000_0000 ==> Wrap(x) == x
  {
    var y := x + 0x8000_0000;
    assert x - Wrap(x) == (y / 0x1_0000_0000) * 0x1_0000_0000;
  }

  lemma WrapAdds(x: int, y: int)
    ensures Wrap(Wrap(x) + y) == Wrap(x + y)
  {
  }

  // ----- Every step keeps the flags right -----

  lemma LoopStepKeepsPaused(p: P.Pool<string>, w: nat)
    requires w < |p.ws| && P.WorkerStep(p, w).Some?
    ensures P.WorkerStep(p, w).value.sh.paused == p.sh.paused
    ensures P.WorkerStep(p, w).value.owner.Sleeping? ==> p.owner.Sleeping?
  {
  }

  /** The flags and program counters that no worker touches. */
  predicate SameControl(s: Scan, t: Scan) {
    && t.main == s.main && t.notifier == s.notifier && t.recorder == s.recorder && t.user == s.user
    && t.running == s.running && t.stopped == s.stopped && t.roots == s.roots && t.pool.sh.paused == s.pool.sh.paused
    && (t.pool.owner.Sleeping? ==> s.pool.owner.Sleeping?)
  }

  lemma LoopKeepsControl(fs: FileSystem, s: Scan, w: nat)
    requires w < |s.jobs| && w < |s.pool.ws| && !s.pool.ws[w].Busy? && WorkerStep(fs, s, w).Some?
    ensures SameControl(s, WorkerStep(fs, s, w).value)
    ensures WorkerStep(fs, s, w).value.counts == s.counts && WorkerStep(fs, s, w).value.entries == s.entries
    ensures WorkerStep(fs, s, w).value.infos == s.infos
  {
    LoopStepKeepsPaused(s.pool, w);
  }

  lemma ReadKeepsControl(fs: FileSystem, s: Scan, w: nat)
    requires w < |s.jobs| && s.jobs[w].Reads()
    ensures SameControl(s, ReadStep(fs, s, w))
  {
  }

  lemma ReadKeepsCounts(fs: FileSystem, s: Scan, w: nat)
    requires w < |s.jobs| && s.jobs[w].Reads() && s.counts == Wrap(|s.roots| + s.entries)
    ensures ReadStep(fs, s, w).counts == Wrap(|s.roots| + ReadStep(fs, s, w).entries)
  {
    if s.jobs[w].Counting? {
      WrapAdds(|s.roots| + s.entries, s.jobs[w].out.Size());
    }
  }

  lemma SpreadKeepsControl(s: Scan, w: nat)
    requires w < |s.jobs| && s.jobs[w].Spreads() && SpreadStep(s, w).Some?
    ensures SameControl(s, SpreadStep(s, w).value)
    ensures SpreadStep(s, w).value.counts == s.counts && SpreadStep(s, w).value.entries == s.entries
  {
  }

  lemma RecordKeepsControl(fs: FileSystem, s: Scan, w: nat)
    requires w < |s.jobs| && s.jobs[w].Records() && RecordStep(fs, s, w).Some?
    ensures SameControl(s, RecordStep(fs, s, w).value)
    ensures RecordStep(fs, s, w).value.counts == s.counts && RecordStep(fs, s, w).value.entries == s.entries
  {
  }

  lemma JobKeepsControl(fs: FileSystem, s: Scan, w: nat)
    requires w < |s.jobs| && JobStep(fs, s, w).Some? && s.counts == Wrap(|s.roots| + s.entries)
    ensures SameControl(s, JobStep(fs, s, w).value)
    ensures JobStep(fs, s, w).value.counts == Wrap(|s.roots| + JobStep(fs, s, w).value.entries)
  {
    if s.jobs[w].Reads() {
      ReadKeepsControl(fs, s, w);
      ReadKeepsCounts(fs, s, w);
    } else if s.jobs[w].Spreads() {
      SpreadKeepsControl(s, w);
    } else if s.jobs[w].Records() {
      RecordKeepsControl(fs, s, w);
    }
  }

  /** A worker step from a state in which something has been pushed; what is new is proved by the callers. */
  lemma SameControlKeepsPhases(s: Scan, t: Scan)
    requires Phases(s) && SameControl(s, t) && !s.main.Setup? && !s.main.StoreCount?
    requires s.notifier.SawEnd() ==> Quiescent(t) && t.infos == s.infos
    requires t.counts == Wrap(|t.roots| + t.entries)
    ensures Phases(t)
  {
  }

  /** Before the push loop no worker has a task, so a worker step changes only the pool's loop. */
  lemma EarlyWorkerStep(fs: FileSystem, s: Scan, w: nat)
    requires I.Histories(s.pool) && Coherent(s.pool.ws, s.jobs) && Phases(s) && (s.main.Setup? || s.main.StoreCount?)
    requires WorkerStep(fs, s, w).Some?
    ensures Phases(WorkerStep(fs, s, w).value)
  {
    NothingPushed(s.pool);
    LoopKeepsControl(fs, s, w);
    I.QuietWorkerStep(s.pool, w);
    assert WorkerStep(fs, s, w).value == s.(pool := P.WorkerStep(s.pool, w).value);
  }

  lemma LateWorkerStep(fs: FileSystem, s: Scan, w: nat)
    requires Coherent(s.pool.ws, s.jobs) && Phases(s) && !s.main.Setup? && !s.main.StoreCount?
    requires WorkerStep(fs, s, w).Some?
    ensures Phases(WorkerStep(fs, s, w).value)
  {
    var t := WorkerStep(fs, s, w).value;
    if s.pool.ws[w].Busy? {
      JobKeepsControl(fs, s, w);
    } else {
      LoopKeepsControl(fs, s, w);
    }
    if s.notifier.SawEnd() {
      QuiescentNobodyWorks(s.pool.ws);
      QuietWorkerStep(fs, s, w);
      LoopKeepsControl(fs, s, w);
    }
    SameControlKeepsPhases(s, t);
  }

  lemma WakeKeepsPhases(fs: FileSystem, s: Scan, l: Label)
    requires Phases(s) && (l.WorkerWake? || l.MainWake? || l.AddPath?) && Step(fs, s, l).Some?
    ensures Phases(Step(fs, s, l).value)
  {
    if s.notifier.SawEnd() && !l.AddPath? {
      QuietWake(fs, s, l);
    }
  }

  lemma MainKeepsFresh(s: Scan)
    requires Fresh(s) && MainStep(s).Some?
    ensures Fresh(MainStep(s).value)
  {
  }

  lemma MainKeepsCounted(s: Scan)
    requires Fresh(s) && Counted(s) && MainStep(s).Some?
    ensures Counted(MainStep(s).value)
  {
  }

  lemma MainKeepsDetected(s: Scan)
    requires MainFormed(s) && Detected(s) && MainStep(s).Some?
    ensures Detected(MainStep(s).value)
  {
    if s.notifier.SawEnd() {
      QuietMainStep(s);
    }
    if s.main.Destroying? {
      QuietOwnerStep(s.pool);
    }
  }

  lemma MainKeepsUndisturbed(s: Scan)
    requires MainFormed(s) && Undisturbed(s) && MainStep(s).Some?
    ensures Undisturbed(MainStep(s).value)
  {
    if s.main.Destroying? {
      QuietOwnerStep(s.pool);
    }
  }

  /** The destructor's wait does not block: the pool is paused and nothing is in flight. */
  lemma MainKeepsAwake(s: Scan)
    requires I.Mutex(s.pool) && I.Conserved(s.pool) && MainFormed(s) && Detected(s) && Undisturbed(s) && Awake(s) && MainStep(s).Some?
    ensures Awake(MainStep(s).value)
  {
  }

  lemma NotifierKeepsPhases(fs: FileSystem, s: Scan)
    requires I.Conserved(s.pool) && Structure(fs, s) && Phases(s) && NotifierStep(s).Some?
    ensures Phases(NotifierStep(s).value)
  {
    if s.notifier.Checking? && s.pool.sh.total == 0 {
      ZeroMeansQuiescent(fs, s);
    }
  }

  lemma RecorderKeepsUndisturbed(s: Scan)
    requires MainFormed(s) && Recording(s) && Undisturbed(s) && RecorderStep(s).Some?
    ensures Undisturbed(RecorderStep(s).value)
    ensures RecorderStep(s).value.running == s.running && RecorderStep(s).value.stopped == s.stopped
  {
  }

  lemma RecorderKeepsPhases(s: Scan)
    requires MainFormed(s) && Recording(s) && Phases(s) && RecorderStep(s).Some?
    ensures Phases(RecorderStep(s).value)
  {
    RecorderFrame(s);
    RecorderKeepsUndisturbed(s);
  }

  lemma UserKeepsPhases(s: Scan)
    requires Phases(s) && UserStep(s).Some?
    ensures Phases(UserStep(s).value)
  {
  }

  /** Every step of every thread keeps the flags right. */
  lemma StepKeepsPhases(fs: FileSystem, s: Scan, l: Label)
    requires I.Inv(s.pool) && Structure(fs, s) && Phases(s) && Step(fs, s, l).Some?
    ensures Phases(Step(fs, s, l).value)
  {
    match l
    case MainWork =>
      MainKeepsFresh(s);
      MainKeepsCounted(s);
      MainKeepsDetected(s);
      MainKeepsUndisturbed(s);
      MainKeepsAwake(s);
    case WorkerWork(w) =>
      if s.main.Setup? || s.main.StoreCount? { EarlyWorkerStep(fs, s, w); } else { LateWorkerStep(fs, s, w); }
    case NotifierWork => NotifierKeepsPhases(fs, s);
    case RecorderWork => RecorderKeepsPhases(s);
    case UserStop => UserKeepsPhases(s);
    case _ => WakeKeepsPhases(fs, s, l);
  }
}
