/** The total of done and remaining work, step by step and over whole runs. */
module ScanTotals {
  import opened FileTree
  import opened ScanMachine
  import opened ScanWork
  import opened ScanConservation
  import opened ScanInvariant
  import opened ScanPhases
  import P = PoolMachine
  import I = PoolInvariant

  /** A worker inside do_scan moves: the total changes as its own share does. */
  lemma JobMoveTotal(sc: Scale, s: Scan, t: Scan, w: nat)
    requires |s.pool.ws| == |s.jobs| && w < |s.jobs| && s.pool.ws[w].Busy?
    requires t.pool.ws == s.pool.ws && |t.jobs| == |s.jobs| && t.jobs == s.jobs[w := t.jobs[w]]
    requires t.main == s.main && t.roots == s.roots
    ensures
      Total(sc, t) + Weigh(sc.pr, Done(s)) + JobWeight(sc, s.jobs[w]) + PathsWeight(sc, s.pool.sh.tasks)
      == Total(sc, s) + Weigh(sc.pr, Done(t)) + JobWeight(sc, t.jobs[w]) + PathsWeight(sc, t.pool.sh.tasks)
  {
    WorkersUpdate(sc, s.pool.ws, s.jobs, w, s.pool.ws[w], t.jobs[w]);
    assert s.pool.ws[w := s.pool.ws[w]] == s.pool.ws;
  }

  lemma ReadDone(pr: Probe, fs: FileSystem, s: Scan, w: nat)
    requires w < |s.jobs| && s.jobs[w].Reads()
    ensures
      var r := ReadOne(fs, s.running, s.jobs[w]);
      Weigh(pr, Done(ReadStep(fs, s, w)))
      == Weigh(pr, Done(s)) + (if pr.OfVisit? then r.visits[pr.path] else 0) + CountWeight(pr, r.counted)
  {
  }

  lemma ReadTotal(sc: Scale, s: Scan, w: nat)
    requires Fair(sc) && |s.pool.ws| == |s.jobs| && w < |s.jobs| && s.pool.ws[w].Busy? && s.jobs[w].Reads()
    requires JobFormed(sc.fs, s.jobs[w])
    ensures |ReadStep(sc.fs, s, w).pool.ws| == |ReadStep(sc.fs, s, w).jobs|
    ensures Total(sc, ReadStep(sc.fs, s, w)) <= Total(sc, s)
    ensures !Drops(sc.fs, s, WorkerWork(w)) ==> Total(sc, ReadStep(sc.fs, s, w)) == Total(sc, s)
  {
    ReadDone(sc.pr, sc.fs, s, w);
    ReadConserves(sc, s.running, s.jobs[w]);
    ReadFrame(sc.fs, s, w);
    JobMoveTotal(sc, s, ReadStep(sc.fs, s, w), w);
  }

  lemma SpreadTotal(sc: Scale, s: Scan, w: nat)
    requires |s.pool.ws| == |s.jobs| && w < |s.jobs| && s.pool.ws[w].Busy? && s.jobs[w].Spreads()
    requires SpreadStep(s, w).Some?
    ensures |SpreadStep(s, w).value.pool.ws| == |SpreadStep(s, w).value.jobs|
    ensures Total(sc, SpreadStep(s, w).value) == Total(sc, s)
  {
    SpreadShape(s, w);
    SpreadGoes(s, w);
    SpreadMoves(s, w);
    SpreadFrame(s, w);
    SpreadConserves(sc, s.jobs[w], s.pool.sh.tasks, SpreadStep(s, w).value.pool.sh.tasks);
    JobMoveTotal(sc, s, SpreadStep(s, w).value, w);
  }

  lemma RecordGoes(fs: FileSystem, s: Scan, w: nat)
    requires w < |s.jobs| && s.jobs[w].Records() && RecordStep(fs, s, w).Some?
    ensures
      var t := RecordStep(fs, s, w).value;
      && |t.jobs| == |s.jobs| && t.jobs[w] == RecordOne(fs, s.jobs[w]).next
      && t.emplaced == s.emplaced + RecordOne(fs, s.jobs[w]).records && t.visited == s.visited && t.entries == s.entries
  {
  }

  lemma RecordTotal(sc: Scale, s: Scan, w: nat)
    requires |s.pool.ws| == |s.jobs| && w < |s.jobs| && s.pool.ws[w].Busy? && s.jobs[w].Records()
    requires JobFormed(sc.fs, s.jobs[w]) && RecordStep(sc.fs, s, w).Some?
    ensures |RecordStep(sc.fs, s, w).value.pool.ws| == |RecordStep(sc.fs, s, w).value.jobs|
    ensures Total(sc, RecordStep(sc.fs, s, w).value) == Total(sc, s)
  {
    RecordGoes(sc.fs, s, w);
    RecordMoves(sc.fs, s, w);
    RecordFrame(sc.fs, s, w);
    RecordConserves(sc, s.jobs[w]);
    RecordsWeightAppend(sc.pr, s.emplaced, RecordOne(sc.fs, s.jobs[w]).records);
    JobMoveTotal(sc, s, RecordStep(sc.fs, s, w).value, w);
  }

  lemma ReturnTotal(sc: Scale, s: Scan, w: nat)
    requires |s.pool.ws| == |s.jobs| && w < |s.jobs| && s.pool.ws[w].Busy? && s.jobs[w].Return? && ReturnStep(s, w).Some?
    ensures |ReturnStep(s, w).value.pool.ws| == |ReturnStep(s, w).value.jobs|
    ensures Total(sc, ReturnStep(s, w).value) == Total(sc, s)
  {
    WorkersUpdate(sc, s.pool.ws, s.jobs, w, P.Relocking, NoJob);
  }

  // ----- Workers outside do_scan -----

  lemma PopTotal(sc: Scale, s: Scan, w: nat)
    requires Coherent(s.pool.ws, s.jobs) && w < |s.jobs| && s.pool.ws[w].Take? && s.pool.sh.tasks != []
    requires WorkerStep(sc.fs, s, w).Some?
    ensures |WorkerStep(sc.fs, s, w).value.pool.ws| == |WorkerStep(sc.fs, s, w).value.jobs|
    ensures Total(sc, WorkerStep(sc.fs, s, w).value) == Total(sc, s)
  {
    var path := s.pool.sh.tasks[0];
    PathsWeightFront(sc, s.pool.sh.tasks);
    WorkersUpdate(sc, s.pool.ws, s.jobs, w, P.Releasing(path), s.jobs[w]);
    assert s.jobs[w := s.jobs[w]] == s.jobs;
  }

  lemma ReleaseTotal(sc: Scale, s: Scan, w: nat)
    requires Coherent(s.pool.ws, s.jobs) && w < |s.jobs| && s.pool.ws[w].Releasing?
    requires WorkerStep(sc.fs, s, w).Some?
    ensures |WorkerStep(sc.fs, s, w).value.pool.ws| == |WorkerStep(sc.fs, s, w).value.jobs|
    ensures Total(sc, WorkerStep(sc.fs, s, w).value) == Total(sc, s)
  {
    var path := s.pool.ws[w].task;
    WorkersUpdate(sc, s.pool.ws, s.jobs, w, P.Busy(path), Enter(path));
  }

  lemma QuietLoopHoldsNothing(p: P.Pool<string>, w: nat)
    requires w < |p.ws| && P.WorkerStep(p, w).Some? && !p.ws[w].Releasing? && !(p.ws[w].Take? && p.sh.tasks != [])
    ensures |P.WorkerStep(p, w).value.ws| == |p.ws|
    ensures !P.WorkerStep(p, w).value.ws[w].Busy? && !P.WorkerStep(p, w).value.ws[w].Releasing?
  {
  }

  lemma IdleTotal(sc: Scale, s: Scan, w: nat)
    requires Coherent(s.pool.ws, s.jobs) && w < |s.jobs| && !s.pool.ws[w].Busy? && !s.pool.ws[w].Releasing?
    requires !(s.pool.ws[w].Take? && s.pool.sh.tasks != []) && WorkerStep(sc.fs, s, w).Some?
    ensures |WorkerStep(sc.fs, s, w).value.pool.ws| == |WorkerStep(sc.fs, s, w).value.jobs|
    ensures Total(sc, WorkerStep(sc.fs, s, w).value) == Total(sc, s)
  {
    var q := P.WorkerStep(s.pool, w).value;
    QuietLoopHoldsNothing(s.pool, w);
    I.QuietWorkerStep(s.pool, w);
    I.WorkerMovesAlone(s.pool, w);
    WorkersUpdate(sc, s.pool.ws, s.jobs, w, q.ws[w], s.jobs[w]);
    assert s.jobs[w := s.jobs[w]] == s.jobs;
    assert WorkerStep(sc.fs, s, w).value == s.(pool := q);
  }

  lemma WorkerTotal(sc: Scale, s: Scan, w: nat)
    requires Fair(sc) && Structure(sc.fs, s) && WorkerStep(sc.fs, s, w).Some?
    ensures |WorkerStep(sc.fs, s, w).value.pool.ws| == |WorkerStep(sc.fs, s, w).value.jobs|
    ensures Total(sc, WorkerStep(sc.fs, s, w).value) <= Total(sc, s)
    ensures !Drops(sc.fs, s, WorkerWork(w)) ==> Total(sc, WorkerStep(sc.fs, s, w).value) == Total(sc, s)
  {
    if s.pool.ws[w].Busy? {
      if s.jobs[w].Reads() {
        ReadTotal(sc, s, w);
      } else if s.jobs[w].Spreads() {
        SpreadTotal(sc, s, w);
      } else if s.jobs[w].Records() {
        RecordTotal(sc, s, w);
      } else {
        ReturnTotal(sc, s, w);
      }
    } else if s.pool.ws[w].Take? && s.pool.sh.tasks != [] {
      PopTotal(sc, s, w);
    } else if s.pool.ws[w].Releasing? {
      ReleaseTotal(sc, s, w);
    } else {
      IdleTotal(sc, s, w);
    }
  }

  // ----- The other threads -----

  lemma LaunchTotal(sc: Scale, s: Scan)
    requires |s.pool.ws| == |s.jobs| && s.main.Launching? && LaunchStep(s).Some?
    ensures LaunchStep(s).value.pool.ws == s.pool.ws
    ensures Total(sc, LaunchStep(s).value) == Total(sc, s)
  {
    var pc, i := s.main.pc, s.main.i;
    PushShape(s.pool, pc, |s.pool.ws|, s.roots[i]);
    if pc.Notifying? {
      assert i + 1 == |s.roots| ==> From(s.roots, i + 1) == [];
    } else {
      PushWeight(sc, s.pool.sh.tasks, LaunchStep(s).value.pool.sh.tasks, pc, s.roots, i);
    }
  }

  lemma OwnerTotal(sc: Scale, p: P.Pool<string>, jobs: seq<Job>)
    requires |p.ws| == |jobs| && P.OwnerStep(p).Some?
    ensures |P.OwnerStep(p).value.ws| == |p.ws| && P.OwnerStep(p).value.sh.tasks == p.sh.tasks
    ensures WorkersWeight(sc, P.OwnerStep(p).value.ws, jobs) == WorkersWeight(sc, p.ws, jobs)
  {
    WorkersPointwise(sc, p.ws, P.OwnerStep(p).value.ws, jobs);
  }

  lemma SameTotal(sc: Scale, s: Scan, t: Scan)
    requires |s.pool.ws| == |s.jobs| && t.pool.ws == s.pool.ws && t.jobs == s.jobs && t.pool.sh.tasks == s.pool.sh.tasks
    requires MainWeight(sc, t.main, t.roots) == MainWeight(sc, s.main, s.roots) && Done(t) == Done(s)
    ensures Total(sc, t) == Total(sc, s)
  {
  }

  lemma ControlFrame(s: Scan)
    requires !s.main.Launching? && !s.main.Destroying? && MainStep(s).Some?
    ensures
      var t := MainStep(s).value;
      && t.pool.ws == s.pool.ws && t.jobs == s.jobs && t.pool.sh.tasks == s.pool.sh.tasks && Done(t) == Done(s)
      && t.roots == s.roots
      && t.main == (match s.main
                    case Setup => StoreCount
                    case StoreCount => LaunchFrom(s.roots, 0)
                    case StartRecorder => StartNotifier
                    case StartNotifier => JoinNotifier
                    case JoinNotifier => JoinRecorder
                    case JoinRecorder => Waited
                    case _ => Destroying)
  {
  }

  lemma LaunchFromWeight(sc: Scale, roots: seq<string>)
    ensures MainWeight(sc, LaunchFrom(roots, 0), roots) == PathsWeight(sc, roots)
  {
    assert From(roots, 0) == roots;
  }

  lemma MainTotal(sc: Scale, s: Scan)
    requires |s.pool.ws| == |s.jobs| && MainStep(s).Some?
    ensures |MainStep(s).value.pool.ws| == |MainStep(s).value.jobs|
    ensures Total(sc, MainStep(s).value) == Total(sc, s)
  {
    if s.main.Launching? {
      LaunchTotal(sc, s);
    } else if s.main.Destroying? {
      OwnerTotal(sc, s.pool, s.jobs);
    } else {
      ControlFrame(s);
      LaunchFromWeight(sc, s.roots);
      SameTotal(sc, s, MainStep(s).value);
    }
  }

  lemma WakeTotal(sc: Scale, s: Scan, l: Label)
    requires Coherent(s.pool.ws, s.jobs) && (l.WorkerWake? || l.MainWake?) && Step(sc.fs, s, l).Some?
    ensures |Step(sc.fs, s, l).value.pool.ws| == |Step(sc.fs, s, l).value.jobs|
    ensures Total(sc, Step(sc.fs, s, l).value) == Total(sc, s)
  {
    if l.WorkerWake? {
      WorkersUpdate(sc, s.pool.ws, s.jobs, l.w, P.Waking(l.timedOut), s.jobs[l.w]);
      assert s.jobs[l.w := s.jobs[l.w]] == s.jobs;
    }
  }

  lemma ServiceTotal(sc: Scale, s: Scan, l: Label)
    requires |s.pool.ws| == |s.jobs| && (l.NotifierWork? || l.RecorderWork? || l.UserStop?) && Step(sc.fs, s, l).Some?
    ensures |Step(sc.fs, s, l).value.pool.ws| == |Step(sc.fs, s, l).value.jobs|
    ensures Total(sc, Step(sc.fs, s, l).value) == Total(sc, s)
  {
    ServiceFrame(sc.fs, s, l);
    SameTotal(sc, s, Step(sc.fs, s, l).value);
  }

  /** The work that the paths added so far call for, less what is done or still to do. */
  lemma StepTotal(sc: Scale, s: Scan, l: Label)
    requires Fair(sc) && Structure(sc.fs, s) && Step(sc.fs, s, l).Some? && !l.AddPath?
    ensures |Step(sc.fs, s, l).value.pool.ws| == |Step(sc.fs, s, l).value.jobs|
    ensures Total(sc, Step(sc.fs, s, l).value) <= Total(sc, s)
    ensures !Drops(sc.fs, s, l) ==> Total(sc, Step(sc.fs, s, l).value) == Total(sc, s)
  {
    match l
    case MainWork => MainTotal(sc, s);
    case WorkerWork(w) => WorkerTotal(sc, s, w);
    case WorkerWake(_, _) => WakeTotal(sc, s, l);
    case MainWake => WakeTotal(sc, s, l);
    case NotifierWork => ServiceTotal(sc, s, l);
    case RecorderWork => ServiceTotal(sc, s, l);
    case UserStop => ServiceTotal(sc, s, l);
  }

  lemma AddPathTotal(sc: Scale, s: Scan, path: string)
    requires |s.pool.ws| == |s.jobs| && Step(sc.fs, s, AddPath(path)).Some?
    ensures Step(sc.fs, s, AddPath(path)).value.roots == s.roots + [path]
    ensures Step(sc.fs, s, AddPath(path)).value.jobs == s.jobs && Step(sc.fs, s, AddPath(path)).value.pool == s.pool
    ensures Total(sc, Step(sc.fs, s, AddPath(path)).value) == Total(sc, s) + sc.path(path)
  {
    PathsWeightSnoc(sc, s.roots, path);
  }
}
