/**
 Quiet parts of a run: nobody takes a statement on behalf of a task or of launch().  Whoever has such a
 statement to take is then kept from it, and the lemmas here say by whom.
 */
module ScanQuiet {
  import opened FileTree
  import opened ScanMachine
  import opened ScanInvariant
  import opened ScanDescent
  import opened ScanTheorems
  import opened ScanProgress
  import opened ScanCompletion
  import opened PoolRanks
  import P = PoolMachine
  import I = PoolInvariant

  // ----- Threads -----

  datatype Agent = Main | Worker(w: nat) | Notifier | Recorder

  /** The step is one of that thread. */
  predicate By(l: Label, a: Agent) {
    match a
    case Main => l.MainWork?
    case Worker(w) => (l.WorkerWork? || l.WorkerWake?) && l.w == w
    case Notifier => l.NotifierWork?
    case Recorder => l.RecorderWork?
  }

  /** The thread can take a step now; a worker asleep in its timed wait can always wake. */
  predicate Enabled(fs: FileSystem, s: Scan, a: Agent) {
    match a
    case Main => MainStep(s).Some?
    case Worker(w) => Step(fs, s, WorkerWork(w)).Some? || Step(fs, s, WorkerWake(w, true)).Some?
    case Notifier => NotifierStep(s).Some?
    case Recorder => RecorderStep(s).Some?
  }

  predicate Acts(labels: seq<Label>, a: Agent) { exists i :: 0 <= i < |labels| && By(labels[i], a) }

  /** The thread is blocked from the first state of the run to the last. */
  predicate Blocked(fs: FileSystem, s: Scan, labels: seq<Label>, a: Agent)
    requires CanRun(fs, s, labels)
    decreases |labels|
  {
    !Enabled(fs, s, a) && (labels == [] || Blocked(fs, Step(fs, s, labels[0]).value, labels[1..], a))
  }

  /** Every thread takes a step, unless it is blocked all the time. */
  ghost predicate Fair(fs: FileSystem, s: Scan, labels: seq<Label>)
    requires CanRun(fs, s, labels)
  {
    forall a :: Acts(labels, a) || Blocked(fs, s, labels, a)
  }

  // ----- Quiet steps -----

  predicate Quiet(fs: FileSystem, s: Scan, labels: seq<Label>)
    requires CanRun(fs, s, labels)
    decreases |labels|
  {
    labels == [] || (!Productive(s, labels[0]) && Quiet(fs, Step(fs, s, labels[0]).value, labels[1..]))
  }

  /** The worker has no task, nor a notification to make for one. */
  predicate Unoccupied(pc: P.WorkerPc<string>) { !pc.InFlight() && !pc.NotifyTest? }

  /** What a quiet step does not change. */
  ghost predicate Still(s: Scan, t: Scan) {
    && t.jobs == s.jobs && |t.pool.ws| == |s.pool.ws| && t.pool.sh.tasks == s.pool.sh.tasks && t.dirLock == s.dirLock
    && (forall w :: 0 <= w < |s.pool.ws| && AtWork(s.pool, w) ==> t.pool.ws[w] == s.pool.ws[w])
    && (forall w :: 0 <= w < |s.pool.ws| && Unoccupied(s.pool.ws[w]) ==> Unoccupied(t.pool.ws[w]))
    && (if Launches(s.main) then t.main == s.main else !Launches(t.main))
  }

  lemma StillTransitive(s: Scan, t: Scan, u: Scan)
    requires Still(s, t) && Still(t, u)
    ensures Still(s, u)
  {
    forall w | 0 <= w < |s.pool.ws| && AtWork(s.pool, w)
      ensures u.pool.ws[w] == s.pool.ws[w]
    {
      assert AtWork(t.pool, w);
    }
  }

  /** What a step leaves to the other threads. */
  ghost predicate Private(s: Scan, l: Label, t: Scan) {
    && |t.pool.ws| == |s.pool.ws|
    && (forall w :: 0 <= w < |s.pool.ws| && !By(l, Worker(w)) ==> t.pool.ws[w] == s.pool.ws[w])
    && (!l.RecorderWork? ==> t.recorder == s.recorder && t.infoLock == s.infoLock && t.infos == s.infos)
    && (!l.NotifierWork? ==> t.notifier == s.notifier)
    && (!l.MainWork? ==> t.main == s.main)
    && (!s.pool.lock.Free? && !(s.pool.lock.ByWorker? && By(l, Worker(s.pool.lock.worker))) ==> t.pool.lock == s.pool.lock)
  }

  /** A worker without a task moves in the pool's loop. */
  lemma IdleLoopStep(p: P.Pool<string>, w: nat)
    requires I.Mutex(p) && w < |p.ws| && !AtWork(p, w) && P.WorkerStep(p, w).Some?
    ensures
      var q := P.WorkerStep(p, w).value;
      && |q.ws| == |p.ws| && (forall v :: 0 <= v < |p.ws| && v != w ==> q.ws[v] == p.ws[v])
      && q.sh == p.sh && Unoccupied(q.ws[w])
      && (!p.lock.Free? && p.lock != P.ByWorker(w) ==> q.lock == p.lock)
  {
  }

  lemma QuietWorkerStep(fs: FileSystem, s: Scan, w: nat)
    requires I.Mutex(s.pool) && Coherent(s.pool.ws, s.jobs) && !Productive(s, WorkerWork(w)) && Step(fs, s, WorkerWork(w)).Some?
    ensures
      var t := Step(fs, s, WorkerWork(w)).value;
      Still(s, t) && Private(s, WorkerWork(w), t)
  {
    IdleLoopStep(s.pool, w);
    LoopFrame(fs, s, w);
    assert Step(fs, s, WorkerWork(w)).value == s.(pool := P.WorkerStep(s.pool, w).value);
  }

  lemma QuietWakeStep(fs: FileSystem, s: Scan, w: nat, timedOut: bool)
    requires Step(fs, s, WorkerWake(w, timedOut)).Some?
    ensures
      var t := Step(fs, s, WorkerWake(w, timedOut)).value;
      Still(s, t) && Private(s, WorkerWake(w, timedOut), t)
  {
  }

  lemma QuietMainStep(fs: FileSystem, s: Scan)
    requires !Launches(s.main) && !HasReturned(s) && MainStep(s).Some?
    ensures Still(s, MainStep(s).value) && Private(s, MainWork, MainStep(s).value)
  {
  }

  lemma QuietServiceStep(fs: FileSystem, s: Scan, l: Label)
    requires (l.NotifierWork? || l.RecorderWork?) && Step(fs, s, l).Some?
    ensures Still(s, Step(fs, s, l).value) && Private(s, l, Step(fs, s, l).value)
  {
    ServiceFrame(fs, s, l);
    if l.NotifierWork? {
      NotifierLeavesRecorder(s);
    } else {
      RecorderFrame(s);
    }
  }

  lemma QuietStep(fs: FileSystem, s: Scan, l: Label)
    requires I.Mutex(s.pool) && Structure(fs, s) && !HasReturned(s) && Possible(fs, s, l) && !Productive(s, l)
    ensures Still(s, Step(fs, s, l).value) && Private(s, l, Step(fs, s, l).value)
  {
    match l
    case WorkerWork(w) => QuietWorkerStep(fs, s, w);
    case WorkerWake(w, timedOut) => QuietWakeStep(fs, s, w, timedOut);
    case MainWork => QuietMainStep(fs, s);
    case NotifierWork => QuietServiceStep(fs, s, l);
    case RecorderWork => QuietServiceStep(fs, s, l);
    case _ =>
  }

  // ----- Quiet parts of a run -----

  /** A quiet part of a run of the scan's own threads, before wait() returns. */
  ghost predicate QuietPart(fs: FileSystem, s: Scan, labels: seq<Label>) {
    && Good(fs, s) && CanRun(fs, s, labels) && OwnLabels(labels) && Quiet(fs, s, labels)
    && !HasReturned(Final(fs, s, labels))
  }

  lemma StepKeepsReturned(fs: FileSystem, s: Scan, l: Label)
    requires HasReturned(s) && Step(fs, s, l).Some?
    ensures HasReturned(Step(fs, s, l).value)
  {
    match l
    case WorkerWork(w) => MainIsElsewhere(fs, s, w);
    case _ =>
  }

  lemma {:induction false} RunKeepsReturned(fs: FileSystem, s: Scan, labels: seq<Label>)
    requires HasReturned(s) && CanRun(fs, s, labels)
    ensures HasReturned(Final(fs, s, labels))
    decreases |labels|
  {
    if labels != [] {
      StepKeepsReturned(fs, s, labels[0]);
      RunKeepsReturned(fs, Step(fs, s, labels[0]).value, labels[1..]);
    }
  }

  /** The first step of a quiet part, and the rest. */
  lemma QuietFirst(fs: FileSystem, s: Scan, labels: seq<Label>)
    requires QuietPart(fs, s, labels)
    ensures !HasReturned(s)
    ensures labels != [] ==>
      && Possible(fs, s, labels[0]) && !Productive(s, labels[0])
      && QuietPart(fs, Step(fs, s, labels[0]).value, labels[1..])
      && Still(s, Step(fs, s, labels[0]).value) && Private(s, labels[0], Step(fs, s, labels[0]).value)
  {
    if HasReturned(s) {
      RunKeepsReturned(fs, s, labels);
    }
    if labels != [] {
      assert labels[0] in labels && forall l :: l in labels[1..] ==> l in labels;
      StepKeepsGood(fs, s, labels[0]);
      QuietStep(fs, s, labels[0]);
    }
  }

  lemma {:induction false} QuietRunIsStill(fs: FileSystem, s: Scan, labels: seq<Label>)
    requires QuietPart(fs, s, labels)
    ensures Still(s, Final(fs, s, labels)) && Good(fs, Final(fs, s, labels))
    decreases |labels|
  {
    QuietFirst(fs, s, labels);
    if labels != [] {
      var t := Step(fs, s, labels[0]).value;
      QuietRunIsStill(fs, t, labels[1..]);
      StillTransitive(s, t, Final(fs, s, labels));
    }
  }

  // ----- Who is blocked -----

  lemma FirstOrLater(labels: seq<Label>, a: Agent)
    requires labels != [] && Acts(labels, a)
    ensures By(labels[0], a) || Acts(labels[1..], a)
  {
    var i :| 0 <= i < |labels| && By(labels[i], a);
    if i > 0 {
      assert labels[1..][i - 1] == labels[i];
    }
  }

  lemma QuietStepIsNotHis(fs: FileSystem, s: Scan, l: Label, w: nat)
    requires w < |s.pool.ws| && AtWork(s.pool, w) && Step(fs, s, l).Some? && !Productive(s, l)
    ensures !By(l, Worker(w))
  {
  }

  lemma StillAtWork(s: Scan, t: Scan, w: nat)
    requires Still(s, t) && w < |s.pool.ws| && AtWork(s.pool, w)
    ensures w < |t.pool.ws| && AtWork(t.pool, w)
  {
  }

  /** A worker with a statement to take for its task takes none in a quiet part. */
  lemma {:induction false} BusyWorkerDoesNotAct(fs: FileSystem, s: Scan, labels: seq<Label>, w: nat)
    requires QuietPart(fs, s, labels) && w < |s.pool.ws| && AtWork(s.pool, w)
    ensures !Acts(labels, Worker(w))
    decreases |labels|
  {
    QuietFirst(fs, s, labels);
    if labels != [] {
      QuietStepIsNotHis(fs, s, labels[0], w);
      StillAtWork(s, Step(fs, s, labels[0]).value, w);
      BusyWorkerDoesNotAct(fs, Step(fs, s, labels[0]).value, labels[1..], w);
      if Acts(labels, Worker(w)) {
        FirstOrLater(labels, Worker(w));
      }
    }
  }

  lemma {:induction false} LauncherDoesNotAct(fs: FileSystem, s: Scan, labels: seq<Label>)
    requires QuietPart(fs, s, labels) && Launches(s.main)
    ensures !Acts(labels, Main)
    decreases |labels|
  {
    QuietFirst(fs, s, labels);
    if labels != [] {
      LauncherDoesNotAct(fs, Step(fs, s, labels[0]).value, labels[1..]);
      if Acts(labels, Main) {
        FirstOrLater(labels, Main);
      }
    }
  }

  lemma BusyWorkerIsBlocked(fs: FileSystem, s: Scan, labels: seq<Label>, w: nat)
    requires QuietPart(fs, s, labels) && Fair(fs, s, labels) && w < |s.pool.ws| && AtWork(s.pool, w)
    ensures Blocked(fs, s, labels, Worker(w)) && !Enabled(fs, s, Worker(w))
  {
    BusyWorkerDoesNotAct(fs, s, labels, w);
  }

  lemma LauncherIsBlocked(fs: FileSystem, s: Scan, labels: seq<Label>)
    requires QuietPart(fs, s, labels) && Fair(fs, s, labels) && Launches(s.main)
    ensures Blocked(fs, s, labels, Main) && !Enabled(fs, s, Main)
  {
    LauncherDoesNotAct(fs, s, labels);
  }

  // ----- Held locks -----

  /** tasks_mutex_ is held from the first state of the run to the last. */
  predicate TasksHeld(fs: FileSystem, s: Scan, labels: seq<Label>)
    requires CanRun(fs, s, labels)
    decreases |labels|
  {
    !s.pool.lock.Free? && (labels == [] || TasksHeld(fs, Step(fs, s, labels[0]).value, labels[1..]))
  }

  predicate InfoIsHeld(fs: FileSystem, s: Scan, labels: seq<Label>)
    requires CanRun(fs, s, labels)
    decreases |labels|
  {
    !s.infoLock.InfoFree? && (labels == [] || InfoIsHeld(fs, Step(fs, s, labels[0]).value, labels[1..]))
  }

  /** The worker waits for tasks_mutex_ on behalf of its task. */
  predicate WantsTasks(s: Scan, w: nat)
    requires w < |s.pool.ws| && w < |s.jobs|
  {
    s.pool.ws[w].Relocking? || (s.pool.ws[w].Busy? && s.jobs[w].Pushing? && s.jobs[w].pc.Locking?)
  }

  lemma WantsUnlessHeld(fs: FileSystem, s: Scan, w: nat)
    requires Structure(fs, s) && w < |s.pool.ws| && WantsTasks(s, w) && s.pool.lock.Free?
    ensures Enabled(fs, s, Worker(w))
  {
    if s.pool.ws[w].Busy? {
      JobCanStep(fs, s, w);
    }
  }

  lemma {:induction false} BlockedWorkerMeansHeld(fs: FileSystem, s: Scan, labels: seq<Label>, w: nat)
    requires QuietPart(fs, s, labels) && w < |s.pool.ws| && w < |s.jobs| && WantsTasks(s, w) && Blocked(fs, s, labels, Worker(w))
    ensures TasksHeld(fs, s, labels)
    decreases |labels|
  {
    QuietFirst(fs, s, labels);
    if s.pool.lock.Free? {
      WantsUnlessHeld(fs, s, w);
    }
    if labels != [] {
      BlockedWorkerMeansHeld(fs, Step(fs, s, labels[0]).value, labels[1..], w);
    }
  }

  lemma LauncherUnlessHeld(fs: FileSystem, s: Scan)
    requires Structure(fs, s) && Launches(s.main) && s.pool.lock.Free?
    ensures Enabled(fs, s, Main)
  {
    LaunchCanStep(s);
  }

  lemma {:induction false} BlockedLauncherMeansHeld(fs: FileSystem, s: Scan, labels: seq<Label>)
    requires QuietPart(fs, s, labels) && Launches(s.main) && Blocked(fs, s, labels, Main)
    ensures TasksHeld(fs, s, labels)
    decreases |labels|
  {
    QuietFirst(fs, s, labels);
    if s.pool.lock.Free? {
      LauncherUnlessHeld(fs, s);
    }
    if labels != [] {
      BlockedLauncherMeansHeld(fs, Step(fs, s, labels[0]).value, labels[1..]);
    }
  }

  lemma {:induction false} BlockedRecordingMeansHeld(fs: FileSystem, s: Scan, labels: seq<Label>, w: nat)
    requires QuietPart(fs, s, labels) && w < |s.pool.ws| && w < |s.jobs| && s.pool.ws[w].Busy? && s.jobs[w].InfoLocking?
    requires Blocked(fs, s, labels, Worker(w))
    ensures InfoIsHeld(fs, s, labels)
    decreases |labels|
  {
    QuietFirst(fs, s, labels);
    if s.infoLock.InfoFree? {
      JobCanStep(fs, s, w);
    }
    if labels != [] {
      assert AtWork(s.pool, w);
      BlockedRecordingMeansHeld(fs, Step(fs, s, labels[0]).value, labels[1..], w);
    }
  }

  // ----- The holder of tasks_mutex_ -----

  /** While the mutex stays held, its holder only comes closer to releasing it, and does so when it steps. */
  lemma {:induction false} HolderComesCloser(fs: FileSystem, s: Scan, labels: seq<Label>, h: nat)
    requires QuietPart(fs, s, labels) && TasksHeld(fs, s, labels) && s.pool.lock == P.ByWorker(h) && h < |s.pool.ws|
    ensures Final(fs, s, labels).pool.lock == s.pool.lock && h < |Final(fs, s, labels).pool.ws|
    ensures HoldPart(Final(fs, s, labels).pool) <= HoldPart(s.pool)
    ensures Acts(labels, Worker(h)) ==> HoldPart(Final(fs, s, labels).pool) < HoldPart(s.pool)
    decreases |labels|
  {
    QuietFirst(fs, s, labels);
    if labels != [] {
      var t := Step(fs, s, labels[0]).value;
      if By(labels[0], Worker(h)) {
        HolderStep(fs, s, labels[0], h);
      }
      HolderComesCloser(fs, t, labels[1..], h);
      if Acts(labels, Worker(h)) {
        FirstOrLater(labels, Worker(h));
      }
    }
  }

  lemma HolderStep(fs: FileSystem, s: Scan, l: Label, h: nat)
    requires I.Mutex(s.pool) && Structure(fs, s) && Possible(fs, s, l) && !Productive(s, l)
    requires s.pool.lock == P.ByWorker(h) && h < |s.pool.ws| && By(l, Worker(h)) && !Step(fs, s, l).value.pool.lock.Free?
    ensures Step(fs, s, l).value.pool.lock == s.pool.lock && HoldPart(Step(fs, s, l).value.pool) < HoldPart(s.pool)
  {
    assert s.pool.ws[h].HoldsLock();
    HolderSteps(s.pool, h);
    assert Step(fs, s, l).value.pool == P.WorkerStep(s.pool, h).value;
  }

  /** In a fair quiet part the mutex is held by a worker without a task, which comes closer to releasing it. */
  lemma HeldMutexComesCloser(fs: FileSystem, s: Scan, labels: seq<Label>)
    requires QuietPart(fs, s, labels) && Fair(fs, s, labels) && TasksHeld(fs, s, labels)
    ensures HoldPart(Final(fs, s, labels).pool) < HoldPart(s.pool)
  {
    QuietFirst(fs, s, labels);
    var l := TasksHolderSteps(fs, s);
    HolderIsIdle(fs, s, labels, l);
    var h := s.pool.lock.worker;
    HolderSteps(s.pool, h);
    assert Enabled(fs, s, Worker(h)) && !Blocked(fs, s, labels, Worker(h));
    assert Acts(labels, Worker(h));
    HolderComesCloser(fs, s, labels, h);
  }

  lemma HolderIsIdle(fs: FileSystem, s: Scan, labels: seq<Label>, l: Label)
    requires QuietPart(fs, s, labels) && Fair(fs, s, labels) && Possible(fs, s, l)
    ensures !Productive(s, l)
  {
    if Productive(s, l) {
      if l.WorkerWork? {
        BusyWorkerIsBlocked(fs, s, labels, l.w);
      } else {
        LauncherIsBlocked(fs, s, labels);
      }
    }
  }
}
