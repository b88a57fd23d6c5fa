/**
 A fair scan ends.  A round is a part of a run in which every thread takes a step, unless it is blocked
 from the first state of the round to the last; a run in which each thread that can step again and again
 does step again and again falls into such rounds.  Whatever else the threads do in between, after a
 bounded number of rounds wait() has returned.
 */
module ScanFairness {
  import opened FileTree
  import opened ScanMachine
  import opened ScanInvariant
  import opened ScanMeasure
  import opened ScanDescent
  import opened ScanTheorems
  import opened ScanProgress
  import opened ScanCompletion
  import opened ScanHalt
  import opened ScanStop
  import opened ScanQuiet
  import opened PoolRanks
  import P = PoolMachine

  /** A part of a run of the scan's own threads that is fair to each of them. */
  ghost predicate Round(fs: FileSystem, s: Scan, labels: seq<Label>) {
    CanRun(fs, s, labels) && OwnLabels(labels) && Fair(fs, s, labels)
  }

  ghost predicate Rounds(fs: FileSystem, s: Scan, rounds: seq<seq<Label>>)
    decreases |rounds|
  {
    rounds == [] || (Round(fs, s, rounds[0]) && Rounds(fs, Final(fs, s, rounds[0]), rounds[1..]))
  }

  ghost function After(fs: FileSystem, s: Scan, rounds: seq<seq<Label>>): Scan
    requires Rounds(fs, s, rounds)
    decreases |rounds|
  {
    if rounds == [] then s else After(fs, Final(fs, s, rounds[0]), rounds[1..])
  }

  // ----- What a round without progress on a task uses up -----

  /** launch() or a task waits for tasks_mutex_, if for anything. */
  ghost predicate TasksWanted(s: Scan) {
    Launches(s.main) || exists w :: 0 <= w < |s.pool.ws| && w < |s.jobs| && WantsTasks(s, w)
  }

  function RecorderHold(r: RecorderPc): nat { if r.Swapping? then 2 else if r.RecUnlocking? then 1 else 0 }

  /** When there are no tasks: how far the notifier, then the recorder and the main thread, are from the end. */
  function ClosingRest(s: Scan): nat {
    40 * NotifierRank(s.notifier)
    + (if s.notifier.NotifierOver? then RecorderRank(s.recorder, s.infos != []) else 20) + JoinRank(s.main)
  }

  ghost function Rest(s: Scan): nat
    requires |s.pool.ws| > 0
  {
    if Launches(s.main) || !NobodyWorks(s.pool) then
      if TasksWanted(s) then HoldPart(s.pool) else RecorderHold(s.recorder)
    else if s.pool.sh.tasks != [] then 8 * SeekRank(s.pool.ws[0]) + HoldPart(s.pool)
    else ClosingRest(s)
  }

  lemma HoldPartBound(p: P.Pool<string>)
    ensures HoldPart(p) <= 7
  {
  }

  lemma RestBound(s: Scan)
    requires |s.pool.ws| > 0
    ensures Rest(s) < 300
  {
    HoldPartBound(s.pool);
  }

  // ----- launch(), or a task, is kept waiting -----

  lemma TasksWantedStays(s: Scan, t: Scan)
    requires Coherent(s.pool.ws, s.jobs) && Still(s, t)
    ensures TasksWanted(t) <==> TasksWanted(s)
    ensures NobodyWorks(t.pool) <==> NobodyWorks(s.pool)
  {
    forall w | 0 <= w < |s.pool.ws|
      ensures WantsTasks(t, w) <==> WantsTasks(s, w)
      ensures Unoccupied(t.pool.ws[w]) <==> Unoccupied(s.pool.ws[w])
    {
      if !Unoccupied(s.pool.ws[w]) {
        assert AtWork(s.pool, w);
      }
    }
  }

  lemma WantedMutexIsHeld(fs: FileSystem, s: Scan, labels: seq<Label>)
    requires QuietPart(fs, s, labels) && Fair(fs, s, labels) && TasksWanted(s)
    ensures TasksHeld(fs, s, labels)
  {
    if Launches(s.main) {
      LauncherIsBlocked(fs, s, labels);
      BlockedLauncherMeansHeld(fs, s, labels);
    } else {
      var w :| 0 <= w < |s.pool.ws| && w < |s.jobs| && WantsTasks(s, w);
      BusyWorkerIsBlocked(fs, s, labels, w);
      BlockedWorkerMeansHeld(fs, s, labels, w);
    }
  }

  /** If nobody waits for tasks_mutex_, a task that is kept waiting wants file_info_mutex_, and the recorder has it. */
  lemma OnlyTheRecorderBlocks(fs: FileSystem, s: Scan, labels: seq<Label>) returns (w: nat)
    requires QuietPart(fs, s, labels) && Fair(fs, s, labels) && !TasksWanted(s) && !NobodyWorks(s.pool)
    ensures w < |s.pool.ws| && w < |s.jobs| && s.pool.ws[w].Busy? && s.jobs[w].InfoLocking?
    ensures Blocked(fs, s, labels, Worker(w)) && s.infoLock.InfoRecorder?
  {
    w :| 0 <= w < |s.pool.ws| && (s.pool.ws[w].InFlight() || s.pool.ws[w].NotifyTest?);
    BusyWorkerIsBlocked(fs, s, labels, w);
    OnlyTasksBlock(fs, s, w);
    if s.jobs[w].DirLocking? {
      var v := s.dirLock.value;
      BusyWorkerIsBlocked(fs, s, labels, v);
      JobCanStepUnlessWanting(fs, s, v);
    } else if s.infoLock.InfoWorker? {
      var v := s.infoLock.worker;
      BusyWorkerIsBlocked(fs, s, labels, v);
      JobCanStepUnlessWanting(fs, s, v);
    }
  }

  /** A worker that is blocked with a task wants one of the mutexes. */
  lemma OnlyTasksBlock(fs: FileSystem, s: Scan, w: nat)
    requires Structure(fs, s) && w < |s.pool.ws| && (s.pool.ws[w].InFlight() || s.pool.ws[w].NotifyTest?)
    requires !Enabled(fs, s, Worker(w)) && !TasksWanted(s)
    ensures w < |s.jobs| && s.pool.ws[w].Busy? && (s.jobs[w].DirLocking? || s.jobs[w].InfoLocking?)
    ensures s.jobs[w].DirLocking? ==> s.dirLock.Some? && s.dirLock.value < |s.jobs| && s.jobs[s.dirLock.value].HoldsDir()
    ensures s.jobs[w].DirLocking? ==> AtWork(s.pool, s.dirLock.value)
    ensures s.jobs[w].InfoLocking? ==> !s.infoLock.InfoFree?
    ensures s.jobs[w].InfoLocking? && s.infoLock.InfoWorker? ==>
      s.infoLock.worker < |s.jobs| && s.jobs[s.infoLock.worker].HoldsInfo() && AtWork(s.pool, s.infoLock.worker)
  {
    assert !WantsTasks(s, w);
    if s.pool.ws[w].Busy? {
      if !JobBlocked(s, w) {
        JobCanStep(fs, s, w);
      }
    }
  }

  lemma JobCanStepUnlessWanting(fs: FileSystem, s: Scan, w: nat)
    requires Structure(fs, s) && w < |s.jobs| && (s.jobs[w].HoldsDir() || s.jobs[w].HoldsInfo()) && !TasksWanted(s)
    ensures Enabled(fs, s, Worker(w))
  {
    assert s.pool.ws[w].Busy? && !WantsTasks(s, w);
    JobCanStep(fs, s, w);
  }

  lemma RecorderHoldStep(fs: FileSystem, s: Scan, l: Label)
    requires Structure(fs, s) && Step(fs, s, l).Some? && Private(s, l, Step(fs, s, l).value)
    requires s.infoLock.InfoRecorder? && !Step(fs, s, l).value.infoLock.InfoFree?
    ensures Step(fs, s, l).value.infoLock.InfoRecorder?
    ensures RecorderHold(Step(fs, s, l).value.recorder) <= RecorderHold(s.recorder)
    ensures l.RecorderWork? ==> RecorderHold(Step(fs, s, l).value.recorder) < RecorderHold(s.recorder)
  {
  }

  /** While file_info_mutex_ stays held, the recorder only comes closer to releasing it. */
  lemma {:induction false} RecorderComesCloser(fs: FileSystem, s: Scan, labels: seq<Label>)
    requires QuietPart(fs, s, labels) && InfoIsHeld(fs, s, labels) && s.infoLock.InfoRecorder?
    ensures Final(fs, s, labels).infoLock.InfoRecorder?
    ensures RecorderHold(Final(fs, s, labels).recorder) <= RecorderHold(s.recorder)
    ensures Acts(labels, Recorder) ==> RecorderHold(Final(fs, s, labels).recorder) < RecorderHold(s.recorder)
    decreases |labels|
  {
    QuietFirst(fs, s, labels);
    if labels != [] {
      var t := Step(fs, s, labels[0]).value;
      RecorderHoldStep(fs, s, labels[0]);
      RecorderComesCloser(fs, t, labels[1..]);
      if Acts(labels, Recorder) {
        FirstOrLater(labels, Recorder);
      }
    }
  }

  lemma BlockedTaskRound(fs: FileSystem, s: Scan, labels: seq<Label>)
    requires QuietPart(fs, s, labels) && Fair(fs, s, labels) && |s.pool.ws| > 0
    requires Launches(s.main) || !NobodyWorks(s.pool)
    ensures |Final(fs, s, labels).pool.ws| > 0 && Rest(Final(fs, s, labels)) < Rest(s)
  {
    var t := Final(fs, s, labels);
    QuietRunIsStill(fs, s, labels);
    TasksWantedStays(s, t);
    if TasksWanted(s) {
      WantedMutexIsHeld(fs, s, labels);
      HeldMutexComesCloser(fs, s, labels);
    } else {
      var w := OnlyTheRecorderBlocks(fs, s, labels);
      BlockedRecordingMeansHeld(fs, s, labels, w);
      assert Enabled(fs, s, Recorder) && !Blocked(fs, s, labels, Recorder);
      RecorderComesCloser(fs, s, labels);
    }
  }

  // ----- Tasks are queued and nobody has one -----

  /** Until the notifier has seen the end, and that is not before the queue is empty, the pool is not paused. */
  lemma SeekingIsUnpaused(fs: FileSystem, s: Scan)
    requires Good(fs, s) && !s.stopped && Seeking(s) && !HasReturned(s)
    ensures s.pool.sh.running && !s.pool.sh.paused
    ensures forall w :: 0 <= w < |s.pool.ws| ==> !s.pool.ws[w].Exited? && s.pool.ws[w] != P.Leaving(true)
  {
  }

  lemma SeekingStays(s: Scan, t: Scan)
    requires Still(s, t) && Seeking(s)
    ensures Seeking(t)
  {
  }

  lemma ClosingStays(s: Scan, t: Scan)
    requires Still(s, t) && Closing(s)
    ensures Closing(t)
  {
  }

  lemma SeekerStep(fs: FileSystem, s: Scan, l: Label)
    requires Good(fs, s) && !s.stopped && Seeking(s) && !HasReturned(s) && |s.pool.ws| > 0
    requires Possible(fs, s, l) && !Productive(s, l) && By(l, Worker(0))
    ensures |Step(fs, s, l).value.pool.ws| > 0 && SeekRank(Step(fs, s, l).value.pool.ws[0]) < SeekRank(s.pool.ws[0])
  {
    SeekingIsUnpaused(fs, s);
    if l.WorkerWork? {
      SeekStep(s.pool, 0);
      assert Step(fs, s, l).value.pool == P.WorkerStep(s.pool, 0).value;
    }
  }

  lemma {:induction false} SeekerComesCloser(fs: FileSystem, s: Scan, labels: seq<Label>)
    requires QuietPart(fs, s, labels) && !s.stopped && Seeking(s) && |s.pool.ws| > 0
    ensures |Final(fs, s, labels).pool.ws| > 0 && SeekRank(Final(fs, s, labels).pool.ws[0]) <= SeekRank(s.pool.ws[0])
    ensures Acts(labels, Worker(0)) ==> SeekRank(Final(fs, s, labels).pool.ws[0]) < SeekRank(s.pool.ws[0])
    decreases |labels|
  {
    QuietFirst(fs, s, labels);
    if labels != [] {
      var t := Step(fs, s, labels[0]).value;
      OwnStepKeepsStopped(fs, s, labels[0]);
      SeekingStays(s, t);
      if By(labels[0], Worker(0)) {
        SeekerStep(fs, s, labels[0]);
      }
      SeekerComesCloser(fs, t, labels[1..]);
      if Acts(labels, Worker(0)) {
        FirstOrLater(labels, Worker(0));
      }
    }
  }

  lemma SeekerUnlessHeld(fs: FileSystem, s: Scan)
    requires Good(fs, s) && !s.stopped && Seeking(s) && !HasReturned(s) && |s.pool.ws| > 0 && s.pool.lock.Free?
    ensures Enabled(fs, s, Worker(0))
  {
    SeekingIsUnpaused(fs, s);
    assert !s.pool.ws[0].HoldsLock();
  }

  lemma {:induction false} BlockedSeekerMeansHeld(fs: FileSystem, s: Scan, labels: seq<Label>)
    requires QuietPart(fs, s, labels) && !s.stopped && Seeking(s) && |s.pool.ws| > 0 && Blocked(fs, s, labels, Worker(0))
    ensures TasksHeld(fs, s, labels)
    decreases |labels|
  {
    QuietFirst(fs, s, labels);
    if s.pool.lock.Free? {
      SeekerUnlessHeld(fs, s);
    }
    if labels != [] {
      OwnStepKeepsStopped(fs, s, labels[0]);
      SeekingStays(s, Step(fs, s, labels[0]).value);
      BlockedSeekerMeansHeld(fs, Step(fs, s, labels[0]).value, labels[1..]);
    }
  }

  /** In a halted scan the last task is just being popped, and nothing keeps its worker from that. */
  lemma HaltedIsNotSeeking(fs: FileSystem, s: Scan, labels: seq<Label>)
    requires QuietPart(fs, s, labels) && Fair(fs, s, labels) && Halted(s)
    ensures s.pool.sh.tasks == []
  {
    if s.pool.sh.tasks != [] {
      var w := s.pool.lock.worker;
      HolderSteps(s.pool, w);
      BusyWorkerIsBlocked(fs, s, labels, w);
    }
  }

  lemma SeekingRest(s: Scan, t: Scan)
    requires |s.pool.ws| > 0 && |t.pool.ws| > 0 && Seeking(s) && Seeking(t)
    requires SeekRank(t.pool.ws[0]) <= SeekRank(s.pool.ws[0])
    requires SeekRank(t.pool.ws[0]) < SeekRank(s.pool.ws[0]) || HoldPart(t.pool) < HoldPart(s.pool)
    ensures Rest(t) < Rest(s)
  {
    HoldPartBound(t.pool);
  }

  lemma SeekingRound(fs: FileSystem, s: Scan, labels: seq<Label>)
    requires QuietPart(fs, s, labels) && Fair(fs, s, labels) && |s.pool.ws| > 0 && Unhindered(s) && Seeking(s)
    ensures |Final(fs, s, labels).pool.ws| > 0 && Rest(Final(fs, s, labels)) < Rest(s)
  {
    var t := Final(fs, s, labels);
    if s.stopped {
      HaltedIsNotSeeking(fs, s, labels);
    } else {
      QuietRunIsStill(fs, s, labels);
      SeekingStays(s, t);
      SeekerComesCloser(fs, s, labels);
      if !Acts(labels, Worker(0)) {
        assert Blocked(fs, s, labels, Worker(0));
        BlockedSeekerMeansHeld(fs, s, labels);
        HeldMutexComesCloser(fs, s, labels);
      }
      SeekingRest(s, t);
    }
  }

  // ----- There are no tasks any more -----

  lemma ClosingNotifierStep(fs: FileSystem, s: Scan)
    requires Good(fs, s) && Closing(s) && NotifierStep(s).Some?
    ensures ClosingRest(NotifierStep(s).value) < ClosingRest(s)
  {
    ClosingIsQuiescent(fs, s);
    NotifierLeavesRecorder(s);
    NotifierFrame(s);
    NotifierHeadsForEnd(s);
    RecorderRankBound(s);
  }

  lemma NotifierHeadsForEnd(s: Scan)
    requires NotifierStep(s).Some? && s.pool.sh.total == 0
    ensures NotifierRank(NotifierStep(s).value.notifier) < NotifierRank(s.notifier)
    ensures s.notifier.NotifierOver? ==> false
  {
  }

  lemma RecorderRankBound(s: Scan)
    ensures RecorderRank(s.recorder, s.infos != []) <= 18
  {
  }

  lemma ClosingRecorderStep(fs: FileSystem, s: Scan)
    requires Good(fs, s) && Closing(s) && RecorderStep(s).Some?
    ensures ClosingRest(RecorderStep(s).value) <= ClosingRest(s)
    ensures s.notifier.NotifierOver? ==> ClosingRest(RecorderStep(s).value) < ClosingRest(s)
  {
    RecorderFrame(s);
    if s.notifier.NotifierOver? {
      RecorderHeadsForExit(s);
    }
  }

  lemma ClosingMainStep(fs: FileSystem, s: Scan)
    requires Good(fs, s) && Closing(s) && !HasReturned(s) && MainStep(s).Some?
    ensures ClosingRest(MainStep(s).value) < ClosingRest(s)
  {
  }

  lemma ClosingWorkerStep(s: Scan, l: Label, t: Scan)
    requires Private(s, l, t) && (l.WorkerWork? || l.WorkerWake?)
    ensures ClosingRest(t) == ClosingRest(s)
  {
  }

  /** The step of a thread that the end waits for. */
  predicate Closes(s: Scan, l: Label) { l.NotifierWork? || l.MainWork? || (s.notifier.NotifierOver? && l.RecorderWork?) }

  lemma ClosingStep(fs: FileSystem, s: Scan, l: Label)
    requires Good(fs, s) && Closing(s) && !HasReturned(s) && Possible(fs, s, l) && Private(s, l, Step(fs, s, l).value)
    ensures ClosingRest(Step(fs, s, l).value) <= ClosingRest(s)
    ensures Closes(s, l) ==> ClosingRest(Step(fs, s, l).value) < ClosingRest(s)
    ensures s.notifier.NotifierOver? ==> Step(fs, s, l).value.notifier.NotifierOver?
  {
    match l
    case NotifierWork => ClosingNotifierStep(fs, s);
    case RecorderWork => ClosingRecorderStep(fs, s); RecorderFrame(s);
    case MainWork => ClosingMainStep(fs, s);
    case WorkerWork(w) => ClosingWorkerStep(s, l, Step(fs, s, l).value);
    case WorkerWake(w, timedOut) => ClosingWorkerStep(s, l, Step(fs, s, l).value);
    case _ =>
  }

  lemma {:induction false} ClosingComesCloser(fs: FileSystem, s: Scan, labels: seq<Label>, a: Agent)
    requires QuietPart(fs, s, labels) && Closing(s)
    requires a.Notifier? || a.Main? || (a.Recorder? && s.notifier.NotifierOver?)
    ensures ClosingRest(Final(fs, s, labels)) <= ClosingRest(s)
    ensures Acts(labels, a) ==> ClosingRest(Final(fs, s, labels)) < ClosingRest(s)
    decreases |labels|
  {
    QuietFirst(fs, s, labels);
    if labels != [] {
      var t := Step(fs, s, labels[0]).value;
      ClosingStays(s, t);
      ClosingStep(fs, s, labels[0]);
      ClosingComesCloser(fs, t, labels[1..], a);
      if Acts(labels, a) {
        FirstOrLater(labels, a);
      }
    }
  }

  /** The thread that the end waits for can step. */
  lemma SomebodyCloses(fs: FileSystem, s: Scan) returns (a: Agent)
    requires Good(fs, s) && Closing(s) && !HasReturned(s)
    ensures Enabled(fs, s, a) && (a.Notifier? || a.Main? || (a.Recorder? && s.notifier.NotifierOver?))
  {
    if !s.notifier.NotifierOver? {
      a := Notifier;
    } else if s.main.JoinNotifier? || s.recorder.RecorderOver? {
      a := Main;
    } else {
      a := Recorder;
      RecorderHeadsForExit(s);
    }
  }

  lemma ClosingRound(fs: FileSystem, s: Scan, labels: seq<Label>)
    requires QuietPart(fs, s, labels) && Fair(fs, s, labels) && |s.pool.ws| > 0 && Closing(s)
    ensures |Final(fs, s, labels).pool.ws| > 0 && Rest(Final(fs, s, labels)) < Rest(s)
  {
    QuietFirst(fs, s, labels);
    QuietRunIsStill(fs, s, labels);
    ClosingStays(s, Final(fs, s, labels));
    var a := SomebodyCloses(fs, s);
    assert !Blocked(fs, s, labels, a);
    ClosingComesCloser(fs, s, labels, a);
  }

  // ----- Rounds -----

  lemma {:induction false} RunDescends(tf: Tariff, s: Scan, labels: seq<Label>)
    requires Fixed(tf) && Good(tf.fs, s) && CanRun(tf.fs, s, labels) && OwnLabels(labels)
    ensures Good(tf.fs, Final(tf.fs, s, labels)) && WorkLeft(tf, Final(tf.fs, s, labels)) <= WorkLeft(tf, s)
    ensures !Quiet(tf.fs, s, labels) ==> WorkLeft(tf, Final(tf.fs, s, labels)) < WorkLeft(tf, s)
    decreases |labels|
  {
    if labels != [] {
      assert labels[0] in labels && forall l :: l in labels[1..] ==> l in labels;
      StepDescends(tf, s, labels[0]);
      StepKeepsGood(tf.fs, s, labels[0]);
      RunDescends(tf, Step(tf.fs, s, labels[0]).value, labels[1..]);
    }
  }

  lemma {:induction false} OwnRunKeeps(fs: FileSystem, s: Scan, labels: seq<Label>)
    requires Good(fs, s) && Unhindered(s) && CanRun(fs, s, labels) && OwnLabels(labels)
    ensures
      var t := Final(fs, s, labels);
      Good(fs, t) && Unhindered(t) && t.stopped == s.stopped && t.roots == s.roots && |t.pool.ws| == |s.pool.ws|
    decreases |labels|
  {
    if labels != [] {
      assert labels[0] in labels && forall l :: l in labels[1..] ==> l in labels;
      PossibleKeeps(fs, s, labels[0]);
      UnhinderedStays(fs, s, labels[0]);
      OwnRunKeeps(fs, Step(fs, s, labels[0]).value, labels[1..]);
    }
  }

  /** The scan is over, or there is less work left, or less waiting to be done for it. */
  ghost predicate Nearer(tf: Tariff, s: Scan, t: Scan)
    requires |s.pool.ws| == |s.jobs| && |t.pool.ws| == |t.jobs| && |s.pool.ws| > 0 && |t.pool.ws| > 0
  {
    HasReturned(t) || WorkLeft(tf, t) < WorkLeft(tf, s) || (WorkLeft(tf, t) <= WorkLeft(tf, s) && Rest(t) < Rest(s))
  }

  lemma QuietRound(fs: FileSystem, s: Scan, labels: seq<Label>)
    requires QuietPart(fs, s, labels) && Fair(fs, s, labels) && |s.pool.ws| > 0 && Unhindered(s)
    ensures |Final(fs, s, labels).pool.ws| > 0 && Rest(Final(fs, s, labels)) < Rest(s)
  {
    if Launches(s.main) || !NobodyWorks(s.pool) {
      BlockedTaskRound(fs, s, labels);
    } else if s.pool.sh.tasks != [] {
      SeekingRound(fs, s, labels);
    } else {
      ClosingRound(fs, s, labels);
    }
  }

  lemma RoundIsNearer(tf: Tariff, s: Scan, labels: seq<Label>)
    requires Fixed(tf) && Good(tf.fs, s) && Unhindered(s) && |s.pool.ws| > 0 && Round(tf.fs, s, labels)
    ensures
      var t := Final(tf.fs, s, labels);
      Good(tf.fs, t) && |t.pool.ws| > 0 && Nearer(tf, s, t)
  {
    var t := Final(tf.fs, s, labels);
    RunDescends(tf, s, labels);
    OwnRunKeeps(tf.fs, s, labels);
    if !HasReturned(t) && Quiet(tf.fs, s, labels) {
      QuietRound(tf.fs, s, labels);
    }
  }

  lemma {:induction false} ReturnedStays(fs: FileSystem, s: Scan, rounds: seq<seq<Label>>)
    requires Good(fs, s) && Unhindered(s) && HasReturned(s) && Rounds(fs, s, rounds)
    ensures
      var t := After(fs, s, rounds);
      Good(fs, t) && HasReturned(t) && t.stopped == s.stopped && t.roots == s.roots
    decreases |rounds|
  {
    if rounds != [] {
      OwnRunKeeps(fs, s, rounds[0]);
      RunKeepsReturned(fs, s, rounds[0]);
      ReturnedStays(fs, Final(fs, s, rounds[0]), rounds[1..]);
    }
  }

  lemma {:induction false} RoundsReturn(tf: Tariff, s: Scan, rounds: seq<seq<Label>>)
    requires Fixed(tf) && Good(tf.fs, s) && Unhindered(s) && |s.pool.ws| > 0 && Rounds(tf.fs, s, rounds)
    requires |rounds| > 300 * WorkLeft(tf, s) + Rest(s)
    ensures
      var t := After(tf.fs, s, rounds);
      Good(tf.fs, t) && HasReturned(t) && t.stopped == s.stopped && t.roots == s.roots
    decreases |rounds|
  {
    var t := Final(tf.fs, s, rounds[0]);
    RoundIsNearer(tf, s, rounds[0]);
    OwnRunKeeps(tf.fs, s, rounds[0]);
    if HasReturned(t) {
      ReturnedStays(tf.fs, t, rounds[1..]);
    } else {
      RestBound(t);
      RoundsReturn(tf, t, rounds[1..]);
    }
  }

  /**
   Every fair scan ends.  From any state that a run without a stop() from outside has reached, however the
   scan's own threads go on, after at most 300 rounds for each unit of work left wait() has returned, and
   the recorder has drained exactly the records of the sequential walk.
   */
  lemma FairScanReturns(fs: FileSystem, threads: nat, labels: seq<Label>, rounds: seq<seq<Label>>)
    requires threads > 0 && CanRun(fs, Init(threads), labels) && !Final(fs, Init(threads), labels).stopped
    requires Rounds(fs, Final(fs, Init(threads), labels), rounds)
    requires
      var s := Final(fs, Init(threads), labels);
      |s.pool.ws| == |s.jobs| && |rounds| >= 300 * (WorkLeft(TariffOf(fs), s) + 1)
    ensures
      var s := Final(fs, Init(threads), labels);
      var t := After(fs, s, rounds);
      HasReturned(t) && multiset(t.drained) == WalkAll(fs, s.roots).records && t.infos == [] && t.local == []
  {
    var s := Final(fs, Init(threads), labels);
    InitGood(fs, threads);
    RunKeepsGood(fs, Init(threads), labels);
    RunKeepsWorkers(fs, Init(threads), labels);
    RestBound(s);
    RoundsReturn(TariffOf(fs), s, rounds);
    var t := After(fs, s, rounds);
    WaitedMeansQuiescent(fs, t);
    QuiescentIsComplete(fs, t);
  }

  /** So does every fair scan whose stop() leaves nothing behind in the queue. */
  lemma FairStoppedScanReturns(fs: FileSystem, threads: nat, labels: seq<Label>, rounds: seq<seq<Label>>)
    requires threads > 0 && CanRun(fs, Init(threads), labels)
    requires
      var s := Final(fs, Init(threads), labels);
      s.stopped && s.user.UserIdle? && !s.running && LeftBehind(s) == 0
    requires Rounds(fs, Final(fs, Init(threads), labels), rounds)
    requires
      var s := Final(fs, Init(threads), labels);
      |s.pool.ws| == |s.jobs| && |rounds| >= 300 * (WorkLeft(TariffOf(fs), s) + 1)
    ensures HasReturned(After(fs, Final(fs, Init(threads), labels), rounds))
  {
    var s := Final(fs, Init(threads), labels);
    InitGood(fs, threads);
    RunKeepsGood(fs, Init(threads), labels);
    RunKeepsWorkers(fs, Init(threads), labels);
    RunKeepsStopPauses(fs, Init(threads), labels);
    RestBound(s);
    RoundsReturn(TariffOf(fs), s, rounds);
  }
}
