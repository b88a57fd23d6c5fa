/** When wait() returns after a stop() from outside, and a run in which it never does. */
module ScanStop {
  import opened Wrappers
  import opened FileTree
  import opened ScanMachine
  import opened ScanInvariant
  import opened ScanPhases
  import opened ScanRefinesPool
  import opened ScanMeasure
  import opened ScanTheorems
  import opened ScanHalt
  import opened ScanCompletion
  import P = PoolMachine
  import I = PoolInvariant
  import T = PoolTheorems
  import V = PoolWaiting

  // ----- stop() pauses the pool -----

  /** A stop() that has returned has paused the pool, and nothing unpauses it. */
  predicate StopPauses(s: Scan) { s.stopped && s.user.UserIdle? ==> s.pool.sh.paused }

  /** Apart from the call itself, no step changes what the user does or unpauses the pool. */
  lemma StepKeepsPause(fs: FileSystem, s: Scan, l: Label)
    requires Step(fs, s, l).Some? && s.pool.sh.paused
    ensures Step(fs, s, l).value.pool.sh.paused
  {
    StepRefines(fs, s, l);
    if PoolLabel(s, l).Some? {
      NeverUnpauses(s, l);
      V.StepKeepsPaused(s.pool, PoolLabel(s, l).value);
    }
  }

  lemma WorkerKeepsUser(fs: FileSystem, s: Scan, w: nat)
    requires WorkerStep(fs, s, w).Some?
    ensures WorkerStep(fs, s, w).value.user == s.user && WorkerStep(fs, s, w).value.stopped == s.stopped
  {
    if s.pool.ws[w].Busy? {
      JobKeepsUser(fs, s, w);
    } else {
      LoopKeepsControl(fs, s, w);
    }
  }

  lemma JobKeepsUser(fs: FileSystem, s: Scan, w: nat)
    requires w < |s.jobs| && JobStep(fs, s, w).Some?
    ensures JobStep(fs, s, w).value.user == s.user && JobStep(fs, s, w).value.stopped == s.stopped
  {
    if s.jobs[w].Reads() {
      ReadKeepsControl(fs, s, w);
    } else if s.jobs[w].Spreads() {
      SpreadKeepsControl(s, w);
    } else if s.jobs[w].Records() {
      RecordKeepsControl(fs, s, w);
    }
  }

  lemma StepKeepsStopPauses(fs: FileSystem, s: Scan, l: Label)
    requires StopPauses(s) && Step(fs, s, l).Some?
    ensures StopPauses(Step(fs, s, l).value)
  {
    if s.pool.sh.paused {
      StepKeepsPause(fs, s, l);
    }
    if l.WorkerWork? {
      WorkerKeepsUser(fs, s, l.w);
    }
  }

  lemma {:induction false} RunKeepsStopPauses(fs: FileSystem, s: Scan, labels: seq<Label>)
    requires StopPauses(s) && CanRun(fs, s, labels)
    ensures StopPauses(Final(fs, s, labels))
    decreases |labels|
  {
    if labels != [] {
      StepKeepsStopPauses(fs, s, labels[0]);
      RunKeepsStopPauses(fs, Step(fs, s, labels[0]).value, labels[1..]);
    }
  }

  // ----- wait() after stop() -----

  /** In some continuation wait() returns. */
  ghost predicate CanReturn(fs: FileSystem, s: Scan) {
    exists later :: CanRun(fs, s, later) && HasReturned(Final(fs, s, later))
  }

  /** In some continuation wait() returns although nobody calls the scan any more. */
  ghost predicate ReturnsUnaided(fs: FileSystem, s: Scan) {
    exists later :: CanRun(fs, s, later) && OwnLabels(later) && HasReturned(Final(fs, s, later))
  }

  lemma ReturnedIsQuiescent(fs: FileSystem, s: Scan)
    requires Good(fs, s) && HasReturned(s)
    ensures LeftBehind(s) == 0
  {
    QuiescentLeavesNothing(s);
  }

  /** A task that will be left behind keeps wait() from ever returning. */
  lemma LeftoverHangsWait(fs: FileSystem, s: Scan, later: seq<Label>)
    requires Good(fs, s) && s.pool.sh.paused && LeftBehind(s) > 0 && CanRun(fs, s, later)
    ensures !HasReturned(Final(fs, s, later))
  {
    RunKeepsGood(fs, s, later);
    RunLeavesBehind(fs, s, later);
    if HasReturned(Final(fs, s, later)) {
      ReturnedIsQuiescent(fs, Final(fs, s, later));
    }
  }

  lemma HaltedWaitReturns(fs: FileSystem, s: Scan)
    requires Good(fs, s) && Halted(s) && |s.pool.ws| > 0
    ensures ReturnsUnaided(fs, s)
  {
    var later := WaitCanReturn(TariffOf(fs), s);
    assert HasReturned(Final(fs, s, later));
  }

  /** The first statement of a second stop(). */
  lemma StopClearsRunning(fs: FileSystem, s: Scan)
    requires s.user.UserIdle?
    ensures Step(fs, s, UserStop) == Some(s.(user := UserPausing, running := false, stopped := true))
  {
  }

  lemma ClearedIsHalted(s: Scan)
    requires s.pool.sh.paused && LeftBehind(s) == 0
    ensures Halted(s.(user := UserPausing, running := false, stopped := true))
  {
  }

  /** A second stop() clears running_, and changes neither the queue nor what is still to be pushed. */
  lemma StopAgain(fs: FileSystem, s: Scan) returns (t: Scan)
    requires Good(fs, s) && s.pool.sh.paused && s.user.UserIdle? && LeftBehind(s) == 0
    ensures Step(fs, s, UserStop) == Some(t) && Good(fs, t) && Halted(t) && t.pool == s.pool
  {
    t := s.(user := UserPausing, running := false, stopped := true);
    StopClearsRunning(fs, s);
    StepKeepsGood(fs, s, UserStop);
    ClearedIsHalted(s);
  }

  lemma NothingLeftLetsWaitReturn(fs: FileSystem, s: Scan)
    requires Good(fs, s) && s.pool.sh.paused && s.user.UserIdle? && LeftBehind(s) == 0 && |s.pool.ws| > 0
    ensures CanReturn(fs, s)
  {
    var t := StopAgain(fs, s);
    HaltedWaitReturns(fs, t);
    var later :| CanRun(fs, t, later) && OwnLabels(later) && HasReturned(Final(fs, t, later));
    Prepend(fs, s, UserStop, later);
    assert HasReturned(Final(fs, s, [UserStop] + later));
  }

  lemma Prepend(fs: FileSystem, s: Scan, l: Label, later: seq<Label>)
    requires Step(fs, s, l).Some? && CanRun(fs, Step(fs, s, l).value, later)
    ensures CanRun(fs, s, [l] + later) && Final(fs, s, [l] + later) == Final(fs, Step(fs, s, l).value, later)
  {
    assert ([l] + later)[1..] == later;
  }

  lemma NeverReturns(fs: FileSystem, s: Scan)
    requires Good(fs, s) && s.pool.sh.paused && LeftBehind(s) > 0
    ensures !CanReturn(fs, s)
  {
    forall later | CanRun(fs, s, later)
      ensures !HasReturned(Final(fs, s, later))
    {
      LeftoverHangsWait(fs, s, later);
    }
  }

  /**
   wait() after a stop() from outside.  At any moment after stop() has returned, wait() can still return
   if and only if no task will be left behind in the queue, counting the tasks queued and not just being
   popped, the subdirectories that the tasks in flight have read and not pushed, and the roots that
   launch() has not pushed.  If running_ is still clear, it then returns without anyone's help.
   */
  lemma StopLetsWaitReturnIff(fs: FileSystem, threads: nat, labels: seq<Label>)
    requires threads > 0 && CanRun(fs, Init(threads), labels)
    requires Final(fs, Init(threads), labels).stopped && Final(fs, Init(threads), labels).user.UserIdle?
    ensures
      var s := Final(fs, Init(threads), labels);
      && (CanReturn(fs, s) <==> LeftBehind(s) == 0)
      && (!s.running ==> (ReturnsUnaided(fs, s) <==> LeftBehind(s) == 0))
  {
    var s := Final(fs, Init(threads), labels);
    InitGood(fs, threads);
    RunKeepsGood(fs, Init(threads), labels);
    RunKeepsStopPauses(fs, Init(threads), labels);
    RunKeepsWorkers(fs, Init(threads), labels);
    if LeftBehind(s) > 0 {
      NeverReturns(fs, s);
    } else {
      NothingLeftLetsWaitReturn(fs, s);
      if !s.running {
        HaltedWaitReturns(fs, s);
      }
    }
  }

  /** stop() has taken effect: no worker has a task, and none is about to pop one. */
  ghost predicate Stopped(s: Scan) {
    s.main.PastLaunch() && s.pool.sh.paused && I.InFlight(s.pool.ws) == 0 && !T.Committed(s.pool)
  }

  /** Once the stop has taken effect, what is left behind is the queue. */
  lemma StoppedLeavesQueue(fs: FileSystem, s: Scan)
    requires Structure(fs, s) && Stopped(s)
    ensures LeftBehind(s) == |s.pool.sh.tasks|
  {
    QuiescentNobodyWorks(s.pool.ws);
    assert forall w :: 0 <= w < |s.jobs| ==> s.jobs[w].NoJob?;
    JobsLeftZero(s.jobs);
  }

  /**
   The number of tasks left behind is decided when stop() returns: in every run of the scan's own threads
   from there until the stop has taken effect, that many tasks stay in the queue.
   */
  lemma StopDecidesTheQueue(fs: FileSystem, threads: nat, labels: seq<Label>, later: seq<Label>)
    requires CanRun(fs, Init(threads), labels)
    requires
      var s := Final(fs, Init(threads), labels);
      s.stopped && s.user.UserIdle? && !s.running && !s.main.Setup?
    requires CanRun(fs, Final(fs, Init(threads), labels), later) && OwnLabels(later)
    requires Stopped(Final(fs, Final(fs, Init(threads), labels), later))
    ensures
      var s := Final(fs, Init(threads), labels);
      |Final(fs, s, later).pool.sh.tasks| == LeftBehind(s)
  {
    var s := Final(fs, Init(threads), labels);
    InitGood(fs, threads);
    RunKeepsGood(fs, Init(threads), labels);
    RunKeepsStopPauses(fs, Init(threads), labels);
    RunDecided(fs, s, later);
    RunKeepsGood(fs, s, later);
    StoppedLeavesQueue(fs, Final(fs, s, later));
  }

  lemma {:induction false} RunDecided(fs: FileSystem, s: Scan, later: seq<Label>)
    requires Good(fs, s) && s.pool.sh.paused && !s.running && !s.main.Setup? && CanRun(fs, s, later) && OwnLabels(later)
    ensures LeftBehind(Final(fs, s, later)) == LeftBehind(s)
    decreases |later|
  {
    if later != [] {
      var t := Step(fs, s, later[0]).value;
      assert later[0] in later && forall l :: l in later[1..] ==> l in later;
      StepLeavesBehind(fs, s, later[0]);
      StepKeepsGood(fs, s, later[0]);
      if t.running {
        RunningStaysClear(fs, s, later[0]);
      }
      SetupIsOver(fs, s, later[0]);
      RunDecided(fs, t, later[1..]);
    }
  }

  lemma SetupIsOver(fs: FileSystem, s: Scan, l: Label)
    requires !s.main.Setup? && Step(fs, s, l).Some?
    ensures !Step(fs, s, l).value.main.Setup?
  {
    if l.WorkerWork? {
      MainIsElsewhere(fs, s, l.w);
    }
  }

  /** Once the stop has taken effect wait() can return if and only if the queue is empty. */
  lemma StoppedWaitReturnsIff(fs: FileSystem, threads: nat, labels: seq<Label>)
    requires threads > 0 && CanRun(fs, Init(threads), labels) && Stopped(Final(fs, Init(threads), labels))
    ensures CanReturn(fs, Final(fs, Init(threads), labels)) <==> Final(fs, Init(threads), labels).pool.sh.tasks == []
  {
    var s := Final(fs, Init(threads), labels);
    InitGood(fs, threads);
    RunKeepsGood(fs, Init(threads), labels);
    RunKeepsWorkers(fs, Init(threads), labels);
    StoppedLeavesQueue(fs, s);
    if s.pool.sh.tasks == [] {
      QuiescentNobodyWorks(s.pool.ws);
      HaltedWaitReturns(fs, s);
      assert CanReturn(fs, s);
    } else {
      NeverReturns(fs, s);
    }
  }

  // ----- A scan that is stopped too early -----

  /** One worker that has not run yet, and the root "/" on its way into the queue. */
  function Young(main: MainPc, lock: P.Lock, tasks: seq<string>, total: int, paused: bool): Scan {
    Scan(P.Pool(P.Shared(true, false, paused, tasks, total), lock, [P.LoopTest], P.Outside, tasks, [], []), [NoJob],
         true, ["/"], None, InfoFree, [], [], 1, main, NotifierOff, RecorderOff, UserIdle, [], [], multiset{}, 0, false)
  }

  /** One more step at the beginning of a run. */
  lemma RunTo(fs: FileSystem, s: Scan, l: Label, next: Scan, later: seq<Label>, last: Scan)
    requires Step(fs, s, l) == Some(next) && CanRun(fs, next, later) && Final(fs, next, later) == last
    ensures CanRun(fs, s, [l] + later) && Final(fs, s, [l] + later) == last
  {
    Prepend(fs, s, l, later);
  }

  /** The statements of launch() that push the root, and where each of them leads. */
  function Stage(i: nat): Scan {
    match i
    case 0 => Young(Launching(Locking, 0), P.Free, [], 0, false)
    case 1 => Young(Launching(Entered, 0), P.ByPusher(1, P.Entered), [], 0, false)
    case 2 => Young(Launching(Queued, 0), P.ByPusher(1, P.Queued), ["/"], 0, false)
    case 3 => Young(Launching(Tallied, 0), P.ByPusher(1, P.Tallied), ["/"], 1, false)
    case 4 => Young(Launching(Notifying, 0), P.Free, ["/"], 1, false)
    case _ => Young(StartRecorder, P.Free, ["/"], 1, false)
  }

  lemma LockStage(fs: FileSystem, i: nat)
    requires i == 0 || i == 3
    ensures Step(fs, Stage(i), MainWork) == Some(Stage(i + 1))
  {
  }

  lemma QueueStage(fs: FileSystem)
    ensures Step(fs, Stage(1), MainWork) == Some(Stage(2))
  {
    assert [] + ["/"] == ["/"];
  }

  lemma CountStage(fs: FileSystem, i: nat)
    requires i == 2 || i == 4
    ensures Step(fs, Stage(i), MainWork) == Some(Stage(i + 1))
  {
  }

  function Times(n: nat): seq<Label> { if n == 0 then [] else [MainWork] + Times(n - 1) }

  lemma NextStage(fs: FileSystem, i: nat)
    requires i < 5
    ensures Step(fs, Stage(i), MainWork) == Some(Stage(i + 1))
  {
    if i == 1 {
      QueueStage(fs);
    } else if i == 0 || i == 3 {
      LockStage(fs, i);
    } else {
      CountStage(fs, i);
    }
  }

  /** launch() pushes the root. */
  lemma {:induction false} RootIsPushed(fs: FileSystem, i: nat)
    requires i <= 5
    ensures CanRun(fs, Stage(i), Times(5 - i)) && Final(fs, Stage(i), Times(5 - i)) == Stage(5)
    decreases 5 - i
  {
    if i < 5 {
      NextStage(fs, i);
      RootIsPushed(fs, i + 1);
      RunTo(fs, Stage(i), MainWork, Stage(i + 1), Times(4 - i), Stage(5));
    }
  }

  /** The path is added and launch() begins. */
  lemma LaunchBegins(fs: FileSystem)
    ensures CanRun(fs, Init(1), [AddPath("/"), MainWork, MainWork])
    ensures
      Final(fs, Init(1), [AddPath("/"), MainWork, MainWork]) == Stage(0)
  {
    assert P.Init<string>(1).ws == [P.LoopTest] && Init(1).jobs == [NoJob];
    assert [] + ["/"] == ["/"];
    var s1 := Init(1).(roots := ["/"]);
    var s2 := s1.(main := StoreCount, running := true);
    var s3 := Stage(0);
    RunTo(fs, s2, MainWork, s3, [], s3);
    RunTo(fs, s1, MainWork, s2, [MainWork], s3);
    RunTo(fs, Init(1), AddPath("/"), s1, [MainWork, MainWork], s3);
  }

  /** stop() is called before the worker has popped the root. */
  lemma StopComesFirst(fs: FileSystem)
    ensures CanRun(fs, Stage(5), [UserStop, UserStop])
    ensures
      Final(fs, Stage(5), [UserStop, UserStop])
      == Young(StartRecorder, P.Free, ["/"], 1, true).(running := false, stopped := true)
  {
    var s := Stage(5);
    var s1 := s.(running := false, stopped := true, user := UserPausing);
    var s2 := Young(StartRecorder, P.Free, ["/"], 1, true).(running := false, stopped := true);
    RunTo(fs, s1, UserStop, s2, [], s2);
    RunTo(fs, s, UserStop, s1, [UserStop], s2);
  }

  /**
   A concrete run after which wait() never returns, on any file system: the root is pushed, and stop()
   comes before a worker has popped it.
   */
  lemma StopCanHangWait(fs: FileSystem) returns (labels: seq<Label>)
    ensures CanRun(fs, Init(1), labels)
    ensures
      var s := Final(fs, Init(1), labels);
      && s.stopped && s.user.UserIdle? && !s.running && Stopped(s) && s.pool.sh.tasks == ["/"]
      && LeftBehind(s) == 1 && !CanReturn(fs, s)
  {
    LaunchBegins(fs);
    RootIsPushed(fs, 0);
    StopComesFirst(fs);
    labels := [AddPath("/"), MainWork, MainWork] + Times(5);
    RunAppend(fs, Init(1), [AddPath("/"), MainWork, MainWork], Times(5));
    RunAppend(fs, Init(1), labels, [UserStop, UserStop]);
    labels := labels + [UserStop, UserStop];
    HungStop(fs, labels);
  }

  lemma HungStop(fs: FileSystem, labels: seq<Label>)
    requires CanRun(fs, Init(1), labels)
    requires Final(fs, Init(1), labels) == Young(StartRecorder, P.Free, ["/"], 1, true).(running := false, stopped := true)
    ensures
      var s := Final(fs, Init(1), labels);
      Stopped(s) && LeftBehind(s) == 1 && !CanReturn(fs, s)
  {
    var s := Final(fs, Init(1), labels);
    InitGood(fs, 1);
    RunKeepsGood(fs, Init(1), labels);
    I.InFlightZero(s.pool.ws);
    StoppedLeavesQueue(fs, s);
    NeverReturns(fs, s);
  }
}
