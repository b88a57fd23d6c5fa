/** From every reachable state the scan can be completed: wait() can return, and then the scan object can be destroyed. */
module ScanCompletion {
  import opened FileTree
  import opened ScanMachine
  import opened ScanInvariant
  import opened ScanPhases
  import opened ScanMeasure
  import opened ScanDescent
  import opened ScanTheorems
  import opened ScanProgress
  import opened ScanHalt
  import opened PoolRanks
  import P = PoolMachine
  import I = PoolInvariant

  /** wait() has returned. */
  predicate HasReturned(s: Scan) { s.main.Waited? || s.main.Destroying? }

  /** No statement of a worker is one of the controlling thread. */
  lemma MainIsElsewhere(fs: FileSystem, s: Scan, w: nat)
    requires WorkerStep(fs, s, w).Some?
    ensures WorkerStep(fs, s, w).value.main == s.main
  {
    if s.pool.ws[w].Busy? {
      JobLeavesMain(fs, s, w);
    }
  }

  lemma JobLeavesMain(fs: FileSystem, s: Scan, w: nat)
    requires w < |s.jobs| && JobStep(fs, s, w).Some?
    ensures JobStep(fs, s, w).value.main == s.main
  {
    if s.jobs[w].Reads() {
      ReadFrame(fs, s, w);
    } else if s.jobs[w].Spreads() {
      SpreadFrame(s, w);
    } else if s.jobs[w].Records() {
      RecordFrame(fs, s, w);
    }
  }

  // ----- Popping a task -----

  /** With tasks queued, the pool running and not paused, an idle worker's statement brings it closer to a pop. */
  lemma SeekStep(p: P.Pool<string>, w: nat)
    requires w < |p.ws| && p.sh.running && !p.sh.paused && p.sh.tasks != [] && P.WorkerStep(p, w).Some?
    requires !p.ws[w].InFlight() && !p.ws[w].NotifyTest? && !p.ws[w].Take? && p.ws[w] != P.Leaving(true)
    ensures
      var q := P.WorkerStep(p, w).value;
      && |q.ws| == |p.ws| && (forall v :: 0 <= v < |p.ws| && v != w ==> q.ws[v] == p.ws[v])
      && SeekRank(q.ws[w]) < SeekRank(p.ws[w]) && !q.ws[w].InFlight() && !q.ws[w].NotifyTest?
      && q.sh == p.sh
  {
  }

  lemma SeekStepAdvances(tf: Tariff, s: Scan)
    requires Fixed(tf) && Structure(tf.fs, s) && I.Flags(s.pool) && |s.pool.ws| > 0 && Seeking(s) && !s.main.Destroying?
    requires s.pool.sh.running && !s.pool.sh.paused && !s.pool.ws[0].Asleep?
    requires s.pool.ws[0].Locking? || s.pool.ws[0].Waking? ==> s.pool.lock.Free?
    ensures Possible(tf.fs, s, WorkerWork(0)) && Advances(tf, s, WorkerWork(0))
  {
    assert !s.pool.ws[0].InFlight() && !s.pool.ws[0].Exited?;
    if AtWork(s.pool, 0) {
      ProductiveAdvances(tf, s, WorkerWork(0));
    } else {
      SeekStep(s.pool, 0);
      var t := Step(tf.fs, s, WorkerWork(0)).value;
      StepDescends(tf, s, WorkerWork(0));
      assert t == s.(pool := P.WorkerStep(s.pool, 0).value);
      assert Seeking(t);
    }
  }

  lemma WakeAdvances(tf: Tariff, s: Scan)
    requires Fixed(tf) && Structure(tf.fs, s) && |s.pool.ws| > 0 && Seeking(s) && s.pool.ws[0].Asleep?
    ensures Possible(tf.fs, s, WorkerWake(0, true)) && Advances(tf, s, WorkerWake(0, true))
  {
    var t := Step(tf.fs, s, WorkerWake(0, true)).value;
    StepDescends(tf, s, WorkerWake(0, true));
    assert Seeking(t);
  }

  lemma SeekingAdvances(tf: Tariff, s: Scan) returns (l: Label)
    requires Fixed(tf) && I.Inv(s.pool) && Structure(tf.fs, s) && Phases(s) && !s.stopped
    requires |s.pool.ws| > 0 && Seeking(s) && !s.main.Destroying?
    ensures Possible(tf.fs, s, l) && Advances(tf, s, l)
  {
    if s.pool.ws[0].Asleep? {
      l := WorkerWake(0, true);
      WakeAdvances(tf, s);
    } else if (s.pool.ws[0].Locking? || s.pool.ws[0].Waking?) && !s.pool.lock.Free? {
      l := HolderAdvances(tf, s);
    } else {
      l := WorkerWork(0);
      SeekStepAdvances(tf, s);
    }
  }

  // ----- Winding up -----

  lemma ClosingIsQuiescent(fs: FileSystem, s: Scan)
    requires I.Conserved(s.pool) && Closing(s)
    ensures Quiescent(s) && s.pool.sh.total == 0
  {
    I.InFlightZero(s.pool.ws);
  }

  lemma NotifierAdvances(tf: Tariff, s: Scan)
    requires Fixed(tf) && I.Conserved(s.pool) && Structure(tf.fs, s) && |s.pool.ws| > 0 && Closing(s) && !s.notifier.NotifierOver?
    ensures Possible(tf.fs, s, NotifierWork) && Advances(tf, s, NotifierWork)
  {
    ClosingIsQuiescent(tf.fs, s);
    var t := NotifierStep(s).value;
    StepDescends(tf, s, NotifierWork);
    NotifierFrame(s);
    assert Closing(t);
  }

  /** With file_info_mutex_ free of workers and running_ clear, the recorder heads for its exit. */
  lemma RecorderHeadsForExit(s: Scan)
    requires Recording(s) && !s.running && !s.recorder.RecorderOff? && !s.recorder.RecorderOver?
    requires s.recorder.RecLocking? ==> s.infoLock.InfoFree?
    ensures RecorderStep(s).Some?
    ensures RecorderRank(RecorderStep(s).value.recorder, RecorderStep(s).value.infos != []) < RecorderRank(s.recorder, s.infos != [])
  {
  }

  lemma RecorderAdvances(tf: Tariff, s: Scan)
    requires Fixed(tf) && Structure(tf.fs, s) && Detected(s) && |s.pool.ws| > 0 && Closing(s)
    requires s.notifier.NotifierOver? && !s.recorder.RecorderOver?
    ensures Possible(tf.fs, s, RecorderWork) && Advances(tf, s, RecorderWork)
  {
    RecorderHeadsForExit(s);
    var t := RecorderStep(s).value;
    StepDescends(tf, s, RecorderWork);
    RecorderFrame(s);
    assert Closing(t);
  }

  lemma JoinAdvances(tf: Tariff, s: Scan)
    requires Fixed(tf) && Structure(tf.fs, s) && |s.pool.ws| > 0 && Closing(s) && s.notifier.NotifierOver?
    requires s.main.JoinNotifier? || (s.main.JoinRecorder? && s.recorder.RecorderOver?)
    ensures Possible(tf.fs, s, MainWork) && Advances(tf, s, MainWork)
  {
    var t := MainStep(s).value;
    StepDescends(tf, s, MainWork);
    assert Closing(t);
  }

  lemma ClosingAdvances(tf: Tariff, s: Scan) returns (l: Label)
    requires Fixed(tf) && I.Inv(s.pool) && Structure(tf.fs, s) && Phases(s) && |s.pool.ws| > 0 && Closing(s)
    requires !s.main.Waited? && !s.main.Destroying?
    ensures Possible(tf.fs, s, l) && Advances(tf, s, l)
  {
    if !s.notifier.NotifierOver? {
      l := NotifierWork;
      NotifierAdvances(tf, s);
    } else if s.main.JoinNotifier? || s.recorder.RecorderOver? {
      l := MainWork;
      JoinAdvances(tf, s);
    } else {
      l := RecorderWork;
      RecorderAdvances(tf, s);
    }
  }

  /** Nobody has called stop(), or the stop leaves nothing behind. */
  ghost predicate Unhindered(s: Scan) { !s.stopped || Halted(s) }

  /** The last task of a halted scan is just being popped. */
  lemma HaltedTaskIsPopped(tf: Tariff, s: Scan) returns (l: Label)
    requires Fixed(tf) && Structure(tf.fs, s) && Halted(s) && s.pool.sh.tasks != []
    ensures |s.pool.ws| > 0 && Possible(tf.fs, s, l) && Advances(tf, s, l)
  {
    l := WorkerWork(s.pool.lock.worker);
    ProductiveAdvances(tf, s, l);
  }

  /** The scan is never stuck before wait() returns: some thread can take a step that brings the end closer. */
  lemma SomeStepAdvances(tf: Tariff, s: Scan) returns (l: Label)
    requires Fixed(tf) && Good(tf.fs, s) && Unhindered(s) && |s.pool.ws| > 0 && !s.main.Waited? && !s.main.Destroying?
    ensures Possible(tf.fs, s, l) && Advances(tf, s, l)
  {
    if Launches(s.main) {
      l := LaunchAdvances(tf, s);
    } else if !NobodyWorks(s.pool) {
      l := WorkingAdvances(tf, s);
    } else if s.pool.sh.tasks != [] {
      if s.stopped {
        l := HaltedTaskIsPopped(tf, s);
      } else {
        l := SeekingAdvances(tf, s);
      }
    } else {
      l := ClosingAdvances(tf, s);
    }
  }

  /** The scan's own steps leave the roots, the number of workers and the user alone. */
  lemma PossibleKeeps(fs: FileSystem, s: Scan, l: Label)
    requires Good(fs, s) && Possible(fs, s, l)
    ensures Good(fs, Step(fs, s, l).value)
    ensures Step(fs, s, l).value.stopped == s.stopped && Step(fs, s, l).value.roots == s.roots
    ensures |Step(fs, s, l).value.pool.ws| == |s.pool.ws|
  {
    StepKeepsGood(fs, s, l);
    StepKeepsStopped(fs, s, l);
    SameSize(fs, s, l);
    OwnStepKeepsStopped(fs, s, l);
  }

  lemma OwnStepKeepsStopped(fs: FileSystem, s: Scan, l: Label)
    requires Structure(fs, s) && Possible(fs, s, l)
    ensures Step(fs, s, l).value.stopped == s.stopped
  {
    match l
    case WorkerWork(w) =>
      if s.pool.ws[w].Busy? { JobKeepsFlags(fs, s, w); } else { LoopKeepsControl(fs, s, w); }
    case _ =>
  }

  lemma UnhinderedStays(fs: FileSystem, s: Scan, l: Label)
    requires Good(fs, s) && Unhindered(s) && Possible(fs, s, l)
    ensures Unhindered(Step(fs, s, l).value)
  {
    if s.stopped {
      StepKeepsHalted(fs, s, l);
    } else {
      OwnStepKeepsStopped(fs, s, l);
    }
  }

  ghost predicate OwnLabels(labels: seq<Label>) {
    forall l :: l in labels ==> !l.AddPath? && !l.UserStop?
  }

  lemma {:induction false} WaitCanReturn(tf: Tariff, s: Scan) returns (labels: seq<Label>)
    requires Fixed(tf) && Good(tf.fs, s) && Unhindered(s) && |s.pool.ws| > 0
    ensures CanRun(tf.fs, s, labels) && OwnLabels(labels)
    ensures
      var t := Final(tf.fs, s, labels);
      Good(tf.fs, t) && t.stopped == s.stopped && t.roots == s.roots && |t.pool.ws| == |s.pool.ws| && (t.main.Waited? || t.main.Destroying?)
    decreases WorkLeft(tf, s), Distance(s), Holding(s)
  {
    if s.main.Waited? || s.main.Destroying? {
      labels := [];
    } else {
      var l := SomeStepAdvances(tf, s);
      PossibleKeeps(tf.fs, s, l);
      UnhinderedStays(tf.fs, s, l);
      var rest := WaitCanReturn(tf, Step(tf.fs, s, l).value);
      labels := [l] + rest;
      assert labels[1..] == rest;
    }
  }

  /** Runs compose. */
  lemma {:induction false} RunAppend(fs: FileSystem, s: Scan, first: seq<Label>, rest: seq<Label>)
    requires CanRun(fs, s, first) && CanRun(fs, Final(fs, s, first), rest)
    ensures CanRun(fs, s, first + rest) && Final(fs, s, first + rest) == Final(fs, Final(fs, s, first), rest)
    decreases |first|
  {
    if first == [] {
      assert first + rest == rest;
    } else {
      RunAppend(fs, Step(fs, s, first[0]).value, first[1..], rest);
      assert (first + rest)[1..] == first[1..] + rest;
    }
  }

  lemma {:induction false} RunKeepsWorkers(fs: FileSystem, s: Scan, labels: seq<Label>)
    requires Good(fs, s) && CanRun(fs, s, labels)
    ensures |Final(fs, s, labels).pool.ws| == |s.pool.ws|
    decreases |labels|
  {
    if labels != [] {
      StepKeepsGood(fs, s, labels[0]);
      SameSize(fs, s, labels[0]);
      RunKeepsWorkers(fs, Step(fs, s, labels[0]).value, labels[1..]);
    }
  }
}
