/**
 What stop() ends at once.  From the moment it clears running_ no task is begun and no further entry is read;
 which directories are still opened and how much is still counted is then decided.
 */
module ScanOpenings {
  import opened FileTree
  import opened Listings
  import opened ScanMachine
  import opened ScanInvariant
  import opened ScanPhases
  import opened ScanTheorems
  import opened ScanHalt
  import opened ScanStop
  import I = PoolInvariant

  // ----- What the tasks in flight are committed to -----

  /** The task has tested running_ and is about to open d. */
  ghost function Opening(job: Job, d: string): nat {
    if job.Validate? && job.path == d && !Skipped(d) then 1 else 0
  }

  /** The entries that the task has read and not counted. */
  function Uncounted(job: Job): nat {
    match job
    case Reading(_, _, out) => out.Size()
    case Counting(out) => out.Size()
    case _ => 0
  }

  ghost function Openings(jobs: seq<Job>, d: string): nat {
    if jobs == [] then 0 else Openings(jobs[..|jobs| - 1], d) + Opening(jobs[|jobs| - 1], d)
  }

  function AllUncounted(jobs: seq<Job>): nat {
    if jobs == [] then 0 else AllUncounted(jobs[..|jobs| - 1]) + Uncounted(jobs[|jobs| - 1])
  }

  lemma {:induction false} JobUpdate(jobs: seq<Job>, w: nat, job: Job, d: string)
    requires w < |jobs|
    ensures Openings(jobs[w := job], d) + Opening(jobs[w], d) == Openings(jobs, d) + Opening(job, d)
    ensures AllUncounted(jobs[w := job]) + Uncounted(jobs[w]) == AllUncounted(jobs) + Uncounted(job)
  {
    var last := |jobs| - 1;
    if w == last {
      assert jobs[w := job][..last] == jobs[..last];
    } else {
      assert jobs[w := job][..last] == jobs[..last][w := job];
      JobUpdate(jobs[..last], w, job, d);
    }
  }

  lemma {:induction false} NoJobsNothingOpen(jobs: seq<Job>, d: string)
    requires forall w :: 0 <= w < |jobs| ==> jobs[w].NoJob?
    ensures Openings(jobs, d) == 0 && AllUncounted(jobs) == 0
  {
    if jobs != [] {
      NoJobsNothingOpen(jobs[..|jobs| - 1], d);
    }
  }

  // ----- One step -----

  /** Worker w passes on what it was committed to, and commits itself to nothing new. */
  ghost predicate PassesOn(s: Scan, t: Scan, w: nat, d: string) {
    && w < |s.jobs| && |t.jobs| == |s.jobs| && t.jobs == s.jobs[w := t.jobs[w]]
    && t.visited[d] + Opening(t.jobs[w], d) == s.visited[d] + Opening(s.jobs[w], d)
    && t.entries + Uncounted(t.jobs[w]) == s.entries + Uncounted(s.jobs[w])
  }

  lemma ReadPassesOn(fs: FileSystem, s: Scan, w: nat, d: string)
    requires w < |s.jobs| && s.jobs[w].Reads() && !s.running
    ensures PassesOn(s, ReadStep(fs, s, w), w, d)
  {
    if s.jobs[w].Validate? {
      RejectedMeansSkipped(s.jobs[w].path);
    }
  }

  lemma SpreadPassesOn(fs: FileSystem, s: Scan, w: nat, d: string)
    requires w < |s.jobs| && s.jobs[w].Spreads() && SpreadStep(s, w).Some?
    ensures PassesOn(s, SpreadStep(s, w).value, w, d)
  {
    SpreadMoves(s, w);
  }

  lemma RecordPassesOn(fs: FileSystem, s: Scan, w: nat, d: string)
    requires w < |s.jobs| && s.jobs[w].Records() && JobFormed(fs, s.jobs[w]) && RecordStep(fs, s, w).Some?
    ensures PassesOn(s, RecordStep(fs, s, w).value, w, d)
  {
    RecordMoves(fs, s, w);
  }

  lemma JobPassesOn(fs: FileSystem, s: Scan, w: nat, d: string)
    requires w < |s.jobs| && JobFormed(fs, s.jobs[w]) && !s.running && JobStep(fs, s, w).Some?
    ensures PassesOn(s, JobStep(fs, s, w).value, w, d)
  {
    if s.jobs[w].Reads() {
      ReadPassesOn(fs, s, w, d);
    } else if s.jobs[w].Spreads() {
      SpreadPassesOn(fs, s, w, d);
    } else if s.jobs[w].Records() {
      RecordPassesOn(fs, s, w, d);
    }
  }

  lemma LoopPassesOn(fs: FileSystem, s: Scan, w: nat, d: string)
    requires Coherent(s.pool.ws, s.jobs) && w < |s.jobs| && !s.pool.ws[w].Busy? && WorkerStep(fs, s, w).Some?
    ensures PassesOn(s, WorkerStep(fs, s, w).value, w, d)
  {
    LoopJobs(fs, s, w);
    var t := WorkerStep(fs, s, w).value;
    assert t.jobs == s.jobs[w := t.jobs[w]];
  }

  /** The other threads neither visit nor count. */
  lemma OthersPassBy(fs: FileSystem, s: Scan, l: Label)
    requires Structure(fs, s) && Step(fs, s, l).Some? && !l.WorkerWork?
    ensures
      var t := Step(fs, s, l).value;
      t.jobs == s.jobs && t.visited == s.visited && t.entries == s.entries
  {
    if l.MainWork? {
      MainFrame(s);
    } else if l.NotifierWork? {
      NotifierFrame(s);
    }
  }

  /** With running_ clear, every step keeps the visits made and to be made, and the entries counted and to be counted. */
  lemma StepKeepsCommitments(fs: FileSystem, s: Scan, l: Label, d: string)
    requires Structure(fs, s) && !s.running && !s.main.Setup? && Step(fs, s, l).Some?
    ensures
      var t := Step(fs, s, l).value;
      && !t.running && !t.main.Setup?
      && t.visited[d] + Openings(t.jobs, d) == s.visited[d] + Openings(s.jobs, d)
      && t.entries + AllUncounted(t.jobs) == s.entries + AllUncounted(s.jobs)
  {
    SetupIsOver(fs, s, l);
    if Step(fs, s, l).value.running {
      RunningStaysClear(fs, s, l);
    }
    match l
    case WorkerWork(w) =>
      if s.pool.ws[w].Busy? { JobPassesOn(fs, s, w, d); } else { LoopPassesOn(fs, s, w, d); }
      JobUpdate(s.jobs, w, Step(fs, s, l).value.jobs[w], d);
    case _ => OthersPassBy(fs, s, l);
  }

  // ----- Whole runs -----

  lemma {:induction false} RunKeepsCommitments(fs: FileSystem, s: Scan, labels: seq<Label>, d: string)
    requires Good(fs, s) && !s.running && !s.main.Setup? && CanRun(fs, s, labels)
    ensures
      var t := Final(fs, s, labels);
      && !t.running && !t.main.Setup?
      && t.visited[d] + Openings(t.jobs, d) == s.visited[d] + Openings(s.jobs, d)
      && t.entries + AllUncounted(t.jobs) == s.entries + AllUncounted(s.jobs)
    decreases |labels|
  {
    if labels != [] {
      StepKeepsCommitments(fs, s, labels[0], d);
      StepKeepsGood(fs, s, labels[0]);
      RunKeepsCommitments(fs, Step(fs, s, labels[0]).value, labels[1..], d);
    }
  }

  lemma RestHasNoCommitments(fs: FileSystem, s: Scan, d: string)
    requires Structure(fs, s) && I.InFlight(s.pool.ws) == 0
    ensures Openings(s.jobs, d) == 0 && AllUncounted(s.jobs) == 0
  {
    QuiescentNobodyWorks(s.pool.ws);
    NoJobsNothingOpen(s.jobs, d);
  }

  /**
   A stop() during a scan clears running_ for good.  After its first statement a directory is opened only by a
   worker that was already past the test of running_, and what is counted has been read before: once no task is in
   flight, the visits and the entries are those there were then and those the tasks were committed to.
   */
  lemma StopDecidesTheVisits(fs: FileSystem, threads: nat, labels: seq<Label>, later: seq<Label>, d: string)
    requires CanRun(fs, Init(threads), labels)
    requires
      var s := Final(fs, Init(threads), labels);
      s.user.UserIdle? && !s.main.Setup?
    requires CanRun(fs, Final(fs, Init(threads), labels), [UserStop] + later)
    ensures
      var s := Final(fs, Init(threads), labels);
      var t := Final(fs, s, [UserStop] + later);
      && !t.running
      && t.visited[d] <= s.visited[d] + Openings(s.jobs, d) && t.entries <= s.entries + AllUncounted(s.jobs)
      && (I.InFlight(t.pool.ws) == 0 ==>
            t.visited[d] == s.visited[d] + Openings(s.jobs, d) && t.entries == s.entries + AllUncounted(s.jobs))
  {
    var s := Final(fs, Init(threads), labels);
    InitGood(fs, threads);
    RunKeepsGood(fs, Init(threads), labels);
    var u := Step(fs, s, UserStop).value;
    assert ([UserStop] + later)[0] == UserStop && ([UserStop] + later)[1..] == later;
    StepKeepsGood(fs, s, UserStop);
    RunKeepsCommitments(fs, u, later, d);
    RunKeepsGood(fs, u, later);
    var t := Final(fs, u, later);
    if I.InFlight(t.pool.ws) == 0 {
      RestHasNoCommitments(fs, t, d);
    }
  }
}
