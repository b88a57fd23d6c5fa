/**
 The records that a stopped scan never delivers.  After a stop() the recorder may find file_infos_ empty and
 exit while tasks are still in flight; what they emplace then stays there.  Its exit decides how much.
 */
module ScanUnwritten {
  import opened FileTree
  import opened ScanMachine
  import opened ScanWork
  import opened ScanInvariant
  import opened ScanConservation
  import opened ScanPhases
  import opened ScanTheorems
  import opened ScanCompletion
  import opened ScanHalt
  import I = PoolInvariant

  /** The records that the task will emplace for what it has read so far. */
  function RecordsLeft(fs: FileSystem, job: Job): nat {
    match job
    case Reading(_, _, out) => |OwnRecords(fs, out)|
    case Counting(out) => |OwnRecords(fs, out)|
    case DirLocking(out) => |OwnRecords(fs, out)|
    case Pushing(_, out, _) => |OwnRecords(fs, out)|
    case DirUnlocking(out) => |OwnRecords(fs, out)|
    case InfoLocking(out) => |OwnRecords(fs, out)|
    case Files(out, i) => |AllFileRecords(fs, From(out.files, i))| + |AllLinkRecords(fs, out.links)|
    case Links(out, i) => |AllLinkRecords(fs, From(out.links, i))|
    case _ => 0
  }

  function AllRecordsLeft(fs: FileSystem, jobs: seq<Job>): nat {
    if jobs == [] then 0 else AllRecordsLeft(fs, jobs[..|jobs| - 1]) + RecordsLeft(fs, jobs[|jobs| - 1])
  }

  /** What lies in file_infos_, and what the tasks in flight will add to it. */
  function Unwritten(fs: FileSystem, s: Scan): nat { |s.infos| + AllRecordsLeft(fs, s.jobs) }

  lemma {:induction false} AllRecordsLeftUpdate(fs: FileSystem, jobs: seq<Job>, w: nat, job: Job)
    requires w < |jobs|
    ensures AllRecordsLeft(fs, jobs[w := job]) + RecordsLeft(fs, jobs[w]) == AllRecordsLeft(fs, jobs) + RecordsLeft(fs, job)
  {
    var last := |jobs| - 1;
    if w == last {
      assert jobs[w := job][..last] == jobs[..last];
    } else {
      assert jobs[w := job][..last] == jobs[..last][w := job];
      AllRecordsLeftUpdate(fs, jobs[..last], w, job);
    }
  }

  lemma {:induction false} NoJobsNoRecords(fs: FileSystem, jobs: seq<Job>)
    requires forall w :: 0 <= w < |jobs| ==> jobs[w].NoJob?
    ensures AllRecordsLeft(fs, jobs) == 0
  {
    if jobs != [] {
      NoJobsNoRecords(fs, jobs[..|jobs| - 1]);
    }
  }

  // ----- One step of a task, with running_ clear -----

  lemma ReadRecordsLeft(fs: FileSystem, job: Job)
    requires job.Reads()
    ensures RecordsLeft(fs, ReadOne(fs, false, job).next) == RecordsLeft(fs, job)
  {
  }

  lemma SpreadRecordsLeft(fs: FileSystem, job: Job)
    requires job.Spreads()
    ensures RecordsLeft(fs, SpreadNext(job)) == RecordsLeft(fs, job)
  {
  }

  lemma FilesLeft(fs: FileSystem, out: Listing, i: nat)
    requires i <= |out.files|
    ensures
      var r := RecordOne(fs, Files(out, i));
      |r.records| + RecordsLeft(fs, r.next) == RecordsLeft(fs, Files(out, i))
  {
    if i < |out.files| {
      FilesFront(fs, out.files, i);
    } else {
      assert From(out.files, i) == [] && From(out.links, 0) == out.links;
    }
  }

  lemma LinksLeft(fs: FileSystem, out: Listing, i: nat)
    requires i <= |out.links|
    ensures
      var r := RecordOne(fs, Links(out, i));
      |r.records| + RecordsLeft(fs, r.next) == RecordsLeft(fs, Links(out, i))
  {
    if i < |out.links| {
      LinksFront(fs, out.links, i);
    } else {
      assert From(out.links, i) == [];
    }
  }

  lemma RecordRecordsLeft(fs: FileSystem, job: Job)
    requires job.Records() && JobFormed(fs, job)
    ensures |RecordOne(fs, job).records| + RecordsLeft(fs, RecordOne(fs, job).next) == RecordsLeft(fs, job)
  {
    match job
    case InfoLocking(out) => assert From(out.files, 0) == out.files;
    case Files(out, i) => FilesLeft(fs, out, i);
    case Links(out, i) => LinksLeft(fs, out, i);
  }

  /** What worker w emplaces it no longer has to emplace. */
  predicate Emplaces(fs: FileSystem, s: Scan, t: Scan, w: nat) {
    && w < |s.jobs| && |t.jobs| == |s.jobs| && t.jobs == s.jobs[w := t.jobs[w]]
    && |t.infos| + RecordsLeft(fs, t.jobs[w]) == |s.infos| + RecordsLeft(fs, s.jobs[w])
    && t.drained == s.drained
  }

  lemma ReadEmplaces(fs: FileSystem, s: Scan, w: nat)
    requires w < |s.jobs| && s.jobs[w].Reads() && !s.running
    ensures Emplaces(fs, s, ReadStep(fs, s, w), w)
  {
    ReadFrame(fs, s, w);
    ReadRecordsLeft(fs, s.jobs[w]);
  }

  lemma SpreadEmplaces(fs: FileSystem, s: Scan, w: nat)
    requires w < |s.jobs| && s.jobs[w].Spreads() && SpreadStep(s, w).Some?
    ensures Emplaces(fs, s, SpreadStep(s, w).value, w)
  {
    SpreadGoes(s, w);
    SpreadMoves(s, w);
    SpreadFrame(s, w);
    SpreadRecordsLeft(fs, s.jobs[w]);
  }

  lemma RecordEmplaces(fs: FileSystem, s: Scan, w: nat)
    requires w < |s.jobs| && s.jobs[w].Records() && JobFormed(fs, s.jobs[w]) && RecordStep(fs, s, w).Some?
    ensures Emplaces(fs, s, RecordStep(fs, s, w).value, w)
  {
    RecordRecordsLeft(fs, s.jobs[w]);
    RecordAppends(fs, s, w);
  }

  lemma RecordAppends(fs: FileSystem, s: Scan, w: nat)
    requires w < |s.jobs| && s.jobs[w].Records() && RecordStep(fs, s, w).Some?
    ensures
      var r, t := RecordOne(fs, s.jobs[w]), RecordStep(fs, s, w).value;
      t.jobs == s.jobs[w := r.next] && |t.infos| == |s.infos| + |r.records| && t.drained == s.drained
  {
  }

  lemma ReturnEmplaces(fs: FileSystem, s: Scan, w: nat)
    requires w < |s.jobs| && s.jobs[w].Return? && ReturnStep(s, w).Some?
    ensures Emplaces(fs, s, ReturnStep(s, w).value, w)
  {
  }

  lemma JobEmplaces(fs: FileSystem, s: Scan, w: nat)
    requires w < |s.jobs| && JobFormed(fs, s.jobs[w]) && !s.running && JobStep(fs, s, w).Some?
    ensures Emplaces(fs, s, JobStep(fs, s, w).value, w)
  {
    if s.jobs[w].Reads() {
      ReadEmplaces(fs, s, w);
    } else if s.jobs[w].Spreads() {
      SpreadEmplaces(fs, s, w);
    } else if s.jobs[w].Records() {
      RecordEmplaces(fs, s, w);
    } else {
      ReturnEmplaces(fs, s, w);
    }
  }

  lemma LoopEmplaces(fs: FileSystem, s: Scan, w: nat)
    requires Coherent(s.pool.ws, s.jobs) && w < |s.jobs| && !s.pool.ws[w].Busy? && WorkerStep(fs, s, w).Some?
    ensures Emplaces(fs, s, WorkerStep(fs, s, w).value, w)
  {
    LoopFrame(fs, s, w);
    LoopJobs(fs, s, w);
    var t := WorkerStep(fs, s, w).value;
    assert t.jobs == s.jobs[w := t.jobs[w]];
  }

  // ----- After the recorder's exit -----

  /** The recorder leaves its loop only with running_ clear, and nothing sets that again. */
  predicate QuitsWhenClear(s: Scan) { s.recorder.TestEmpty? || s.recorder.RecorderOver? ==> !s.running }

  lemma StepKeepsQuits(fs: FileSystem, s: Scan, l: Label)
    requires MainFormed(s) && QuitsWhenClear(s) && Step(fs, s, l).Some?
    ensures QuitsWhenClear(Step(fs, s, l).value)
  {
    if Step(fs, s, l).value.running && !s.running {
      RunningStaysClear(fs, s, l);
    }
    if l.WorkerWork? {
      WorkerLeavesRecorder(fs, s, l.w);
    }
  }

  lemma WorkerLeavesRecorder(fs: FileSystem, s: Scan, w: nat)
    requires WorkerStep(fs, s, w).Some?
    ensures WorkerStep(fs, s, w).value.recorder == s.recorder && WorkerStep(fs, s, w).value.running == s.running
  {
    if !s.pool.ws[w].Busy? {
      LoopKeepsControl(fs, s, w);
    } else if s.jobs[w].Reads() {
      ReadKeepsControl(fs, s, w);
    } else if s.jobs[w].Spreads() {
      SpreadKeepsControl(s, w);
    } else if s.jobs[w].Records() {
      RecordKeepsControl(fs, s, w);
    }
  }

  lemma {:induction false} RunKeepsQuits(fs: FileSystem, s: Scan, labels: seq<Label>)
    requires Good(fs, s) && QuitsWhenClear(s) && CanRun(fs, s, labels)
    ensures QuitsWhenClear(Final(fs, s, labels))
    decreases |labels|
  {
    if labels != [] {
      StepKeepsQuits(fs, s, labels[0]);
      StepKeepsGood(fs, s, labels[0]);
      RunKeepsQuits(fs, Step(fs, s, labels[0]).value, labels[1..]);
    }
  }

  lemma MainLeavesRecords(s: Scan)
    requires MainStep(s).Some? && s.recorder.RecorderOver? && MainFormed(s)
    ensures
      var t := MainStep(s).value;
      t.jobs == s.jobs && t.infos == s.infos && t.drained == s.drained && t.recorder == s.recorder
  {
    MainFrame(s);
  }

  /** Once the recorder is gone, no step of any thread changes what will stay unwritten. */
  lemma StepKeepsUnwritten(fs: FileSystem, s: Scan, l: Label)
    requires Structure(fs, s) && QuitsWhenClear(s) && s.recorder.RecorderOver? && Step(fs, s, l).Some?
    ensures
      var t := Step(fs, s, l).value;
      t.recorder.RecorderOver? && Unwritten(fs, t) == Unwritten(fs, s) && t.drained == s.drained
  {
    match l
    case WorkerWork(w) =>
      WorkerLeavesRecorder(fs, s, w);
      if s.pool.ws[w].Busy? { JobEmplaces(fs, s, w); } else { LoopEmplaces(fs, s, w); }
      AllRecordsLeftUpdate(fs, s.jobs, w, Step(fs, s, l).value.jobs[w]);
    case MainWork => MainLeavesRecords(s);
    case NotifierWork =>
      NotifierFrame(s);
      NotifierLeavesRecorder(s);
    case _ =>
  }

  lemma {:induction false} RunKeepsUnwritten(fs: FileSystem, s: Scan, labels: seq<Label>)
    requires Good(fs, s) && QuitsWhenClear(s) && s.recorder.RecorderOver? && CanRun(fs, s, labels)
    ensures
      var t := Final(fs, s, labels);
      t.recorder.RecorderOver? && Unwritten(fs, t) == Unwritten(fs, s) && t.drained == s.drained
    decreases |labels|
  {
    if labels != [] {
      StepKeepsUnwritten(fs, s, labels[0]);
      StepKeepsQuits(fs, s, labels[0]);
      StepKeepsGood(fs, s, labels[0]);
      RunKeepsUnwritten(fs, Step(fs, s, labels[0]).value, labels[1..]);
    }
  }

  lemma RestIsWritten(fs: FileSystem, s: Scan)
    requires Coherent(s.pool.ws, s.jobs) && I.InFlight(s.pool.ws) == 0
    ensures Unwritten(fs, s) == |s.infos|
  {
    QuiescentNobodyWorks(s.pool.ws);
    NoJobsNoRecords(fs, s.jobs);
  }

  /**
   Stopped or not: from the moment the recorder has exited nothing more is delivered, and it is decided how
   many records stay in file_infos_ for good.  Once no task is in flight, file_infos_ is empty if and only if it
   was empty at that moment and no task in flight had read anything it was still to record.
   */
  lemma RecorderExitDecides(fs: FileSystem, threads: nat, labels: seq<Label>, later: seq<Label>)
    requires CanRun(fs, Init(threads), labels) && Final(fs, Init(threads), labels).recorder.RecorderOver?
    requires CanRun(fs, Final(fs, Init(threads), labels), later)
    requires I.InFlight(Final(fs, Final(fs, Init(threads), labels), later).pool.ws) == 0
    ensures
      var s := Final(fs, Init(threads), labels);
      var t := Final(fs, s, later);
      && t.drained == s.drained && |t.infos| == Unwritten(fs, s)
      && (t.infos == [] <==> Unwritten(fs, s) == 0)
  {
    var s := Final(fs, Init(threads), labels);
    InitGood(fs, threads);
    RunKeepsGood(fs, Init(threads), labels);
    RunKeepsQuits(fs, Init(threads), labels);
    RunKeepsUnwritten(fs, s, later);
    RunKeepsGood(fs, s, later);
    RestIsWritten(fs, Final(fs, s, later));
  }

  lemma ReturnedIsQuiescent(fs: FileSystem, s: Scan)
    requires Structure(fs, s) && Phases(s) && HasReturned(s)
    ensures s.recorder.RecorderOver? && I.InFlight(s.pool.ws) == 0
  {
  }

  /** The same for wait(): when it has returned, file_infos_ is empty exactly if nothing was unwritten at the recorder's exit. */
  lemma WaitLeavesUnwritten(fs: FileSystem, threads: nat, labels: seq<Label>, later: seq<Label>)
    requires CanRun(fs, Init(threads), labels) && Final(fs, Init(threads), labels).recorder.RecorderOver?
    requires CanRun(fs, Final(fs, Init(threads), labels), later)
    requires HasReturned(Final(fs, Final(fs, Init(threads), labels), later))
    ensures
      var s := Final(fs, Init(threads), labels);
      Final(fs, s, later).infos == [] <==> Unwritten(fs, s) == 0
  {
    var s := Final(fs, Init(threads), labels);
    InitGood(fs, threads);
    RunKeepsGood(fs, Init(threads), labels);
    RunKeepsGood(fs, s, later);
    ReturnedIsQuiescent(fs, Final(fs, s, later));
    RecorderExitDecides(fs, threads, labels, later);
  }
}
