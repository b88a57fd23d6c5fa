/**
 The order of the records.  file_info_mutex_ is held over the whole of a directory's block, so the records of
 a directory are emplaced together: those of its files in the order of its entries, then those of its symlinks.
 */
module ScanBlocks {
  import opened FileTree
  import opened WalkTheorems
  import opened ScanRecords
  import opened ScanMachine
  import opened ScanInvariant
  import opened ScanConservation
  import opened ScanPhases
  import opened ScanTheorems
  import P = PoolMachine
  import I = PoolInvariant

  // ----- Which directory a task is at, and how far its block is -----

  /** do_scan works on the path of its task, and past the readdir loop on the whole listing of it. */
  ghost predicate JobOf(fs: FileSystem, pc: P.WorkerPc<string>, job: Job) {
    match job
    case NoJob => true
    case Return => true
    case Enter(path) => pc == P.Busy(path)
    case Validate(path) => pc == P.Busy(path)
    case Reading(path, _, _) => pc == P.Busy(path)
    case _ => pc.Busy? && job.out == ListDir(fs, pc.task)
  }

  ghost predicate JobsOf(fs: FileSystem, ws: seq<P.WorkerPc<string>>, jobs: seq<Job>) {
    |ws| == |jobs| && forall w :: 0 <= w < |jobs| ==> JobOf(fs, ws[w], jobs[w])
  }

  /** The directory has been visited and its block is not over. */
  predicate Handles(job: Job) {
    job.Reading? || job.Counting? || job.Spreads() || job.Records()
  }

  function HandlesDir(pc: P.WorkerPc<string>, job: Job, d: string): nat {
    if Handles(job) && pc.Busy? && pc.task == d then 1 else 0
  }

  /** How many workers are at directory d. */
  function Handling(ws: seq<P.WorkerPc<string>>, jobs: seq<Job>, d: string): nat
    requires |ws| == |jobs|
  {
    if ws == [] then 0
    else Handling(ws[..|ws| - 1], jobs[..|jobs| - 1], d) + HandlesDir(ws[|ws| - 1], jobs[|jobs| - 1], d)
  }

  lemma {:induction false} HandlingUpdate(ws: seq<P.WorkerPc<string>>, jobs: seq<Job>, w: nat, pc: P.WorkerPc<string>, job: Job, d: string)
    requires |ws| == |jobs| && w < |ws|
    ensures Handling(ws[w := pc], jobs[w := job], d) + HandlesDir(ws[w], jobs[w], d) == Handling(ws, jobs, d) + HandlesDir(pc, job, d)
  {
    var last := |ws| - 1;
    if w < last {
      HandlingUpdate(ws[..last], jobs[..last], w, pc, job, d);
      assert ws[w := pc][..last] == ws[..last][w := pc] && jobs[w := job][..last] == jobs[..last][w := job];
    } else {
      assert ws[w := pc][..last] == ws[..last] && jobs[w := job][..last] == jobs[..last];
    }
  }

  lemma {:induction false} SameHandling(ws: seq<P.WorkerPc<string>>, vs: seq<P.WorkerPc<string>>, jobs: seq<Job>, d: string)
    requires |ws| == |vs| == |jobs| && forall w :: 0 <= w < |ws| ==> vs[w] == ws[w] || vs[w] == P.Woken(ws[w])
    ensures Handling(ws, jobs, d) == Handling(vs, jobs, d)
  {
    if ws != [] {
      var last := |ws| - 1;
      assert forall w :: 0 <= w < last ==> ws[..last][w] == ws[w] && vs[..last][w] == vs[w];
      SameHandling(ws[..last], vs[..last], jobs[..last], d);
      assert vs[last] == ws[last] || vs[last] == P.Woken(ws[last]);
    }
  }

  lemma {:induction false} NobodyHandles(ws: seq<P.WorkerPc<string>>, jobs: seq<Job>, d: string)
    requires |ws| == |jobs| && forall w :: 0 <= w < |jobs| ==> jobs[w].NoJob?
    ensures Handling(ws, jobs, d) == 0
  {
    if ws != [] {
      NobodyHandles(ws[..|ws| - 1], jobs[..|jobs| - 1], d);
    }
  }

  /** What a task has written of its block. */
  function Written(fs: FileSystem, job: Job): seq<Record> {
    match job
    case Files(out, i) => if i <= |out.files| then AllFileRecords(fs, out.files[..i]) else []
    case Links(out, i) => if i <= |out.links| then AllFileRecords(fs, out.files) + AllLinkRecords(fs, out.links[..i]) else []
    case _ => []
  }

  /** The block being written, of the worker that holds file_info_mutex_. */
  function Begun(fs: FileSystem, lock: InfoLock, jobs: seq<Job>): seq<Record> {
    if lock.InfoWorker? && lock.worker < |jobs| then Written(fs, jobs[lock.worker]) else []
  }

  /** What has been emplaced are the blocks of `dirs`, one after the other, and the beginning of one more. */
  ghost predicate InBlocks(fs: FileSystem, s: Scan, dirs: seq<string>)
    requires |s.pool.ws| == |s.jobs|
  {
    && s.emplaced == RecordsOf(fs, dirs) + Begun(fs, s.infoLock, s.jobs)
    && forall d :: s.visited[d] == multiset(dirs)[d] + Handling(s.pool.ws, s.jobs, d)
  }

  // ----- Steps of do_scan -----

  /** A step of worker w outside its block. */
  lemma MoveKeepsBlocks(fs: FileSystem, s: Scan, t: Scan, w: nat, dirs: seq<string>)
    requires |s.pool.ws| == |s.jobs| && InBlocks(fs, s, dirs) && InfoHeld(s.infoLock, s.jobs, s.recorder)
    requires w < |s.jobs| && !s.jobs[w].HoldsInfo() && |t.pool.ws| == |t.jobs| == |s.jobs|
    requires t.jobs == s.jobs[w := t.jobs[w]] && t.pool.ws == s.pool.ws[w := t.pool.ws[w]]
    requires t.emplaced == s.emplaced && t.infoLock == s.infoLock
    requires forall d :: t.visited[d] + HandlesDir(s.pool.ws[w], s.jobs[w], d) == s.visited[d] + HandlesDir(t.pool.ws[w], t.jobs[w], d)
    ensures InBlocks(fs, t, dirs)
  {
    forall d
      ensures t.visited[d] == multiset(dirs)[d] + Handling(t.pool.ws, t.jobs, d)
    {
      HandlingUpdate(s.pool.ws, s.jobs, w, t.pool.ws[w], t.jobs[w], d);
      assert s.visited[d] == multiset(dirs)[d] + Handling(s.pool.ws, s.jobs, d);
      assert t.visited[d] + HandlesDir(s.pool.ws[w], s.jobs[w], d) == s.visited[d] + HandlesDir(t.pool.ws[w], t.jobs[w], d);
    }
  }

  lemma ReadKeepsJobOf(fs: FileSystem, s: Scan, w: nat)
    requires w < |s.jobs| == |s.pool.ws| && s.jobs[w].Reads() && JobFormed(fs, s.jobs[w]) && s.running
    requires JobOf(fs, s.pool.ws[w], s.jobs[w])
    ensures |ReadStep(fs, s, w).jobs| == |s.jobs| && JobOf(fs, s.pool.ws[w], ReadStep(fs, s, w).jobs[w])
    ensures forall d ::
      ReadStep(fs, s, w).visited[d] + HandlesDir(s.pool.ws[w], s.jobs[w], d)
      == s.visited[d] + HandlesDir(s.pool.ws[w], ReadStep(fs, s, w).jobs[w], d)
  {
    var job := s.jobs[w];
    if job.Reading? {
      assert fs.dirs[job.path][..|fs.dirs[job.path]|] == fs.dirs[job.path];
    }
  }

  lemma ReadKeepsBlocks(fs: FileSystem, s: Scan, w: nat, dirs: seq<string>)
    requires Structure(fs, s) && InBlocks(fs, s, dirs) && JobsOf(fs, s.pool.ws, s.jobs)
    requires w < |s.jobs| && s.jobs[w].Reads() && s.running
    ensures
      var t := ReadStep(fs, s, w);
      |t.pool.ws| == |t.jobs| && InBlocks(fs, t, dirs) && JobsOf(fs, t.pool.ws, t.jobs)
  {
    ReadMoves(fs, s, w);
    ReadFrame(fs, s, w);
    ReadKeepsJobOf(fs, s, w);
    MoveKeepsBlocks(fs, s, ReadStep(fs, s, w), w, dirs);
  }

  lemma SpreadKeepsBlocks(fs: FileSystem, s: Scan, w: nat, dirs: seq<string>)
    requires Structure(fs, s) && InBlocks(fs, s, dirs) && JobsOf(fs, s.pool.ws, s.jobs)
    requires w < |s.jobs| && s.jobs[w].Spreads() && SpreadStep(s, w).Some?
    ensures
      var t := SpreadStep(s, w).value;
      |t.pool.ws| == |t.jobs| && InBlocks(fs, t, dirs) && JobsOf(fs, t.pool.ws, t.jobs)
  {
    var t := SpreadStep(s, w).value;
    SpreadMoves(s, w);
    SpreadFrame(s, w);
    SpreadGoes(s, w);
    SpreadVisits(s, w);
    assert SpreadNext(s.jobs[w]).out == s.jobs[w].out;
    MoveKeepsBlocks(fs, s, t, w, dirs);
  }

  lemma SpreadVisits(s: Scan, w: nat)
    requires w < |s.jobs| && s.jobs[w].Spreads() && SpreadStep(s, w).Some?
    ensures SpreadStep(s, w).value.visited == s.visited
  {
  }

  // ----- The block -----

  lemma FilesGrow(fs: FileSystem, out: Listing, i: nat)
    requires i <= |out.files|
    ensures
      var r := RecordOne(fs, Files(out, i));
      r.next.HoldsInfo() && r.next.out == out && Written(fs, r.next) == Written(fs, Files(out, i)) + r.records
  {
    if i < |out.files| {
      FileRecordsInOrder(fs, out.files[..i], out.files[i]);
      assert out.files[..i + 1] == out.files[..i] + [out.files[i]];
    } else {
      assert out.files[..i] == out.files && out.links[..0] == [];
    }
  }

  lemma LinksGrow(fs: FileSystem, out: Listing, i: nat)
    requires i < |out.links|
    ensures Written(fs, Links(out, i + 1)) == Written(fs, Links(out, i)) + LinkRecords(fs, out.links[i])
  {
    LinkRecordsInOrder(fs, out.links[..i], out.links[i]);
    assert out.links[..i + 1] == out.links[..i] + [out.links[i]];
  }

  /** A statement of the block adds what it emplaces to what has been written; at the end that is the whole block. */
  lemma BlockGrows(fs: FileSystem, job: Job)
    requires job.Records() && JobFormed(fs, job)
    ensures
      var r := RecordOne(fs, job);
      if r.next.Return? then job.Links? && Written(fs, job) == OwnRecords(fs, job.out) && r.records == []
      else r.next.HoldsInfo() && r.next.out == job.out && Written(fs, r.next) == Written(fs, job) + r.records
  {
    match job
    case InfoLocking(out) => assert out.files[..0] == [];
    case Files(out, i) => FilesGrow(fs, out, i);
    case Links(out, i) =>
      if i < |out.links| {
        LinksGrow(fs, out, i);
      } else {
        assert out.links[..i] == out.links;
      }
  }

  /** What a statement of the block does to the scan. */
  lemma RecordEffect(fs: FileSystem, s: Scan, w: nat)
    requires w < |s.jobs| && s.jobs[w].Records() && JobFormed(fs, s.jobs[w]) && RecordStep(fs, s, w).Some?
    ensures
      var r, t := RecordOne(fs, s.jobs[w]), RecordStep(fs, s, w).value;
      && t.pool == s.pool && t.jobs == s.jobs[w := r.next] && t.visited == s.visited
      && t.emplaced == s.emplaced + r.records
      && t.infoLock == (if r.next.Return? then InfoFree else if s.jobs[w].InfoLocking? then InfoWorker(w) else s.infoLock)
      && (s.jobs[w].InfoLocking? ==> s.infoLock.InfoFree?)
  {
  }

  /** Worker w goes on inside do_scan. */
  lemma WorkerGoesOn(fs: FileSystem, ws: seq<P.WorkerPc<string>>, jobs: seq<Job>, w: nat, next: Job, d: string)
    requires JobsOf(fs, ws, jobs) && w < |jobs| && JobOf(fs, ws[w], next)
    ensures JobsOf(fs, ws, jobs[w := next])
    ensures Handling(ws, jobs[w := next], d) + HandlesDir(ws[w], jobs[w], d) == Handling(ws, jobs, d) + HandlesDir(ws[w], next, d)
  {
    HandlingUpdate(ws, jobs, w, ws[w], next, d);
    assert ws[w := ws[w]] == ws;
  }

  /** The block under way is that of the worker in it, before and after its statement. */
  lemma BlockIsBegun(fs: FileSystem, s: Scan, w: nat)
    requires InfoHeld(s.infoLock, s.jobs, s.recorder) && w < |s.jobs| && s.jobs[w].Records() && JobFormed(fs, s.jobs[w])
    requires RecordStep(fs, s, w).Some?
    ensures Begun(fs, s.infoLock, s.jobs) == Written(fs, s.jobs[w])
    ensures
      var next, t := RecordOne(fs, s.jobs[w]).next, RecordStep(fs, s, w).value;
      Begun(fs, t.infoLock, t.jobs) == Written(fs, next)
  {
    RecordEffect(fs, s, w);
  }

  /** Inside the block. */
  lemma BlockKeepsBlocks(fs: FileSystem, s: Scan, w: nat, dirs: seq<string>)
    requires Structure(fs, s) && InBlocks(fs, s, dirs) && JobsOf(fs, s.pool.ws, s.jobs)
    requires w < |s.jobs| && s.jobs[w].Records() && RecordStep(fs, s, w).Some? && !RecordOne(fs, s.jobs[w]).next.Return?
    ensures
      var t := RecordStep(fs, s, w).value;
      |t.pool.ws| == |t.jobs| && InBlocks(fs, t, dirs) && JobsOf(fs, t.pool.ws, t.jobs)
  {
    var r, t := RecordOne(fs, s.jobs[w]), RecordStep(fs, s, w).value;
    assert JobFormed(fs, s.jobs[w]);
    RecordEffect(fs, s, w);
    BlockGrows(fs, s.jobs[w]);
    BlockIsBegun(fs, s, w);
    NextIsOf(fs, s.pool.ws[w], s.jobs[w]);
    forall d
      ensures t.visited[d] == multiset(dirs)[d] + Handling(t.pool.ws, t.jobs, d)
    {
      WorkerGoesOn(fs, s.pool.ws, s.jobs, w, r.next, d);
    }
    WorkerGoesOn(fs, s.pool.ws, s.jobs, w, r.next, "");
    Regroup2(RecordsOf(fs, dirs), Written(fs, s.jobs[w]), r.records);
  }

  lemma NextIsOf(fs: FileSystem, pc: P.WorkerPc<string>, job: Job)
    requires job.Records() && JobFormed(fs, job) && JobOf(fs, pc, job)
    ensures JobOf(fs, pc, RecordOne(fs, job).next)
  {
    BlockGrows(fs, job);
  }

  lemma Regroup2(a: seq<Record>, b: seq<Record>, c: seq<Record>)
    ensures (a + b) + c == a + (b + c)
  {
  }

  lemma OneMoreBlock(fs: FileSystem, dirs: seq<string>, d: string)
    ensures RecordsOf(fs, dirs + [d]) == RecordsOf(fs, dirs) + OwnRecords(fs, ListDir(fs, d))
  {
    OfAppend(fs, dirs, [d]);
    assert [d][1..] == [] && RecordsOf(fs, [d]) == OwnRecords(fs, ListDir(fs, d));
  }

  /** The end of the block: its directory is done. */
  lemma EndKeepsBlocks(fs: FileSystem, s: Scan, w: nat, dirs: seq<string>)
    requires Structure(fs, s) && InBlocks(fs, s, dirs) && JobsOf(fs, s.pool.ws, s.jobs)
    requires w < |s.jobs| && s.jobs[w].Records() && RecordStep(fs, s, w).Some? && RecordOne(fs, s.jobs[w]).next.Return?
    ensures
      var t := RecordStep(fs, s, w).value;
      s.pool.ws[w].Busy? && |t.pool.ws| == |t.jobs| && InBlocks(fs, t, dirs + [s.pool.ws[w].task]) && JobsOf(fs, t.pool.ws, t.jobs)
  {
    var t, path := RecordStep(fs, s, w).value, s.pool.ws[w].task;
    assert JobFormed(fs, s.jobs[w]);
    RecordEffect(fs, s, w);
    BlockGrows(fs, s.jobs[w]);
    BlockIsBegun(fs, s, w);
    OneMoreBlock(fs, dirs, path);
    VisitIsOver(fs, s.pool.ws, s.jobs, w, s.visited, dirs);
    assert Written(fs, Return) == [] && t.emplaced == s.emplaced + [];
    assert s.emplaced == RecordsOf(fs, dirs) + Written(fs, s.jobs[w]) == RecordsOf(fs, dirs + [path]);
  }

  lemma VisitIsOver(fs: FileSystem, ws: seq<P.WorkerPc<string>>, jobs: seq<Job>, w: nat, visited: multiset<string>, dirs: seq<string>)
    requires JobsOf(fs, ws, jobs) && w < |jobs| && jobs[w].Records() && ws[w].Busy?
    requires forall d :: visited[d] == multiset(dirs)[d] + Handling(ws, jobs, d)
    ensures JobsOf(fs, ws, jobs[w := Return])
    ensures forall d :: visited[d] == multiset(dirs + [ws[w].task])[d] + Handling(ws, jobs[w := Return], d)
  {
    forall d
      ensures visited[d] == multiset(dirs + [ws[w].task])[d] + Handling(ws, jobs[w := Return], d)
    {
      WorkerGoesOn(fs, ws, jobs, w, Return, d);
      assert visited[d] == multiset(dirs)[d] + Handling(ws, jobs, d);
    }
    WorkerGoesOn(fs, ws, jobs, w, Return, "");
  }

  // ----- Every step -----

  lemma ReturnKeepsBlocks(fs: FileSystem, s: Scan, w: nat, dirs: seq<string>)
    requires Structure(fs, s) && InBlocks(fs, s, dirs) && JobsOf(fs, s.pool.ws, s.jobs)
    requires w < |s.jobs| && s.jobs[w].Return? && ReturnStep(s, w).Some?
    ensures
      var t := ReturnStep(s, w).value;
      |t.pool.ws| == |t.jobs| && InBlocks(fs, t, dirs) && JobsOf(fs, t.pool.ws, t.jobs)
  {
    var t := ReturnStep(s, w).value;
    ReturnEffect(s, w);
    assert t.pool.ws[w] == P.Relocking && t.jobs[w] == NoJob;
    MoveKeepsBlocks(fs, s, t, w, dirs);
    OneJobMoves(fs, s.pool.ws, t.pool.ws, s.jobs, t.jobs, w);
  }

  lemma ReturnEffect(s: Scan, w: nat)
    requires w < |s.jobs| == |s.pool.ws| && s.jobs[w].Return? && ReturnStep(s, w).Some?
    ensures
      var t := ReturnStep(s, w).value;
      && t.jobs == s.jobs[w := NoJob] && t.pool.ws == s.pool.ws[w := P.Relocking]
      && t.visited == s.visited && t.emplaced == s.emplaced && t.infoLock == s.infoLock
  {
  }

  lemma LoopKeepsBlocks(fs: FileSystem, s: Scan, w: nat, dirs: seq<string>)
    requires Structure(fs, s) && InBlocks(fs, s, dirs) && JobsOf(fs, s.pool.ws, s.jobs)
    requires w < |s.jobs| && !s.pool.ws[w].Busy? && WorkerStep(fs, s, w).Some?
    ensures
      var t := WorkerStep(fs, s, w).value;
      |t.pool.ws| == |t.jobs| && InBlocks(fs, t, dirs) && JobsOf(fs, t.pool.ws, t.jobs)
  {
    var t := WorkerStep(fs, s, w).value;
    LoopFrame(fs, s, w);
    LoopJobs(fs, s, w);
    LoopEnters(fs, s, w);
    I.WorkerMovesAlone(s.pool, w);
    assert t.jobs == s.jobs[w := t.jobs[w]];
    MoveKeepsBlocks(fs, s, t, w, dirs);
    OneJobMoves(fs, s.pool.ws, t.pool.ws, s.jobs, t.jobs, w);
  }

  lemma OneJobMoves(fs: FileSystem, ws: seq<P.WorkerPc<string>>, vs: seq<P.WorkerPc<string>>, jobs: seq<Job>, later: seq<Job>, w: nat)
    requires JobsOf(fs, ws, jobs) && w < |ws| == |vs| == |later| && JobOf(fs, vs[w], later[w])
    requires vs == ws[w := vs[w]] && later == jobs[w := later[w]]
    ensures JobsOf(fs, vs, later)
  {
  }

  lemma LoopEnters(fs: FileSystem, s: Scan, w: nat)
    requires Coherent(s.pool.ws, s.jobs) && w < |s.jobs| && !s.pool.ws[w].Busy? && WorkerStep(fs, s, w).Some?
    ensures
      var t := WorkerStep(fs, s, w).value;
      && t.visited == s.visited && |t.jobs| == |s.jobs| && |t.pool.ws| == |s.pool.ws|
      && (t.jobs[w].Enter? ==> t.pool.ws[w] == P.Busy(t.jobs[w].path))
  {
  }

  /** What a step that is none of a worker may do: it moves no task, at most it wakes workers. */
  ghost predicate PassesBy(fs: FileSystem, s: Scan, t: Scan) {
    && t.jobs == s.jobs && t.emplaced == s.emplaced && t.visited == s.visited && |t.pool.ws| == |s.pool.ws|
    && Begun(fs, t.infoLock, t.jobs) == Begun(fs, s.infoLock, s.jobs)
    && forall w :: 0 <= w < |s.pool.ws| ==> t.pool.ws[w] == s.pool.ws[w] || t.pool.ws[w] == P.Woken(s.pool.ws[w])
  }

  lemma PassingKeepsBlocks(fs: FileSystem, s: Scan, t: Scan, dirs: seq<string>)
    requires |s.pool.ws| == |s.jobs| && InBlocks(fs, s, dirs) && JobsOf(fs, s.pool.ws, s.jobs) && PassesBy(fs, s, t)
    ensures |t.pool.ws| == |t.jobs| && InBlocks(fs, t, dirs) && JobsOf(fs, t.pool.ws, t.jobs)
  {
    forall d
      ensures t.visited[d] == multiset(dirs)[d] + Handling(t.pool.ws, t.jobs, d)
    {
      SameHandling(s.pool.ws, t.pool.ws, s.jobs, d);
    }
    forall w | 0 <= w < |t.jobs|
      ensures JobOf(fs, t.pool.ws[w], t.jobs[w])
    {
      assert JobOf(fs, s.pool.ws[w], s.jobs[w]);
    }
  }

  lemma WakeKeepsBlocks(fs: FileSystem, s: Scan, l: Label, dirs: seq<string>)
    requires Structure(fs, s) && InBlocks(fs, s, dirs) && JobsOf(fs, s.pool.ws, s.jobs)
    requires Step(fs, s, l).Some? && l.WorkerWake?
    ensures
      var t := Step(fs, s, l).value;
      |t.pool.ws| == |t.jobs| && InBlocks(fs, t, dirs) && JobsOf(fs, t.pool.ws, t.jobs)
  {
    var t := Step(fs, s, l).value;
    assert t.jobs == s.jobs[l.w := t.jobs[l.w]];
    MoveKeepsBlocks(fs, s, t, l.w, dirs);
  }

  lemma MainPassesBy(fs: FileSystem, s: Scan)
    requires Structure(fs, s) && MainStep(s).Some?
    ensures PassesBy(fs, s, MainStep(s).value)
  {
    MainFrame(s);
    if s.main.Destroying? {
      OwnerWakes(s.pool);
    } else {
      MainLeavesWorkers(s);
    }
  }

  lemma OwnerWakes(p: P.Pool<string>)
    requires P.OwnerStep(p).Some?
    ensures |P.OwnerStep(p).value.ws| == |p.ws|
    ensures forall w :: 0 <= w < |p.ws| ==> P.OwnerStep(p).value.ws[w] == p.ws[w] || P.OwnerStep(p).value.ws[w] == P.Woken(p.ws[w])
  {
  }

  lemma MainLeavesWorkers(s: Scan)
    requires MainStep(s).Some? && !s.main.Destroying?
    ensures MainStep(s).value.pool.ws == s.pool.ws && MainStep(s).value.visited == s.visited
  {
  }

  lemma ServicePassesBy(fs: FileSystem, s: Scan, l: Label)
    requires Structure(fs, s) && Step(fs, s, l).Some? && (l.NotifierWork? || l.RecorderWork? || l.UserStop?)
    ensures PassesBy(fs, s, Step(fs, s, l).value)
  {
    ServiceFrame(fs, s, l);
    if l.NotifierWork? {
      NotifierLeavesRecorder(s);
    } else if l.RecorderWork? {
      RecorderLocks(s);
    }
  }

  lemma RecorderLocks(s: Scan)
    requires RecorderStep(s).Some? && (s.recorder.HoldsInfo() <==> s.infoLock == InfoRecorder)
    ensures RecorderStep(s).value.infoLock == s.infoLock || (!s.infoLock.InfoWorker? && !RecorderStep(s).value.infoLock.InfoWorker?)
  {
  }

  lemma OtherKeepsBlocks(fs: FileSystem, s: Scan, l: Label, dirs: seq<string>)
    requires Structure(fs, s) && InBlocks(fs, s, dirs) && JobsOf(fs, s.pool.ws, s.jobs)
    requires Step(fs, s, l).Some? && !l.WorkerWork?
    ensures
      var t := Step(fs, s, l).value;
      |t.pool.ws| == |t.jobs| && InBlocks(fs, t, dirs) && JobsOf(fs, t.pool.ws, t.jobs)
  {
    if l.WorkerWake? {
      WakeKeepsBlocks(fs, s, l, dirs);
    } else {
      OtherPassesBy(fs, s, l);
      PassingKeepsBlocks(fs, s, Step(fs, s, l).value, dirs);
    }
  }

  lemma OtherPassesBy(fs: FileSystem, s: Scan, l: Label)
    requires Structure(fs, s) && Step(fs, s, l).Some? && !l.WorkerWork? && !l.WorkerWake?
    ensures PassesBy(fs, s, Step(fs, s, l).value)
  {
    if l.MainWork? {
      MainPassesBy(fs, s);
    } else if l.NotifierWork? || l.RecorderWork? || l.UserStop? {
      ServicePassesBy(fs, s, l);
    }
  }

  /** Unless a user has stopped the scan, running_ is set while a task is in flight. */
  lemma BusyMeansRunning(fs: FileSystem, s: Scan, w: nat)
    requires Good(fs, s) && !s.stopped && w < |s.pool.ws| && s.pool.ws[w].Busy?
    ensures s.running
  {
    if s.main.Setup? {
      NothingPushed(s.pool);
    } else if HasStopped(s.notifier) {
      QuiescentNobodyWorks(s.pool.ws);
    }
  }

  lemma StepKeepsBlocks(fs: FileSystem, s: Scan, l: Label, dirs: seq<string>) returns (dirs': seq<string>)
    requires Good(fs, s) && !s.stopped && InBlocks(fs, s, dirs) && JobsOf(fs, s.pool.ws, s.jobs) && Step(fs, s, l).Some?
    ensures
      var t := Step(fs, s, l).value;
      |t.pool.ws| == |t.jobs| && InBlocks(fs, t, dirs') && JobsOf(fs, t.pool.ws, t.jobs)
  {
    dirs' := dirs;
    if !l.WorkerWork? {
      OtherKeepsBlocks(fs, s, l, dirs);
    } else if !s.pool.ws[l.w].Busy? {
      LoopKeepsBlocks(fs, s, l.w, dirs);
    } else {
      dirs' := JobKeepsBlocks(fs, s, l.w, dirs);
    }
  }

  lemma JobKeepsBlocks(fs: FileSystem, s: Scan, w: nat, dirs: seq<string>) returns (dirs': seq<string>)
    requires Good(fs, s) && !s.stopped && InBlocks(fs, s, dirs) && JobsOf(fs, s.pool.ws, s.jobs)
    requires w < |s.jobs| && s.pool.ws[w].Busy? && JobStep(fs, s, w).Some?
    ensures
      var t := JobStep(fs, s, w).value;
      |t.pool.ws| == |t.jobs| && InBlocks(fs, t, dirs') && JobsOf(fs, t.pool.ws, t.jobs)
  {
    dirs' := dirs;
    if s.jobs[w].Reads() {
      BusyMeansRunning(fs, s, w);
      ReadKeepsBlocks(fs, s, w, dirs);
    } else if s.jobs[w].Spreads() {
      SpreadKeepsBlocks(fs, s, w, dirs);
    } else if s.jobs[w].Return? {
      ReturnKeepsBlocks(fs, s, w, dirs);
    } else if RecordOne(fs, s.jobs[w]).next.Return? {
      EndKeepsBlocks(fs, s, w, dirs);
      dirs' := dirs + [s.pool.ws[w].task];
    } else {
      BlockKeepsBlocks(fs, s, w, dirs);
    }
  }

  // ----- Whole runs -----

  lemma {:induction false} NeverStopped(fs: FileSystem, s: Scan, labels: seq<Label>)
    requires Good(fs, s) && CanRun(fs, s, labels) && !Final(fs, s, labels).stopped
    ensures !s.stopped
    decreases |labels|
  {
    if labels != [] {
      StepKeepsGood(fs, s, labels[0]);
      StepKeepsStopped(fs, s, labels[0]);
      NeverStopped(fs, Step(fs, s, labels[0]).value, labels[1..]);
    }
  }

  lemma {:induction false} RunKeepsBlocks(fs: FileSystem, s: Scan, labels: seq<Label>, dirs: seq<string>) returns (dirs': seq<string>)
    requires Good(fs, s) && InBlocks(fs, s, dirs) && JobsOf(fs, s.pool.ws, s.jobs)
    requires CanRun(fs, s, labels) && !Final(fs, s, labels).stopped
    ensures
      var t := Final(fs, s, labels);
      |t.pool.ws| == |t.jobs| && InBlocks(fs, t, dirs')
    decreases |labels|
  {
    dirs' := dirs;
    if labels != [] {
      NeverStopped(fs, s, labels);
      dirs' := StepKeepsBlocks(fs, s, labels[0], dirs);
      StepKeepsGood(fs, s, labels[0]);
      dirs' := RunKeepsBlocks(fs, Step(fs, s, labels[0]).value, labels[1..], dirs');
    }
  }

  lemma InitInBlocks(fs: FileSystem, threads: nat)
    ensures InBlocks(fs, Init(threads), []) && JobsOf(fs, Init(threads).pool.ws, Init(threads).jobs)
  {
    var s := Init(threads);
    forall d
      ensures Handling(s.pool.ws, s.jobs, d) == 0
    {
      NobodyHandles(s.pool.ws, s.jobs, d);
    }
  }

  lemma SameVisits(a: multiset<string>, b: multiset<string>)
    requires forall d :: a[d] == b[d]
    ensures a == b
  {
  }

  /**
   When wait() returns and nobody has called stop(), the recorder has received the records directory by directory, in
   the order `dirs` in which their blocks were written: those of its files in the order of its entries, then those
   of its symlinks, with no other directory's in between.
   */
  lemma RecordsComeInBlocks(fs: FileSystem, threads: nat, labels: seq<Label>) returns (dirs: seq<string>)
    requires CanRun(fs, Init(threads), labels) && !Final(fs, Init(threads), labels).stopped
    requires Final(fs, Init(threads), labels).main.Waited? || Final(fs, Init(threads), labels).main.Destroying?
    ensures
      var s := Final(fs, Init(threads), labels);
      multiset(dirs) == s.visited && s.drained == RecordsOf(fs, dirs)
  {
    InitGood(fs, threads);
    RunKeepsGood(fs, Init(threads), labels);
    InitInBlocks(fs, threads);
    dirs := RunKeepsBlocks(fs, Init(threads), labels, []);
    var s := Final(fs, Init(threads), labels);
    WaitedMeansQuiescent(fs, s);
    QuiescentNobodyWorks(s.pool.ws);
    forall d
      ensures Handling(s.pool.ws, s.jobs, d) == 0
    {
      NobodyHandles(s.pool.ws, s.jobs, d);
    }
    SameVisits(multiset(dirs), s.visited);
    assert s.emplaced == RecordsOf(fs, dirs) + Begun(fs, s.infoLock, s.jobs) == RecordsOf(fs, dirs);
  }
}
