/**
 Conservation of work: through every probe, what is done plus what is left stays the same at every
 step of every thread, except that a worker inside do_scan that finds running_ cleared drops work.
 */
module ScanConservation {
  import opened FileTree
  import opened ScanMachine
  import opened ScanWork
  import opened ScanInvariant
  import P = PoolMachine

  /** A worker is about to see running_ cleared, at the entry of do_scan or inside the readdir loop. */
  predicate Drops(fs: FileSystem, s: Scan, l: Label) {
    && l.WorkerWork? && l.w < |s.pool.ws| && l.w < |s.jobs| && s.pool.ws[l.w].Busy? && !s.running
    && (s.jobs[l.w].Enter? || (s.jobs[l.w].Reading? && s.jobs[l.w].path in fs.dirs && s.jobs[l.w].next < |fs.dirs[s.jobs[l.w].path]|))
  }

  // ----- Inside one directory -----

  lemma {:induction false} AllFilesPrefix(fs: FileSystem, xs: seq<string>, ys: seq<string>)
    requires xs <= ys
    ensures multiset(AllFileRecords(fs, xs)) <= multiset(AllFileRecords(fs, ys))
  {
    if xs != [] {
      AllFilesPrefix(fs, xs[1..], ys[1..]);
    }
  }

  lemma {:induction false} AllLinksPrefix(fs: FileSystem, xs: seq<string>, ys: seq<string>)
    requires xs <= ys
    ensures multiset(AllLinkRecords(fs, xs)) <= multiset(AllLinkRecords(fs, ys))
  {
    if xs != [] {
      AllLinksPrefix(fs, xs[1..], ys[1..]);
    }
  }

  /** What the first entries list is a prefix of what all entries list. */
  lemma {:induction false} ListPrefix(path: string, entries: seq<Entry>, k: nat)
    requires k <= |entries|
    ensures
      var some := ListEntries(path, entries[..k]);
      var all := ListEntries(path, entries);
      some.dirs <= all.dirs && some.files <= all.files && some.links <= all.links
  {
    if k < |entries| {
      ListPrefix(path, entries[..|entries| - 1], k);
      assert entries[..|entries| - 1][..k] == entries[..k];
    } else {
      assert entries[..k] == entries;
    }
  }

  lemma ListingWeightPrefix(sc: Scale, some: Listing, all: Listing)
    requires some.dirs <= all.dirs && some.files <= all.files && some.links <= all.links
    ensures ListingWeight(sc, some) <= ListingWeight(sc, all)
  {
    PathsWeightPrefix(sc, some.dirs, all.dirs);
    AllFilesPrefix(sc.fs, some.files, all.files);
    AllLinksPrefix(sc.fs, some.links, all.links);
    RecordsWeightAppend(sc.pr, AllFileRecords(sc.fs, some.files), AllLinkRecords(sc.fs, some.links));
    RecordsWeightAppend(sc.pr, AllFileRecords(sc.fs, all.files), AllLinkRecords(sc.fs, all.links));
  }

  lemma FromFront<T>(xs: seq<T>, i: nat)
    requires i < |xs|
    ensures From(xs, i) != [] && From(xs, i)[0] == xs[i] && From(xs, i)[1..] == From(xs, i + 1)
  {
  }

  ghost function ReadWeight(sc: Scale, r: ReadResult): nat {
    (if sc.pr.OfVisit? then r.visits[sc.pr.path] else 0) + CountWeight(sc.pr, r.counted) + JobWeight(sc, r.next)
  }

  ghost function RecordWeight(sc: Scale, r: RecordResult): nat {
    RecordsWeight(sc.pr, r.records) + JobWeight(sc, r.next)
  }

  lemma ValidateConserves(sc: Scale, running: bool, path: string)
    requires Fair(sc)
    ensures ReadWeight(sc, ReadOne(sc.fs, running, Validate(path))) == sc.path(path)
  {
    WalkWeight(sc, path);
    if ValidPath(path) && path !in sc.fs.dirs {
      assert ListDir(sc.fs, path) == NOTHING;
    }
  }

  /** Leaving the readdir loop early can only lose entries. */
  lemma ReadingDropsAtMost(sc: Scale, path: string, next: nat, out: Listing)
    requires JobFormed(sc.fs, Reading(path, next, out))
    ensures ListingWeight(sc, out) <= ListingWeight(sc, ListDir(sc.fs, path))
    ensures next == |sc.fs.dirs[path]| ==> out == ListDir(sc.fs, path)
  {
    ListPrefix(path, sc.fs.dirs[path], next);
    ListingWeightPrefix(sc, out, ListDir(sc.fs, path));
    assert sc.fs.dirs[path][..|sc.fs.dirs[path]|] == sc.fs.dirs[path];
  }

  lemma MovingOnWeight(sc: Scale, job: Job)
    ensures ReadWeight(sc, Read(job, multiset{}, 0)) == JobWeight(sc, job)
  {
  }

  lemma ReadingStops(sc: Scale, out: Listing)
    ensures ReadWeight(sc, Read(Counting(out), multiset{}, 0)) == ListingWeight(sc, out)
  {
    MovingOnWeight(sc, Counting(out));
  }

  lemma ReadingGoesOn(sc: Scale, path: string, next: nat, out: Listing)
    ensures ReadWeight(sc, Read(Reading(path, next, out), multiset{}, 0)) == ListingWeight(sc, ListDir(sc.fs, path))
  {
    MovingOnWeight(sc, Reading(path, next, out));
  }

  lemma ReadingConserves(sc: Scale, running: bool, path: string, next: nat, out: Listing)
    requires JobFormed(sc.fs, Reading(path, next, out))
    ensures ReadWeight(sc, ReadOne(sc.fs, running, Reading(path, next, out))) <= ListingWeight(sc, ListDir(sc.fs, path))
    ensures running || next == |sc.fs.dirs[path]| ==>
      ReadWeight(sc, ReadOne(sc.fs, running, Reading(path, next, out))) == ListingWeight(sc, ListDir(sc.fs, path))
  {
    ReadingDropsAtMost(sc, path, next, out);
    if next == |sc.fs.dirs[path]| || !running {
      ReadingStops(sc, out);
    } else {
      ReadingGoesOn(sc, path, next + 1, Classify(path, sc.fs.dirs[path][next], out));
    }
  }

  lemma EnterConserves(sc: Scale, running: bool, path: string)
    ensures ReadWeight(sc, ReadOne(sc.fs, running, Enter(path))) == if running then sc.path(path) else 0
  {
  }

  lemma CountingConserves(sc: Scale, running: bool, out: Listing)
    ensures ReadWeight(sc, ReadOne(sc.fs, running, Counting(out))) == ListingWeight(sc, out)
  {
  }

  /** A statement up to the count conserves the weight, unless it drops some because running_ is clear. */
  lemma ReadConserves(sc: Scale, running: bool, job: Job)
    requires Fair(sc) && job.Reads() && JobFormed(sc.fs, job)
    ensures ReadWeight(sc, ReadOne(sc.fs, running, job)) <= JobWeight(sc, job)
    ensures running || job.Validate? || job.Counting? || (job.Reading? && job.next == |sc.fs.dirs[job.path]|) ==>
      ReadWeight(sc, ReadOne(sc.fs, running, job)) == JobWeight(sc, job)
  {
    match job
    case Enter(path) => EnterConserves(sc, running, path);
    case Validate(path) => ValidateConserves(sc, running, path);
    case Reading(path, next, out) => ReadingConserves(sc, running, path, next, out);
    case Counting(out) => CountingConserves(sc, running, out);
  }

  /** A statement under file_info_mutex_ moves weight from what is to be recorded to what has been. */
  ghost predicate RecordKept(sc: Scale, job: Job)
    requires job.Records()
  {
    RecordWeight(sc, RecordOne(sc.fs, job)) == JobWeight(sc, job)
  }

  lemma FilesFront(fs: FileSystem, files: seq<string>, i: nat)
    requires i < |files|
    ensures AllFileRecords(fs, From(files, i)) == FileRecords(fs, files[i]) + AllFileRecords(fs, From(files, i + 1))
  {
    FromFront(files, i);
  }

  lemma LinksFront(fs: FileSystem, links: seq<string>, i: nat)
    requires i < |links|
    ensures AllLinkRecords(fs, From(links, i)) == LinkRecords(fs, links[i]) + AllLinkRecords(fs, From(links, i + 1))
  {
    FromFront(links, i);
  }

  lemma ThreeParts(pr: Probe, a: seq<Record>, b: seq<Record>, c: seq<Record>)
    ensures RecordsWeight(pr, (a + b) + c) == RecordsWeight(pr, a) + RecordsWeight(pr, b + c)
  {
    RecordsWeightAppend(pr, a, b);
    RecordsWeightAppend(pr, a + b, c);
    RecordsWeightAppend(pr, b, c);
  }

  lemma NextFileWeight(sc: Scale, out: Listing, i: nat)
    requires i < |out.files|
    ensures JobWeight(sc, Files(out, i)) == RecordsWeight(sc.pr, FileRecords(sc.fs, out.files[i])) + JobWeight(sc, Files(out, i + 1))
  {
    FilesFront(sc.fs, out.files, i);
    ThreeParts(sc.pr, FileRecords(sc.fs, out.files[i]), AllFileRecords(sc.fs, From(out.files, i + 1)), AllLinkRecords(sc.fs, out.links));
  }

  lemma LastFileWeight(sc: Scale, out: Listing)
    ensures JobWeight(sc, Files(out, |out.files|)) == JobWeight(sc, Links(out, 0))
  {
    assert From(out.files, |out.files|) == [] && From(out.links, 0) == out.links;
    assert [] + AllLinkRecords(sc.fs, out.links) == AllLinkRecords(sc.fs, out.links);
  }

  lemma NoRecordsWeighNothing(pr: Probe)
    ensures RecordsWeight(pr, []) == 0
  {
  }

  lemma FilesConserve(sc: Scale, out: Listing, i: nat)
    requires i <= |out.files|
    ensures RecordKept(sc, Files(out, i))
  {
    if i < |out.files| {
      NextFileWeight(sc, out, i);
    } else {
      LastFileWeight(sc, out);
      NoRecordsWeighNothing(sc.pr);
    }
  }

  lemma NextLinkWeight(sc: Scale, out: Listing, i: nat)
    requires i < |out.links|
    ensures JobWeight(sc, Links(out, i)) == RecordsWeight(sc.pr, LinkRecords(sc.fs, out.links[i])) + JobWeight(sc, Links(out, i + 1))
  {
    LinksFront(sc.fs, out.links, i);
    RecordsWeightAppend(sc.pr, LinkRecords(sc.fs, out.links[i]), AllLinkRecords(sc.fs, From(out.links, i + 1)));
  }

  lemma LastLinkWeight(sc: Scale, out: Listing)
    ensures JobWeight(sc, Links(out, |out.links|)) == JobWeight(sc, Return)
  {
    assert From(out.links, |out.links|) == [];
    NoRecordsWeighNothing(sc.pr);
  }

  lemma LinksConserve(sc: Scale, out: Listing, i: nat)
    requires i <= |out.links|
    ensures RecordKept(sc, Links(out, i))
  {
    if i < |out.links| {
      NextLinkWeight(sc, out, i);
    } else {
      LastLinkWeight(sc, out);
      NoRecordsWeighNothing(sc.pr);
    }
  }

  lemma FirstFileWeight(sc: Scale, out: Listing)
    ensures JobWeight(sc, InfoLocking(out)) == JobWeight(sc, Files(out, 0))
  {
    assert From(out.files, 0) == out.files;
  }

  lemma InfoLockingConserves(sc: Scale, out: Listing)
    ensures RecordKept(sc, InfoLocking(out))
  {
    FirstFileWeight(sc, out);
    NoRecordsWeighNothing(sc.pr);
  }

  lemma RecordConserves(sc: Scale, job: Job)
    requires job.Records() && JobFormed(sc.fs, job)
    ensures RecordKept(sc, job)
  {
    match job
    case InfoLocking(out) => InfoLockingConserves(sc, out);
    case Files(out, i) => FilesConserve(sc, out, i);
    case Links(out, i) => LinksConserve(sc, out, i);
  }

  // ----- Handing subdirectories and roots to the queue -----

  /** What each statement of push_task does to the queue. */
  lemma PushShape(p: P.Pool<string>, pc: PushPc, client: nat, path: string)
    requires PushPool(p, pc, client, path).Some?
    ensures PushPool(p, pc, client, path).value.sh.tasks == if pc.Entered? then p.sh.tasks + [path] else p.sh.tasks
    ensures PushPool(p, pc, client, path).value.ws == p.ws
  {
  }

  /** A push moves one path from the pusher to the queue, between Entered and Queued. */
  lemma PushWeight(sc: Scale, tasks: seq<string>, tasks': seq<string>, pc: PushPc, paths: seq<string>, i: nat)
    requires i < |paths| && !pc.Notifying? && tasks' == if pc.Entered? then tasks + [paths[i]] else tasks
    ensures
      PathsWeight(sc, tasks') + PathsWeight(sc, From(paths, if Handed(NextPushPc(pc)) then i + 1 else i))
      == PathsWeight(sc, tasks) + PathsWeight(sc, From(paths, if Handed(pc) then i + 1 else i))
  {
    if pc.Entered? {
      PathsWeightSnoc(sc, tasks, paths[i]);
      FromFront(paths, i);
      PathsWeightFront(sc, From(paths, i));
    }
  }

  lemma SpreadShape(s: Scan, w: nat)
    requires w < |s.jobs| && s.jobs[w].Spreads() && SpreadStep(s, w).Some?
    ensures
      var t := SpreadStep(s, w).value;
      && |t.jobs| == |s.jobs| && Done(t) == Done(s)
      && t.pool.sh.tasks == (if s.jobs[w].Pushing? && s.jobs[w].pc.Entered? && s.jobs[w].i < |s.jobs[w].out.dirs|
                             then s.pool.sh.tasks + [s.jobs[w].out.dirs[s.jobs[w].i]] else s.pool.sh.tasks)
  {
  }

  function SpreadNext(job: Job): Job
    requires job.Spreads()
  {
    match job
    case DirLocking(out) => PushFrom(out, 0)
    case Pushing(pc, out, i) => if pc.Notifying? then PushFrom(out, i + 1) else Pushing(NextPushPc(pc), out, i)
    case DirUnlocking(out) => InfoLocking(out)
  }

  lemma SpreadGoes(s: Scan, w: nat)
    requires w < |s.jobs| && s.jobs[w].Spreads() && SpreadStep(s, w).Some?
    ensures |SpreadStep(s, w).value.jobs| == |s.jobs| && SpreadStep(s, w).value.jobs[w] == SpreadNext(s.jobs[w])
    ensures s.jobs[w].Pushing? ==> s.jobs[w].i < |s.jobs[w].out.dirs|
  {
  }

  /** A statement under dir_mutex_ moves weight from the worker to the queue. */
  ghost predicate SpreadKept(sc: Scale, job: Job, tasks: seq<string>, tasks': seq<string>)
    requires job.Spreads()
  {
    JobWeight(sc, SpreadNext(job)) + PathsWeight(sc, tasks') == JobWeight(sc, job) + PathsWeight(sc, tasks)
  }

  /** At the head of the loop the subdirectories from i on are still to be pushed. */
  lemma PushFromWeight(sc: Scale, out: Listing, i: nat)
    requires i <= |out.dirs|
    ensures JobWeight(sc, PushFrom(out, i)) == JobWeight(sc, DirUnlocking(out)) + PathsWeight(sc, From(out.dirs, i))
  {
    if i == |out.dirs| {
      assert From(out.dirs, i) == [];
    }
  }

  lemma PushingWeight(sc: Scale, pc: PushPc, out: Listing, i: nat)
    ensures
      JobWeight(sc, Pushing(pc, out, i))
      == JobWeight(sc, DirUnlocking(out)) + PathsWeight(sc, From(out.dirs, if Handed(pc) then i + 1 else i))
  {
  }

  lemma NotifyingConserves(sc: Scale, out: Listing, i: nat, tasks: seq<string>)
    requires i < |out.dirs|
    ensures SpreadKept(sc, Pushing(Notifying, out, i), tasks, tasks)
  {
    PushFromWeight(sc, out, i + 1);
    PushingWeight(sc, Notifying, out, i);
  }

  lemma PushingConserves(sc: Scale, pc: PushPc, out: Listing, i: nat, tasks: seq<string>, tasks': seq<string>)
    requires i < |out.dirs| && !pc.Notifying? && tasks' == if pc.Entered? then tasks + [out.dirs[i]] else tasks
    ensures SpreadKept(sc, Pushing(pc, out, i), tasks, tasks')
  {
    PushWeight(sc, tasks, tasks', pc, out.dirs, i);
    PushingWeight(sc, pc, out, i);
    PushingWeight(sc, NextPushPc(pc), out, i);
  }

  lemma DirLockingConserves(sc: Scale, out: Listing, tasks: seq<string>)
    ensures SpreadKept(sc, DirLocking(out), tasks, tasks)
  {
    PushFromWeight(sc, out, 0);
    assert From(out.dirs, 0) == out.dirs;
  }

  lemma DirUnlockingConserves(sc: Scale, out: Listing, tasks: seq<string>)
    ensures SpreadKept(sc, DirUnlocking(out), tasks, tasks)
  {
  }

  lemma SpreadConserves(sc: Scale, job: Job, tasks: seq<string>, tasks': seq<string>)
    requires job.Spreads() && (job.Pushing? ==> job.i < |job.out.dirs|)
    requires tasks' == if job.Pushing? && job.pc.Entered? then tasks + [job.out.dirs[job.i]] else tasks
    ensures SpreadKept(sc, job, tasks, tasks')
  {
    match job
    case DirLocking(out) => DirLockingConserves(sc, out, tasks);
    case Pushing(pc, out, i) =>
      if pc.Notifying? { NotifyingConserves(sc, out, i, tasks); } else { PushingConserves(sc, pc, out, i, tasks, tasks'); }
    case DirUnlocking(out) => DirUnlockingConserves(sc, out, tasks);
  }
}
