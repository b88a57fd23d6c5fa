/**
 A measure of the work left in the scan: it never grows, and every statement of a thread that has
 work to do makes it smaller.
 */
module ScanMeasure {
  import opened FileTree
  import opened ScanMachine
  import opened ScanWork
  import opened ScanConservation
  import opened ScanInvariant
  import P = PoolMachine

  // ----- The cost of a directory -----

  function EntryCount(fs: FileSystem, path: string): nat { if path in fs.dirs then |fs.dirs[path]| else 0 }

  /** A bound on the statements of do_scan on `path` and on everything below it. */
  ghost function DirCost(fs: FileSystem, path: string): nat
    decreases Rank(fs, path), 1, 0
  {
    if !ValidPath(path) then 3
    else if path !in fs.dirs then 10
    else
      ChildrenRankLower(fs, path);
      var out := ListDir(fs, path);
      EntryCount(fs, path) + |out.files| + |out.links| + 5 * |out.dirs| + DirsCost(fs, out.dirs) + 10
  }

  /** The same for a list of paths, with the five statements a worker needs around do_scan. */
  ghost function DirsCost(fs: FileSystem, paths: seq<string>): nat
    decreases MaxRank(fs, paths), 2, |paths|
  {
    if paths == [] then 0 else DirsCost(fs, paths[..|paths| - 1]) + DirCost(fs, paths[|paths| - 1]) + 5
  }

  datatype Tariff = Tariff(fs: FileSystem, dir: string -> nat)

  ghost predicate Fixed(tf: Tariff) {
    forall p {:trigger tf.dir(p)} :: tf.dir(p) == DirCost(tf.fs, p)
  }

  ghost function TariffOf(fs: FileSystem): (tf: Tariff)
    ensures Fixed(tf) && tf.fs == fs
  {
    Tariff(fs, (p: string) => DirCost(fs, p))
  }

  ghost function PathsCost(tf: Tariff, paths: seq<string>): nat {
    if paths == [] then 0 else PathsCost(tf, paths[..|paths| - 1]) + tf.dir(paths[|paths| - 1]) + 5
  }

  lemma {:induction false} PathsCostIsDirsCost(tf: Tariff, paths: seq<string>)
    requires Fixed(tf)
    ensures PathsCost(tf, paths) == DirsCost(tf.fs, paths)
  {
    if paths != [] {
      var front, last := paths[..|paths| - 1], paths[|paths| - 1];
      PathsCostIsDirsCost(tf, front);
      assert tf.dir(last) == DirCost(tf.fs, last);
      assert DirsCost(tf.fs, paths) == DirsCost(tf.fs, front) + DirCost(tf.fs, last) + 5;
    }
  }

  lemma PathsCostSnoc(tf: Tariff, paths: seq<string>, path: string)
    ensures PathsCost(tf, paths + [path]) == PathsCost(tf, paths) + tf.dir(path) + 5
  {
    assert (paths + [path])[..|paths|] == paths;
  }

  lemma {:induction false} PathsCostFront(tf: Tariff, paths: seq<string>)
    requires paths != []
    ensures PathsCost(tf, paths) == tf.dir(paths[0]) + 5 + PathsCost(tf, paths[1..])
    decreases |paths|
  {
    var last := |paths| - 1;
    if last == 0 {
      assert paths[..last] == [] && paths[1..] == [];
    } else {
      PathsCostFront(tf, paths[..last]);
      assert paths[1..] == paths[..last][1..] + [paths[last]];
      PathsCostSnoc(tf, paths[..last][1..], paths[last]);
    }
  }

  lemma {:induction false} PathsCostPrefix(tf: Tariff, xs: seq<string>, ys: seq<string>)
    requires xs <= ys
    ensures PathsCost(tf, xs) <= PathsCost(tf, ys)
    decreases |ys|
  {
    if |xs| < |ys| {
      PathsCostPrefix(tf, xs, ys[..|ys| - 1]);
    } else {
      assert xs == ys;
    }
  }

  // ----- The cost of each statement -----

  /** From the count of a listing to the return of do_scan. */
  ghost function ListingCost(tf: Tariff, out: Listing): nat {
    |out.files| + |out.links| + 5 * |out.dirs| + PathsCost(tf, out.dirs) + 7
  }

  function PushRank(pc: PushPc): nat {
    match pc
    case Locking => 5
    case Entered => 4
    case Queued => 3
    case Tallied => 2
    case Notifying => 1
  }

  /** The pushes of paths[i..], the one of paths[i] being at statement pc. */
  ghost function PushesCost(tf: Tariff, pc: PushPc, paths: seq<string>, i: nat): nat
    requires i < |paths|
  {
    PushRank(pc) + 5 * (|paths| - i - 1) + PathsCost(tf, From(paths, if Handed(pc) then i + 1 else i))
  }

  ghost function JobCost(tf: Tariff, job: Job): nat {
    match job
    case NoJob => 0
    case Enter(path) => tf.dir(path)
    case Validate(path) => if ValidPath(path) then EntryCount(tf.fs, path) + ListingCost(tf, ListDir(tf.fs, path)) + 2 else 2
    case Reading(path, next, _) =>
      (if next <= EntryCount(tf.fs, path) then EntryCount(tf.fs, path) - next else 0) + ListingCost(tf, ListDir(tf.fs, path)) + 1
    case Counting(out) => ListingCost(tf, out)
    case DirLocking(out) => |out.files| + |out.links| + 5 * |out.dirs| + PathsCost(tf, out.dirs) + 6
    case Pushing(pc, out, i) => |out.files| + |out.links| + 5 + (if i < |out.dirs| then PushesCost(tf, pc, out.dirs, i) else 0)
    case DirUnlocking(out) => |out.files| + |out.links| + 5
    case InfoLocking(out) => |out.files| + |out.links| + 4
    case Files(out, i) => (if i <= |out.files| then |out.files| - i else 0) + |out.links| + 3
    case Links(out, i) => (if i <= |out.links| then |out.links| - i else 0) + 2
    case Return => 1
  }

  ghost function WorkerCost(tf: Tariff, pc: P.WorkerPc<string>, job: Job): nat {
    match pc
    case Releasing(path) => tf.dir(path) + 4
    case Busy(_) => JobCost(tf, job) + 3
    case Relocking => 3
    case Decrement => 2
    case NotifyTest => 1
    case _ => 0
  }

  ghost function WorkersCost(tf: Tariff, ws: seq<P.WorkerPc<string>>, jobs: seq<Job>): nat
    requires |ws| == |jobs|
  {
    if ws == [] then 0
    else
      var last := |ws| - 1;
      WorkersCost(tf, ws[..last], jobs[..last]) + WorkerCost(tf, ws[last], jobs[last])
  }

  ghost function MainCost(tf: Tariff, main: MainPc, roots: seq<string>): nat {
    match main
    case Setup => 5 * |roots| + PathsCost(tf, roots) + 4
    case StoreCount => 5 * |roots| + PathsCost(tf, roots) + 3
    case Launching(pc, i) => 2 + (if i < |roots| then PushesCost(tf, pc, roots, i) else 0)
    case StartRecorder => 2
    case StartNotifier => 1
    case _ => 0
  }

  ghost function WorkLeft(tf: Tariff, s: Scan): nat
    requires |s.pool.ws| == |s.jobs|
  {
    MainCost(tf, s.main, s.roots) + PathsCost(tf, s.pool.sh.tasks) + WorkersCost(tf, s.pool.ws, s.jobs)
  }

  lemma {:induction false} WorkersCostUpdate(tf: Tariff, ws: seq<P.WorkerPc<string>>, jobs: seq<Job>, w: nat,
                                             pc: P.WorkerPc<string>, job: Job)
    requires |ws| == |jobs| && w < |ws|
    ensures WorkersCost(tf, ws[w := pc], jobs[w := job]) + WorkerCost(tf, ws[w], jobs[w])
         == WorkersCost(tf, ws, jobs) + WorkerCost(tf, pc, job)
  {
    var last := |ws| - 1;
    if w < last {
      WorkersCostUpdate(tf, ws[..last], jobs[..last], w, pc, job);
      assert ws[w := pc][..last] == ws[..last][w := pc] && jobs[w := job][..last] == jobs[..last][w := job];
    } else {
      assert ws[w := pc][..last] == ws[..last] && jobs[w := job][..last] == jobs[..last];
    }
  }

  lemma {:induction false} WorkersCostPointwise(tf: Tariff, ws: seq<P.WorkerPc<string>>, vs: seq<P.WorkerPc<string>>, jobs: seq<Job>)
    requires |ws| == |vs| == |jobs|
    requires forall w :: 0 <= w < |ws| ==> WorkerCost(tf, ws[w], jobs[w]) == WorkerCost(tf, vs[w], jobs[w])
    ensures WorkersCost(tf, ws, jobs) == WorkersCost(tf, vs, jobs)
  {
    if ws != [] {
      var last := |ws| - 1;
      assert forall w :: 0 <= w < last ==> ws[..last][w] == ws[w] && vs[..last][w] == vs[w] && jobs[..last][w] == jobs[w];
      WorkersCostPointwise(tf, ws[..last], vs[..last], jobs[..last]);
    }
  }

  // ----- do_scan -----

  lemma DirCostOpened(tf: Tariff, path: string)
    requires Fixed(tf)
    ensures tf.dir(path) == JobCost(tf, Validate(path)) + 1
  {
    assert tf.dir(path) == DirCost(tf.fs, path);
    PathsCostIsDirsCost(tf, ListDir(tf.fs, path).dirs);
  }

  lemma EnterCheaper(tf: Tariff, running: bool, path: string)
    requires Fixed(tf)
    ensures JobCost(tf, ReadOne(tf.fs, running, Enter(path)).next) < JobCost(tf, Enter(path))
  {
    DirCostOpened(tf, path);
  }

  lemma ValidateCheaper(tf: Tariff, running: bool, path: string)
    ensures JobCost(tf, ReadOne(tf.fs, running, Validate(path)).next) < JobCost(tf, Validate(path))
  {
    if ValidPath(path) && path !in tf.fs.dirs {
      assert ListDir(tf.fs, path) == NOTHING;
    }
  }

  lemma ListingCostPrefix(tf: Tariff, some: Listing, all: Listing)
    requires some.dirs <= all.dirs && some.files <= all.files && some.links <= all.links
    ensures ListingCost(tf, some) <= ListingCost(tf, all)
  {
    PathsCostPrefix(tf, some.dirs, all.dirs);
  }

  lemma ReadingCheaper(tf: Tariff, running: bool, path: string, next: nat, out: Listing)
    requires JobFormed(tf.fs, Reading(path, next, out))
    ensures JobCost(tf, ReadOne(tf.fs, running, Reading(path, next, out)).next) < JobCost(tf, Reading(path, next, out))
  {
    ListPrefix(path, tf.fs.dirs[path], next);
    ListingCostPrefix(tf, out, ListDir(tf.fs, path));
  }

  lemma ReadCheaper(tf: Tariff, running: bool, job: Job)
    requires Fixed(tf) && job.Reads() && JobFormed(tf.fs, job)
    ensures JobCost(tf, ReadOne(tf.fs, running, job).next) < JobCost(tf, job)
  {
    match job
    case Enter(path) => EnterCheaper(tf, running, path);
    case Validate(path) => ValidateCheaper(tf, running, path);
    case Reading(path, next, out) => ReadingCheaper(tf, running, path, next, out);
    case Counting(out) =>
  }

  lemma RecordCheaper(tf: Tariff, job: Job)
    requires job.Records() && JobFormed(tf.fs, job)
    ensures JobCost(tf, RecordOne(tf.fs, job).next) < JobCost(tf, job)
  {
  }

  /** One statement of push_task, the queue included. */
  lemma PushCheaper(tf: Tariff, tasks: seq<string>, tasks': seq<string>, pc: PushPc, paths: seq<string>, i: nat)
    requires i < |paths| && !pc.Notifying? && tasks' == if pc.Entered? then tasks + [paths[i]] else tasks
    ensures PushesCost(tf, NextPushPc(pc), paths, i) + PathsCost(tf, tasks') < PushesCost(tf, pc, paths, i) + PathsCost(tf, tasks)
  {
    if pc.Entered? {
      PathsCostSnoc(tf, tasks, paths[i]);
      FromFront(paths, i);
      PathsCostFront(tf, From(paths, i));
    }
  }

  lemma PushFromCheaper(tf: Tariff, out: Listing, i: nat)
    requires i < |out.dirs|
    ensures JobCost(tf, PushFrom(out, i + 1)) < JobCost(tf, Pushing(Notifying, out, i))
  {
  }

  lemma PushingCost(tf: Tariff, pc: PushPc, out: Listing, i: nat)
    requires i < |out.dirs|
    ensures JobCost(tf, Pushing(pc, out, i)) == |out.files| + |out.links| + 5 + PushesCost(tf, pc, out.dirs, i)
  {
  }

  lemma PushingCheaper(tf: Tariff, pc: PushPc, out: Listing, i: nat, tasks: seq<string>, tasks': seq<string>)
    requires i < |out.dirs| && !pc.Notifying? && tasks' == if pc.Entered? then tasks + [out.dirs[i]] else tasks
    ensures JobCost(tf, Pushing(NextPushPc(pc), out, i)) + PathsCost(tf, tasks') < JobCost(tf, Pushing(pc, out, i)) + PathsCost(tf, tasks)
  {
    PushCheaper(tf, tasks, tasks', pc, out.dirs, i);
    PushingCost(tf, pc, out, i);
    PushingCost(tf, NextPushPc(pc), out, i);
  }

  lemma DirLockingCheaper(tf: Tariff, out: Listing)
    ensures JobCost(tf, PushFrom(out, 0)) < JobCost(tf, DirLocking(out))
  {
    assert From(out.dirs, 0) == out.dirs;
  }

  lemma SpreadCheaper(tf: Tariff, job: Job, tasks: seq<string>, tasks': seq<string>)
    requires job.Spreads() && (job.Pushing? ==> job.i < |job.out.dirs|)
    requires tasks' == if job.Pushing? && job.pc.Entered? then tasks + [job.out.dirs[job.i]] else tasks
    ensures JobCost(tf, SpreadNext(job)) + PathsCost(tf, tasks') < JobCost(tf, job) + PathsCost(tf, tasks)
  {
    match job
    case DirLocking(out) => DirLockingCheaper(tf, out);
    case Pushing(pc, out, i) =>
      if pc.Notifying? { PushFromCheaper(tf, out, i); } else { PushingCheaper(tf, pc, out, i, tasks, tasks'); }
    case DirUnlocking(out) =>
  }
}
