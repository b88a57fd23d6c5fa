/**
 The work a state of the scan still has to do.  Work is measured through a probe, which counts one
 thing at a time: the occurrences of one record, the visits of one directory, or the entries counted.
 So sums of work are sums of numbers, and two works are equal when every probe agrees on them.
 */
module ScanWork {
  import opened FileTree
  import opened ScanMachine
  import P = PoolMachine

  datatype Probe = OfRecord(r: Record) | OfVisit(path: string) | OfEntries

  function Weigh(pr: Probe, w: Work): nat {
    match pr
    case OfRecord(r) => w.records[r]
    case OfVisit(path) => w.visits[path]
    case OfEntries => w.entries
  }

  lemma WeighPlus(pr: Probe, a: Work, b: Work)
    ensures Weigh(pr, a.Plus(b)) == Weigh(pr, a) + Weigh(pr, b)
  {
  }

  lemma ProbesDecide(a: Work, b: Work)
    requires forall pr :: Weigh(pr, a) == Weigh(pr, b)
    ensures a == b
  {
    forall r: Record
      ensures a.records[r] == b.records[r]
    {
      assert Weigh(OfRecord(r), a) == Weigh(OfRecord(r), b);
    }
    forall p: string
      ensures a.visits[p] == b.visits[p]
    {
      assert Weigh(OfVisit(p), a) == Weigh(OfVisit(p), b);
    }
    assert Weigh(OfEntries, a) == Weigh(OfEntries, b);
  }

  lemma ProbesBound(a: Work, b: Work)
    requires forall pr :: Weigh(pr, a) <= Weigh(pr, b)
    ensures a.AtMost(b)
  {
    forall r: Record
      ensures a.records[r] <= b.records[r]
    {
      assert Weigh(OfRecord(r), a) <= Weigh(OfRecord(r), b);
    }
    forall p: string
      ensures a.visits[p] <= b.visits[p]
    {
      assert Weigh(OfVisit(p), a) <= Weigh(OfVisit(p), b);
    }
    assert Weigh(OfEntries, a) <= Weigh(OfEntries, b);
  }

  // ----- The weight of paths and records -----

  /** A probe on a file system, with the weight it gives to the walk of each path. */
  datatype Scale = Scale(fs: FileSystem, pr: Probe, path: string -> nat)

  ghost predicate Fair(sc: Scale) {
    forall p {:trigger sc.path(p)} :: sc.path(p) == Weigh(sc.pr, Walk(sc.fs, p))
  }

  ghost function ScaleOf(fs: FileSystem, pr: Probe): (sc: Scale)
    ensures Fair(sc) && sc.fs == fs && sc.pr == pr
  {
    Scale(fs, pr, (p: string) => Weigh(pr, Walk(fs, p)))
  }

  ghost function PathsWeight(sc: Scale, paths: seq<string>): nat {
    if paths == [] then 0
    else PathsWeight(sc, paths[..|paths| - 1]) + sc.path(paths[|paths| - 1])
  }

  function RecordsWeight(pr: Probe, records: seq<Record>): nat {
    if pr.OfRecord? then multiset(records)[pr.r] else 0
  }

  function VisitWeight(pr: Probe, path: string): nat {
    if pr.OfVisit? && pr.path == path then 1 else 0
  }

  function CountWeight(pr: Probe, n: nat): nat { if pr.OfEntries? then n else 0 }

  lemma {:induction false} PathsWeightIsWalkAll(sc: Scale, paths: seq<string>)
    requires Fair(sc)
    ensures PathsWeight(sc, paths) == Weigh(sc.pr, WalkAll(sc.fs, paths))
  {
    if paths != [] {
      var front, last := paths[..|paths| - 1], paths[|paths| - 1];
      PathsWeightIsWalkAll(sc, front);
      WeighPlus(sc.pr, WalkAll(sc.fs, front), Walk(sc.fs, last));
      assert WalkAll(sc.fs, paths) == WalkAll(sc.fs, front).Plus(Walk(sc.fs, last));
      assert sc.path(last) == Weigh(sc.pr, Walk(sc.fs, last));
    }
  }

  lemma PathsWeightSnoc(sc: Scale, paths: seq<string>, path: string)
    ensures PathsWeight(sc, paths + [path]) == PathsWeight(sc, paths) + sc.path(path)
  {
    assert (paths + [path])[..|paths|] == paths;
  }

  lemma {:induction false} PathsWeightFront(sc: Scale, paths: seq<string>)
    requires paths != []
    ensures PathsWeight(sc, paths) == sc.path(paths[0]) + PathsWeight(sc, paths[1..])
    decreases |paths|
  {
    var last := |paths| - 1;
    if last == 0 {
      assert paths[..last] == [] && paths[1..] == [];
    } else {
      PathsWeightFront(sc, paths[..last]);
      assert paths[1..] == paths[..last][1..] + [paths[last]];
      PathsWeightSnoc(sc, paths[..last][1..], paths[last]);
    }
  }

  lemma {:induction false} PathsWeightPrefix(sc: Scale, xs: seq<string>, ys: seq<string>)
    requires xs <= ys
    ensures PathsWeight(sc, xs) <= PathsWeight(sc, ys)
    decreases |ys|
  {
    if |xs| < |ys| {
      PathsWeightPrefix(sc, xs, ys[..|ys| - 1]);
    } else {
      assert xs == ys;
    }
  }

  lemma RecordsWeightAppend(pr: Probe, a: seq<Record>, b: seq<Record>)
    ensures RecordsWeight(pr, a + b) == RecordsWeight(pr, a) + RecordsWeight(pr, b)
  {
  }

  /** A listing that has been read: its entries, its records and its subdirectories. */
  ghost function ListingWeight(sc: Scale, out: Listing): nat {
    CountWeight(sc.pr, out.Size()) + RecordsWeight(sc.pr, OwnRecords(sc.fs, out)) + PathsWeight(sc, out.dirs)
  }

  lemma WalkWeight(sc: Scale, path: string)
    requires Fair(sc)
    ensures !ValidPath(path) ==> sc.path(path) == 0
    ensures ValidPath(path) ==> sc.path(path) == VisitWeight(sc.pr, path) + ListingWeight(sc, ListDir(sc.fs, path))
  {
    PathsWeightIsWalkAll(sc, ListDir(sc.fs, path).dirs);
  }

  // ----- Work still to do -----

  /** The path has been queued from this statement of push_task on. */
  predicate Handed(pc: PushPc) { pc.Queued? || pc.Tallied? || pc.Notifying? }

  function From<T>(xs: seq<T>, i: nat): seq<T> { if i <= |xs| then xs[i..] else [] }

  ghost function JobWeight(sc: Scale, job: Job): nat {
    match job
    case NoJob => 0
    case Enter(path) => sc.path(path)
    case Validate(path) => sc.path(path)
    case Reading(path, _, _) => ListingWeight(sc, ListDir(sc.fs, path))
    case Counting(out) => ListingWeight(sc, out)
    case DirLocking(out) => RecordsWeight(sc.pr, OwnRecords(sc.fs, out)) + PathsWeight(sc, out.dirs)
    case Pushing(pc, out, i) =>
      RecordsWeight(sc.pr, OwnRecords(sc.fs, out)) + PathsWeight(sc, From(out.dirs, if Handed(pc) then i + 1 else i))
    case DirUnlocking(out) => RecordsWeight(sc.pr, OwnRecords(sc.fs, out))
    case InfoLocking(out) => RecordsWeight(sc.pr, OwnRecords(sc.fs, out))
    case Files(out, i) => RecordsWeight(sc.pr, AllFileRecords(sc.fs, From(out.files, i)) + AllLinkRecords(sc.fs, out.links))
    case Links(out, i) => RecordsWeight(sc.pr, AllLinkRecords(sc.fs, From(out.links, i)))
    case Return => 0
  }

  /** A popped path is the worker's until do_scan has handed everything on. */
  ghost function WorkerWeight(sc: Scale, pc: P.WorkerPc<string>, job: Job): nat {
    if pc.Releasing? then sc.path(pc.task) else if pc.Busy? then JobWeight(sc, job) else 0
  }

  ghost function WorkersWeight(sc: Scale, ws: seq<P.WorkerPc<string>>, jobs: seq<Job>): nat
    requires |ws| == |jobs|
  {
    if ws == [] then 0
    else
      var last := |ws| - 1;
      WorkersWeight(sc, ws[..last], jobs[..last]) + WorkerWeight(sc, ws[last], jobs[last])
  }

  ghost function MainWeight(sc: Scale, main: MainPc, roots: seq<string>): nat {
    match main
    case Setup => PathsWeight(sc, roots)
    case StoreCount => PathsWeight(sc, roots)
    case Launching(pc, i) => PathsWeight(sc, From(roots, if Handed(pc) then i + 1 else i))
    case _ => 0
  }

  /** What the history variables say has been done. */
  function Done(s: Scan): Work { Work(multiset(s.emplaced), s.visited, s.entries) }

  /** Everything done and everything left, seen through one probe. */
  ghost function Total(sc: Scale, s: Scan): nat
    requires |s.pool.ws| == |s.jobs|
  {
    Weigh(sc.pr, Done(s)) + MainWeight(sc, s.main, s.roots) + PathsWeight(sc, s.pool.sh.tasks)
    + WorkersWeight(sc, s.pool.ws, s.jobs)
  }

  lemma {:induction false} WorkersUpdate(sc: Scale, ws: seq<P.WorkerPc<string>>, jobs: seq<Job>, w: nat,
                                         pc: P.WorkerPc<string>, job: Job)
    requires |ws| == |jobs| && w < |ws|
    ensures WorkersWeight(sc, ws[w := pc], jobs[w := job]) + WorkerWeight(sc, ws[w], jobs[w])
         == WorkersWeight(sc, ws, jobs) + WorkerWeight(sc, pc, job)
  {
    var last := |ws| - 1;
    if w < last {
      WorkersUpdate(sc, ws[..last], jobs[..last], w, pc, job);
      assert ws[w := pc][..last] == ws[..last][w := pc] && jobs[w := job][..last] == jobs[..last][w := job];
    } else {
      assert ws[w := pc][..last] == ws[..last] && jobs[w := job][..last] == jobs[..last];
    }
  }

  lemma {:induction false} WorkersPointwise(sc: Scale, ws: seq<P.WorkerPc<string>>, vs: seq<P.WorkerPc<string>>,
                                            jobs: seq<Job>)
    requires |ws| == |vs| == |jobs|
    requires forall w :: 0 <= w < |ws| ==> WorkerWeight(sc, ws[w], jobs[w]) == WorkerWeight(sc, vs[w], jobs[w])
    ensures WorkersWeight(sc, ws, jobs) == WorkersWeight(sc, vs, jobs)
  {
    if ws != [] {
      var last := |ws| - 1;
      assert forall w :: 0 <= w < last ==> ws[..last][w] == ws[w] && vs[..last][w] == vs[w] && jobs[..last][w] == jobs[w];
      WorkersPointwise(sc, ws[..last], vs[..last], jobs[..last]);
    }
  }

  lemma {:induction false} WorkersNone(sc: Scale, ws: seq<P.WorkerPc<string>>, jobs: seq<Job>)
    requires |ws| == |jobs|
    requires forall w :: 0 <= w < |ws| ==> !ws[w].Releasing? && !ws[w].Busy?
    ensures WorkersWeight(sc, ws, jobs) == 0
  {
    if ws != [] {
      WorkersNone(sc, ws[..|ws| - 1], jobs[..|ws| - 1]);
    }
  }
}
