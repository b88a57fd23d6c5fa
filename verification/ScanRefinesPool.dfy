/** Seen through its pool, every run of the scan is a run of the pool machine, so all of the pool's promises hold for it. */
module ScanRefinesPool {
  import opened Wrappers
  import opened FileTree
  import opened ScanMachine
  import P = PoolMachine
  import I = PoolInvariant

  function PushLabel(pc: PushPc, client: nat, path: string): Option<P.Label<string>> {
    match pc
    case Locking => Some(P.PushLock(client))
    case Entered => Some(P.PushQueue(path))
    case Queued => Some(P.PushCount)
    case Tallied => Some(P.PushUnlock)
    case Notifying => None
  }

  function MainPoolLabel(s: Scan): Option<P.Label<string>> {
    match s.main
    case Launching(pc, i) => if i < |s.roots| then PushLabel(pc, |s.pool.ws|, s.roots[i]) else None
    case Waited => Some(P.StartWait(true))
    case Destroying => Some(P.OwnerWork)
    case _ => None
  }

  function WorkerPoolLabel(s: Scan, w: nat): Option<P.Label<string>> {
    if w >= |s.pool.ws| || w >= |s.jobs| then None
    else if !s.pool.ws[w].Busy? then Some(P.Work(w))
    else match s.jobs[w]
      case Pushing(pc, out, i) => if i < |out.dirs| then PushLabel(pc, w, out.dirs[i]) else None
      case Return => Some(P.TaskEnds(w))
      case _ => None
  }

  /** The pool step that a step of the scan performs, if any. */
  function PoolLabel(s: Scan, l: Label): Option<P.Label<string>> {
    match l
    case AddPath(_) => None
    case MainWork => MainPoolLabel(s)
    case MainWake => Some(P.WakeOwner)
    case WorkerWork(w) => WorkerPoolLabel(s, w)
    case WorkerWake(w, timedOut) => Some(P.Wake(w, timedOut))
    case NotifierWork => if s.notifier.StopPause? then Some(P.Pause) else None
    case RecorderWork => None
    case UserStop => if s.user.UserPausing? then Some(P.Pause) else None
  }

  /** The pool of `after` is the pool of `before` after that pool step. */
  predicate PoolFollows(before: P.Pool<string>, pl: Option<P.Label<string>>, after: P.Pool<string>) {
    match pl
    case None => after == before
    case Some(pl) => P.Step(before, pl) == Some(after)
  }

  lemma JobRefines(fs: FileSystem, s: Scan, w: nat)
    requires w < |s.pool.ws| && w < |s.jobs| && s.pool.ws[w].Busy? && JobStep(fs, s, w).Some?
    ensures PoolFollows(s.pool, WorkerPoolLabel(s, w), JobStep(fs, s, w).value.pool)
  {
    match s.jobs[w]
    case Pushing(pc, out, i) =>
    case Return =>
    case _ =>
  }

  lemma MainRefines(s: Scan)
    requires MainStep(s).Some?
    ensures PoolFollows(s.pool, MainPoolLabel(s), MainStep(s).value.pool)
  {
  }

  lemma StepRefines(fs: FileSystem, s: Scan, l: Label)
    requires Step(fs, s, l).Some?
    ensures PoolFollows(s.pool, PoolLabel(s, l), Step(fs, s, l).value.pool)
  {
    match l
    case MainWork => MainRefines(s);
    case WorkerWork(w) => if s.pool.ws[w].Busy? { JobRefines(fs, s, w); }
    case _ =>
  }

  lemma StepKeepsPoolInv(fs: FileSystem, s: Scan, l: Label)
    requires I.Inv(s.pool) && Step(fs, s, l).Some?
    ensures I.Inv(Step(fs, s, l).value.pool)
  {
    StepRefines(fs, s, l);
    if PoolLabel(s, l).Some? {
      I.StepKeepsInv(s.pool, PoolLabel(s, l).value);
    }
  }

  /** The pool steps of a run, in order. */
  function PoolLabels(fs: FileSystem, s: Scan, labels: seq<Label>): seq<P.Label<string>>
    requires CanRun(fs, s, labels)
    decreases |labels|
  {
    if labels == [] then []
    else
      var rest := PoolLabels(fs, Step(fs, s, labels[0]).value, labels[1..]);
      if PoolLabel(s, labels[0]).Some? then [PoolLabel(s, labels[0]).value] + rest else rest
  }

  lemma {:induction false} ScanRunIsPoolRun(fs: FileSystem, s: Scan, labels: seq<Label>)
    requires CanRun(fs, s, labels)
    ensures P.CanRun(s.pool, PoolLabels(fs, s, labels))
    ensures P.Final(s.pool, PoolLabels(fs, s, labels)) == Final(fs, s, labels).pool
    decreases |labels|
  {
    if labels != [] {
      StepRefines(fs, s, labels[0]);
      ScanRunIsPoolRun(fs, Step(fs, s, labels[0]).value, labels[1..]);
      var rest := PoolLabels(fs, Step(fs, s, labels[0]).value, labels[1..]);
      if PoolLabel(s, labels[0]).Some? {
        var all := [PoolLabel(s, labels[0]).value] + rest;
        assert all[1..] == rest;
      }
    }
  }
}
