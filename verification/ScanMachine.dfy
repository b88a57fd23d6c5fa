/**
 The scan of Linux/scan_engine/scan_private.cpp on top of the worker pool, as a transition system:
 the main thread (launch, wait, then the destructor of the pool), the workers inside do_scan, the
 notifier, the recorder, and a user who may call stop() at any time.  One step is one access to
 shared memory or one lock operation; the pool's own steps are those of PoolMachine.
 */
module ScanMachine {
  import opened Wrappers
  import opened FileTree
  import P = PoolMachine

  /** The next statement inside push_task. */
  datatype PushPc = Locking | Entered | Queued | Tallied | Notifying

  function NextPushPc(pc: PushPc): PushPc
    requires !pc.Notifying?
  {
    match pc
    case Locking => Entered
    case Entered => Queued
    case Queued => Tallied
    case Tallied => Notifying
  }

  /** The next statement of do_scan; NoJob outside do_scan. */
  datatype Job =
    | NoJob
    | Enter(path: string)                              // read running_
    | Validate(path: string)                           // valid_path
    | Reading(path: string, next: nat, out: Listing)   // the readdir loop
    | Counting(out: Listing)                           // file_counts_.fetch_add
    | DirLocking(out: Listing)                         // acquire dir_mutex_
    | Pushing(pc: PushPc, out: Listing, i: nat)        // push_task of subdirectory i
    | DirUnlocking(out: Listing)                       // release dir_mutex_
    | InfoLocking(out: Listing)                        // acquire file_info_mutex_
    | Files(out: Listing, i: nat)                      // file_checker of file i
    | Links(out: Listing, i: nat)                      // symbol_reloader of symlink i, or release file_info_mutex_
    | Return
  {
    predicate HoldsDir() { Pushing? || DirUnlocking? }

    predicate HoldsInfo() { Files? || Links? }

    predicate Reads() { Enter? || Validate? || Reading? || Counting? }

    predicate Spreads() { DirLocking? || Pushing? || DirUnlocking? }

    predicate Records() { InfoLocking? || Files? || Links? }
  }

  datatype MainPc =
    | Setup                              // paths are being added
    | StoreCount                         // file_counts_ = unscanned_dirs_.size()
    | Launching(pc: PushPc, i: nat)      // push_task of root i
    | StartRecorder
    | StartNotifier
    | JoinNotifier
    | JoinRecorder
    | Waited                             // wait() has returned
    | Destroying                         // inside ~thread_pool
  {
    /** All roots have been pushed. */
    predicate PastLaunch() { !Setup? && !StoreCount? && !Launching? }
  }

  datatype NotifierPc = NotifierOff | Checking | Napping | StopRunning | StopPause | NotifierOver {

    /** is_scan_over() has been seen true. */
    predicate SawEnd() { StopRunning? || StopPause? || NotifierOver? }
  }

  datatype RecorderPc = RecorderOff | TestRunning | TestEmpty | RecLocking | Swapping | RecUnlocking | Clearing | RecorderOver {

    predicate HoldsInfo() { Swapping? || RecUnlocking? }

    predicate HasBatch() { RecUnlocking? || Clearing? }
  }

  datatype UserPc = UserIdle | UserPausing

  datatype InfoLock = InfoFree | InfoWorker(worker: nat) | InfoRecorder

  /**
   `emplaced`, `drained`, `visited` and `entries` record everything appended to file_infos_, everything
   the recorder has taken out, every directory that passed valid_path, and every entry counted;
   `stopped` says that a user called stop().
   */
  datatype Scan = Scan(
    pool: P.Pool<string>,
    jobs: seq<Job>,
    running: bool,
    roots: seq<string>,
    dirLock: Option<nat>,
    infoLock: InfoLock,
    infos: seq<Record>,
    local: seq<Record>,
    counts: int,
    main: MainPc,
    notifier: NotifierPc,
    recorder: RecorderPc,
    user: UserPc,
    emplaced: seq<Record>,
    drained: seq<Record>,
    visited: multiset<string>,
    entries: nat,
    stopped: bool)
  {
    function At(w: nat, job: Job): Scan
      requires w < |jobs|
    {
      this.(jobs := jobs[w := job])
    }
  }

  /** The value an atomic<int> holds after arithmetic on the exact value x. */
  function Wrap(x: int): int { (x + 0x8000_0000) % 0x1_0000_0000 - 0x8000_0000 }

  function Init(threads: nat): Scan {
    Scan(P.Init<string>(threads), seq(threads, _ => NoJob), false, [], None, InfoFree, [], [], 0,
         Setup, NotifierOff, RecorderOff, UserIdle, [], [], multiset{}, 0, false)
  }

  datatype Label =
    | AddPath(path: string)
    | MainWork
    | MainWake                         // a spurious wake-up inside ~thread_pool
    | WorkerWork(w: nat)
    | WorkerWake(w: nat, timedOut: bool)
    | NotifierWork
    | RecorderWork
    | UserStop

  function WithPool(s: Scan, r: Option<P.Pool<string>>): Option<Scan> {
    if r.None? then None else Some(s.(pool := r.value))
  }

  // ----- push_task, by a worker or by the main thread -----

  function PushPool(p: P.Pool<string>, pc: PushPc, client: nat, path: string): Option<P.Pool<string>> {
    match pc
    case Locking => P.Step(p, P.PushLock(client))
    case Entered => P.Step(p, P.PushQueue(path))
    case Queued => P.Step(p, P.PushCount)
    case Tallied => P.Step(p, P.PushUnlock)
    case Notifying => Some(p)
  }

  // ----- do_scan -----

  /** The loop over out_dirs, about to handle subdirectory i. */
  function PushFrom(out: Listing, i: nat): Job {
    if i < |out.dirs| then Pushing(Locking, out, i) else DirUnlocking(out)
  }

  function PushJob(s: Scan, w: nat): Option<Scan>
    requires w < |s.jobs| && s.jobs[w].Pushing?
  {
    var job := s.jobs[w];
    if job.i >= |job.out.dirs| then None
    else
      var pushed := PushPool(s.pool, job.pc, w, job.out.dirs[job.i]);
      if pushed.None? then None
      else
        var after := if job.pc.Notifying? then PushFrom(job.out, job.i + 1) else job.(pc := NextPushPc(job.pc));
        Some(s.At(w, after).(pool := pushed.value))
  }

  /** From the entry of do_scan to file_counts_.fetch_add: the next statement, the visit made, the entries counted. */
  datatype ReadResult = Read(next: Job, visits: multiset<string>, counted: nat)

  function ReadOne(fs: FileSystem, running: bool, job: Job): ReadResult
    requires job.Reads()
  {
    match job
    case Enter(path) => Read(if running then Validate(path) else Return, multiset{}, 0)
    case Validate(path) =>
      if !ValidPath(path) then Read(Return, multiset{}, 0)
      else Read(if path in fs.dirs then Reading(path, 0, NOTHING) else Counting(NOTHING), multiset{path}, 0)
    case Reading(path, next, out) =>
      if path !in fs.dirs || next >= |fs.dirs[path]| || !running then Read(Counting(out), multiset{}, 0)
      else Read(Reading(path, next + 1, Classify(path, fs.dirs[path][next], out)), multiset{}, 0)
    case Counting(out) => Read(DirLocking(out), multiset{}, out.Size())
  }

  function ReadStep(fs: FileSystem, s: Scan, w: nat): Scan
    requires w < |s.jobs| && s.jobs[w].Reads()
  {
    var r := ReadOne(fs, s.running, s.jobs[w]);
    s.At(w, r.next).(visited := s.visited + r.visits, entries := s.entries + r.counted,
                     counts := if s.jobs[w].Counting? then Wrap(s.counts + r.counted) else s.counts)
  }

  /** The block under dir_mutex_. */
  function SpreadStep(s: Scan, w: nat): Option<Scan>
    requires w < |s.jobs| && s.jobs[w].Spreads()
  {
    match s.jobs[w]
    case DirLocking(out) => if s.dirLock.None? then Some(s.At(w, PushFrom(out, 0)).(dirLock := Some(w))) else None
    case Pushing(_, _, _) => PushJob(s, w)
    case DirUnlocking(out) => Some(s.At(w, InfoLocking(out)).(dirLock := None))
  }

  /** The block under file_info_mutex_: the next statement and the records appended. */
  datatype RecordResult = Emit(next: Job, records: seq<Record>)

  function RecordOne(fs: FileSystem, job: Job): RecordResult
    requires job.Records()
  {
    match job
    case InfoLocking(out) => Emit(Files(out, 0), [])
    case Files(out, i) =>
      if i < |out.files| then Emit(Files(out, i + 1), FileRecords(fs, out.files[i])) else Emit(Links(out, 0), [])
    case Links(out, i) =>
      if i < |out.links| then Emit(Links(out, i + 1), LinkRecords(fs, out.links[i])) else Emit(Return, [])
  }

  function RecordStep(fs: FileSystem, s: Scan, w: nat): Option<Scan>
    requires w < |s.jobs| && s.jobs[w].Records()
  {
    var r := RecordOne(fs, s.jobs[w]);
    if s.jobs[w].InfoLocking? then
      if s.infoLock.InfoFree? then Some(s.At(w, r.next).(infoLock := InfoWorker(w))) else None
    else if r.next.Return? then Some(s.At(w, r.next).(infoLock := InfoFree))
    else Some(s.At(w, r.next).(infos := s.infos + r.records, emplaced := s.emplaced + r.records))
  }

  function ReturnStep(s: Scan, w: nat): Option<Scan>
    requires w < |s.jobs|
  {
    WithPool(s.At(w, NoJob), P.Step(s.pool, P.TaskEnds(w)))
  }

  function JobStep(fs: FileSystem, s: Scan, w: nat): Option<Scan>
    requires w < |s.jobs|
  {
    if s.jobs[w].Reads() then Some(ReadStep(fs, s, w))
    else if s.jobs[w].Spreads() then SpreadStep(s, w)
    else if s.jobs[w].Records() then RecordStep(fs, s, w)
    else if s.jobs[w].Return? then ReturnStep(s, w)
    else None
  }

  /** A worker: inside task() it runs do_scan, outside it runs the pool's loop. */
  function WorkerStep(fs: FileSystem, s: Scan, w: nat): Option<Scan> {
    if w >= |s.pool.ws| || w >= |s.jobs| then None
    else if s.pool.ws[w].Busy? then JobStep(fs, s, w)
    else if s.pool.ws[w].Releasing? then WithPool(s.At(w, Enter(s.pool.ws[w].task)), P.Step(s.pool, P.Work(w)))
    else WithPool(s, P.Step(s.pool, P.Work(w)))
  }

  // ----- launch, wait and the destructor -----

  function LaunchFrom(roots: seq<string>, i: nat): MainPc {
    if i < |roots| then Launching(Locking, i) else StartRecorder
  }

  function LaunchStep(s: Scan): Option<Scan>
    requires s.main.Launching?
  {
    if s.main.i >= |s.roots| then None
    else
      var pushed := PushPool(s.pool, s.main.pc, |s.pool.ws|, s.roots[s.main.i]);
      if pushed.None? then None
      else
        var after := if s.main.pc.Notifying? then LaunchFrom(s.roots, s.main.i + 1)
                     else s.main.(pc := NextPushPc(s.main.pc));
        Some(s.(main := after, pool := pushed.value))
  }

  function MainStep(s: Scan): Option<Scan> {
    match s.main
    case Setup => Some(s.(main := StoreCount, running := true))
    case StoreCount => Some(s.(main := LaunchFrom(s.roots, 0), counts := Wrap(|s.roots|)))
    case Launching(_, _) => LaunchStep(s)
    case StartRecorder => Some(s.(main := StartNotifier, recorder := TestRunning))
    case StartNotifier => Some(s.(main := JoinNotifier, notifier := Checking))
    case JoinNotifier => if s.notifier.NotifierOver? then Some(s.(main := JoinRecorder)) else None
    case JoinRecorder => if s.recorder.RecorderOver? then Some(s.(main := Waited)) else None
    case Waited => WithPool(s.(main := Destroying), P.Step(s.pool, P.StartWait(true)))
    case Destroying => WithPool(s, P.Step(s.pool, P.OwnerWork))
  }

  // ----- The notifier, the recorder and stop() -----

  function NotifierStep(s: Scan): Option<Scan> {
    match s.notifier
    case NotifierOff => None
    case Checking => Some(s.(notifier := if s.pool.sh.total == 0 then StopRunning else Napping))
    case Napping => Some(s.(notifier := Checking))
    case StopRunning => Some(s.(notifier := StopPause, running := false))
    case StopPause => WithPool(s.(notifier := NotifierOver), P.Step(s.pool, P.Pause))
    case NotifierOver => None
  }

  function RecorderStep(s: Scan): Option<Scan> {
    match s.recorder
    case RecorderOff => None
    case TestRunning => Some(s.(recorder := if s.running then RecLocking else TestEmpty))
    case TestEmpty => Some(s.(recorder := if s.infos == [] then RecorderOver else RecLocking))
    case RecLocking => if s.infoLock.InfoFree? then Some(s.(recorder := Swapping, infoLock := InfoRecorder)) else None
    case Swapping => Some(s.(recorder := RecUnlocking, local := s.infos, infos := s.local))
    case RecUnlocking => Some(s.(recorder := Clearing, infoLock := InfoFree))
    case Clearing => Some(s.(recorder := TestRunning, local := [], drained := s.drained + s.local))
    case RecorderOver => None
  }

  function UserStep(s: Scan): Option<Scan> {
    match s.user
    case UserIdle => Some(s.(user := UserPausing, running := false, stopped := true))
    case UserPausing => WithPool(s.(user := UserIdle), P.Step(s.pool, P.Pause))
  }

  function Step(fs: FileSystem, s: Scan, l: Label): Option<Scan> {
    match l
    case AddPath(path) => if s.main.Setup? then Some(s.(roots := s.roots + [path])) else None
    case MainWork => MainStep(s)
    case MainWake => WithPool(s, P.Step(s.pool, P.WakeOwner))
    case WorkerWork(w) => WorkerStep(fs, s, w)
    case WorkerWake(w, timedOut) => WithPool(s, P.Step(s.pool, P.Wake(w, timedOut)))
    case NotifierWork => NotifierStep(s)
    case RecorderWork => RecorderStep(s)
    case UserStop => UserStep(s)
  }

  predicate CanRun(fs: FileSystem, s: Scan, labels: seq<Label>)
    decreases |labels|
  {
    labels == [] || (Step(fs, s, labels[0]).Some? && CanRun(fs, Step(fs, s, labels[0]).value, labels[1..]))
  }

  function Final(fs: FileSystem, s: Scan, labels: seq<Label>): Scan
    requires CanRun(fs, s, labels)
    decreases |labels|
  {
    if labels == [] then s else Final(fs, Step(fs, s, labels[0]).value, labels[1..])
  }
}
