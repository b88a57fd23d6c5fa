/**
 The three mutexes of a scan.  tasks_mutex_ is taken inside dir_mutex_ and nothing is taken inside
 tasks_mutex_ or file_info_mutex_, so the waits-for relation between threads has no cycle.
 */
module ScanDeadlock {
  import opened Wrappers
  import opened FileTree
  import opened ScanMachine
  import opened ScanInvariant
  import opened ScanTheorems
  import I = PoolInvariant

  datatype Thread = Main | Worker(w: nat) | Recorder | Reader

  datatype Mutex = Tasks | Dir | Info

  /** The mutex a thread is about to acquire. */
  function Wanted(s: Scan, a: Thread): Option<Mutex> {
    match a
    case Main =>
      if s.main.Launching? && s.main.pc.Locking? then Some(Tasks)
      else if s.main.Destroying? && (s.pool.owner.WaitLock? || s.pool.owner.Reacquire?) then Some(Tasks)
      else None
    case Worker(w) =>
      if w >= |s.pool.ws| || w >= |s.jobs| then None
      else (
        match s.pool.ws[w]
        case Locking => Some(Tasks)
        case Waking(_) => Some(Tasks)
        case Relocking => Some(Tasks)
        case Busy(_) =>
          if s.jobs[w].DirLocking? then Some(Dir)
          else if s.jobs[w].Pushing? && s.jobs[w].pc.Locking? then Some(Tasks)
          else if s.jobs[w].InfoLocking? then Some(Info)
          else None
        case _ => None)
    case Recorder => if s.recorder.RecLocking? then Some(Info) else None
    case Reader => None
  }

  /** The thread that holds a mutex. */
  function Holder(s: Scan, m: Mutex): Option<Thread> {
    match m
    case Tasks => (
      match s.pool.lock
      case Free => None
      case ByWorker(w) => Some(Worker(w))
      case ByPusher(client, _) => Some(if client < |s.jobs| then Worker(client) else Main)
      case ByReader(_) => Some(Reader)
      case ByOwner => Some(Main))
    case Dir => if s.dirLock.Some? then Some(Worker(s.dirLock.value)) else None
    case Info => (
      match s.infoLock
      case InfoFree => None
      case InfoWorker(w) => Some(Worker(w))
      case InfoRecorder => Some(Recorder))
  }

  predicate WaitsFor(s: Scan, a: Thread, b: Thread) {
    Wanted(s, a).Some? && Holder(s, Wanted(s, a).value) == Some(b)
  }

  /** tasks_mutex_ is the innermost of the three. */
  function Level(s: Scan, a: Thread): nat {
    match Wanted(s, a)
    case None => 0
    case Some(m) => if m == Tasks then 1 else 2
  }

  /** Whoever holds tasks_mutex_ wants no mutex. */
  lemma TasksHolderWantsNothing(fs: FileSystem, s: Scan, b: Thread)
    requires I.Mutex(s.pool) && Structure(fs, s) && Holder(s, Tasks) == Some(b)
    ensures Wanted(s, b).None?
  {
  }

  /** Whoever holds dir_mutex_ wants at most tasks_mutex_. */
  lemma DirHolderWantsTasks(fs: FileSystem, s: Scan, b: Thread)
    requires Structure(fs, s) && Holder(s, Dir) == Some(b)
    ensures Wanted(s, b).None? || Wanted(s, b) == Some(Tasks)
  {
  }

  /** Whoever holds file_info_mutex_ wants no mutex. */
  lemma InfoHolderWantsNothing(fs: FileSystem, s: Scan, b: Thread)
    requires Structure(fs, s) && Holder(s, Info) == Some(b)
    ensures Wanted(s, b).None?
  {
  }

  lemma WaitingDescends(fs: FileSystem, s: Scan, a: Thread, b: Thread)
    requires I.Mutex(s.pool) && Structure(fs, s) && WaitsFor(s, a, b)
    ensures Level(s, b) < Level(s, a)
  {
    match Wanted(s, a).value
    case Tasks => TasksHolderWantsNothing(fs, s, b);
    case Dir => DirHolderWantsTasks(fs, s, b);
    case Info => InfoHolderWantsNothing(fs, s, b);
  }

  /** Each thread of the chain waits for the next one. */
  ghost predicate WaitChain(s: Scan, chain: seq<Thread>) {
    forall i :: 0 <= i < |chain| - 1 ==> WaitsFor(s, chain[i], chain[i + 1])
  }

  lemma {:induction false} ChainDescends(fs: FileSystem, s: Scan, chain: seq<Thread>)
    requires I.Mutex(s.pool) && Structure(fs, s) && |chain| > 0 && WaitChain(s, chain)
    ensures Level(s, chain[|chain| - 1]) + |chain| - 1 <= Level(s, chain[0])
  {
    if |chain| > 1 {
      var front := chain[..|chain| - 1];
      assert forall i :: 0 <= i < |front| ==> front[i] == chain[i];
      ChainDescends(fs, s, front);
      WaitingDescends(fs, s, chain[|chain| - 2], chain[|chain| - 1]);
    }
  }

  /**
   No deadlock: in every reachable state a chain of threads waiting for each other has at most three
   threads and never returns to where it started.
   */
  lemma LocksNeverDeadlock(fs: FileSystem, threads: nat, labels: seq<Label>, chain: seq<Thread>)
    requires CanRun(fs, Init(threads), labels)
    requires |chain| > 1 && WaitChain(Final(fs, Init(threads), labels), chain)
    ensures |chain| <= 3 && chain[0] != chain[|chain| - 1]
  {
    InitGood(fs, threads);
    RunKeepsGood(fs, Init(threads), labels);
    ChainDescends(fs, Final(fs, Init(threads), labels), chain);
  }
}
