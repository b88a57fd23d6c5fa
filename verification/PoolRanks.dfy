/** Measures of how far a worker, or the client that waits, is from what it is heading for. */
module PoolRanks {
  import opened PoolMachine
  import opened PoolTheorems

  /** How far a worker that has no task is from releasing tasks_mutex_. */
  function HoldRank<T>(pc: WorkerPc<T>): nat {
    match pc
    case Recheck => 7
    case Predicate => 6
    case ReadRunning => 5
    case ReadPaused => 4
    case Take => 3
    case NotifyTest => 2
    case Leaving(_) => 1
    case _ => 0
  }

  /** How far a worker that holds the mutex without a task is from releasing it. */
  function HoldPart<T>(p: Pool<T>): nat {
    if p.lock.ByWorker? && p.lock.worker < |p.ws| then HoldRank(p.ws[p.lock.worker]) else 0
  }

  /** How far a worker that has no task is from popping one, when there is one to pop. */
  function SeekRank<T>(pc: WorkerPc<T>): nat {
    match pc
    case Leaving(_) => 12
    case LoopTest => 11
    case Locking => 10
    case Recheck => 9
    case Asleep => 8
    case Waking(_) => 7
    case Predicate => 6
    case ReadRunning => 5
    case ReadPaused => 4
    case Take => 3
    case _ => 0
  }

  function OwnerRank(owner: OwnerPc, n: nat): nat {
    match owner
    case Outside => n + 20
    case Announce(_) => n + 10
    case Sleeping(_) => n + 10
    case WaitLock(_) => n + 9
    case Reacquire(_) => n + 9
    case Testing(_) => n + 8
    case Clear(_) => n + 7
    case WaitUnlock(_) => n + 6
    case StopRunning => n + 5
    case NotifyAll => n + 4
    case Joining(i) => if i <= n then 1 + n - i else 1
    case Destroyed => 0
  }

  function ExitRanks<T>(ws: seq<WorkerPc<T>>): nat {
    if ws == [] then 0 else ExitRanks(ws[..|ws| - 1]) + ExitRank(ws[|ws| - 1])
  }

  lemma {:induction false} ExitRanksUpdate<T>(ws: seq<WorkerPc<T>>, w: nat, pc: WorkerPc<T>)
    requires w < |ws|
    ensures ExitRanks(ws[w := pc]) + ExitRank(ws[w]) == ExitRanks(ws) + ExitRank(pc)
  {
    var last := |ws| - 1;
    if w < last {
      ExitRanksUpdate(ws[..last], w, pc);
      assert ws[w := pc][..last] == ws[..last][w := pc];
    } else {
      assert ws[w := pc][..last] == ws[..last];
    }
  }
}
