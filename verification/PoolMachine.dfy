/**
 The worker pool of Linux/utils/thread_pool.hpp as a transition system.

 Every thread has a program counter; one step of the machine is one access to shared memory, one
 acquisition or release of tasks_mutex_, or one return from a condition-variable wait.  The threads
 are the workers, the one client that waits for the pool and later destroys it (the owner), and any
 number of clients that push tasks or read the queue size (identified by numbers).

 A blocked step is None.  A worker asleep in the timed wait can wake at any moment, because the
 50 ms may be over, because of a spurious wake-up, or because some push notified it; so the
 notifications of task_available_cv_ need no step of their own.
 */
module PoolMachine {
  import opened Wrappers

  /** The fields the threads share, other than the mutex and the condition variables. */
  datatype Shared<T> = Shared(running: bool, waiting: bool, paused: bool, tasks: seq<T>, total: int) {

    function Pushed(task: T): Shared<T> { this.(tasks := tasks + [task]) }

    function Counted(): Shared<T> { this.(total := total + 1) }

    function Popped(): Shared<T>
      requires tasks != []
    {
      this.(tasks := tasks[1..])
    }

    function Uncounted(): Shared<T> { this.(total := total - 1) }

    /** The predicate of the wait in wait_for_tasks. */
    predicate WaitOver() { total == if paused then |tasks| else 0 }
  }

  datatype PushPhase = Entered | Queued | Tallied

  /** Who holds tasks_mutex_. */
  datatype Lock =
    | Free
    | ByWorker(worker: nat)
    | ByPusher(client: nat, phase: PushPhase)
    | ByReader(client: nat)
    | ByOwner

  /** The next statement of a worker. */
  datatype WorkerPc<T> =
    | LoopTest              // while(running_)
    | Locking               // acquire tasks_mutex_
    | Recheck               // if(!running_) break
    | Predicate             // wait_until: test the predicate
    | Asleep                // wait_until: blocked
    | Waking(timedOut: bool) // wait_until: reacquire tasks_mutex_
    | ReadRunning           // if(running_ && ...)
    | ReadPaused            // if(... && !paused_)
    | Take                  // tasks_.empty(), front and pop
    | Releasing(task: T)    // tasks_lock.unlock() before the task
    | Busy(task: T)         // task()
    | Relocking             // tasks_lock.lock() after the task
    | Decrement             // --tasks_total_
    | NotifyTest            // if(waiting_) notify
    | Leaving(exit: bool)   // release at the end of the iteration, or by break
    | Exited
  {
    predicate HoldsLock() {
      Recheck? || Predicate? || ReadRunning? || ReadPaused? || Take? || Releasing? || Decrement? || NotifyTest?
      || Leaving?
    }

    /** The task was popped and tasks_total_ still counts it. */
    predicate InFlight() { Releasing? || Busy? || Relocking? || Decrement? }
  }

  /** The next statement of the client that waits for the pool; `destroy` marks a wait made by the destructor. */
  datatype OwnerPc =
    | Outside
    | Announce(destroy: bool)   // waiting_ = true
    | WaitLock(destroy: bool)   // acquire tasks_mutex_
    | Testing(destroy: bool)    // test the predicate
    | Sleeping(destroy: bool)   // blocked on task_done_cv_
    | Reacquire(destroy: bool)  // woken, acquire tasks_mutex_ again
    | Clear(destroy: bool)      // waiting_ = false
    | WaitUnlock(destroy: bool) // release tasks_mutex_
    | StopRunning               // running_ = false
    | NotifyAll                 // task_available_cv_.notify_all()
    | Joining(next: nat)        // join the workers in order
    | Destroyed
  {
    predicate HoldsLock() { Testing? || Clear? || WaitUnlock? }

    /** Between the two writes of waiting_. */
    predicate Waits() { WaitLock? || Testing? || Sleeping? || Reacquire? || Clear? }

    /** The wait, if any, is the destructor's. */
    predicate Destroys() {
      match this
      case Outside => false
      case Announce(d) => d
      case WaitLock(d) => d
      case Testing(d) => d
      case Sleeping(d) => d
      case Reacquire(d) => d
      case Clear(d) => d
      case WaitUnlock(d) => d
      case _ => true
    }

    /** running_ has been cleared. */
    predicate ShuttingDown() { NotifyAll? || Joining? || Destroyed? }
  }

  /** `pushed`, `started` and `finished` record every task in the order of the pushes, pops and returns. */
  datatype Pool<T> = Pool(
    sh: Shared<T>,
    lock: Lock,
    ws: seq<WorkerPc<T>>,
    owner: OwnerPc,
    pushed: seq<T>,
    started: seq<T>,
    finished: seq<T>)
  {
    predicate MidPush() { lock.ByPusher? && lock.phase == Queued }

    function Goto(w: nat, pc: WorkerPc<T>): Pool<T>
      requires w < |ws|
    {
      this.(ws := ws[w := pc])
    }

    function Acquire(w: nat, pc: WorkerPc<T>): Option<Pool<T>>
      requires w < |ws|
    {
      if lock.Free? then Some(this.(lock := ByWorker(w), ws := ws[w := pc])) else None
    }
  }

  /** The pool as its constructor leaves it: running_ is set before the workers are created. */
  function Init<T>(threads: nat): Pool<T> {
    Pool(Shared(true, false, false, [], 0), Free, seq(threads, _ => LoopTest), Outside, [], [], [])
  }

  datatype Label<T> =
    | Work(w: nat)                 // the next statement of a worker outside task()
    | TaskEnds(w: nat)             // task() returns, or throws a std::exception that the worker catches
    | Wake(w: nat, timedOut: bool) // a worker leaves the timed wait
    | PushLock(client: nat)
    | PushQueue(task: T)
    | PushCount
    | PushUnlock
    | ReadLock(client: nat)        // get_tasks_running and get_task_queued
    | ReadUnlock
    | StartWait(destroy: bool)     // wait_for_tasks is called, by a client or by the destructor
    | OwnerWork
    | WakeOwner                    // a spurious wake-up of the waiting client
    | Pause
    | Unpause

  function WorkerStep<T>(p: Pool<T>, w: nat): Option<Pool<T>>
    requires w < |p.ws|
  {
    match p.ws[w]
    case LoopTest => Some(p.Goto(w, if p.sh.running then Locking else Exited))
    case Locking => p.Acquire(w, Recheck)
    case Recheck => Some(p.Goto(w, if p.sh.running then Predicate else Leaving(true)))
    case Predicate =>
      if p.sh.tasks != [] || !p.sh.running then Some(p.Goto(w, ReadRunning))
      else Some(p.Goto(w, Asleep).(lock := Free))
    case Asleep => None
    case Waking(timedOut) => p.Acquire(w, if timedOut then ReadRunning else Predicate)
    case ReadRunning => Some(p.Goto(w, if p.sh.running then ReadPaused else Leaving(false)))
    case ReadPaused => Some(p.Goto(w, if p.sh.paused then Leaving(false) else Take))
    case Take =>
      if p.sh.tasks == [] then Some(p.Goto(w, Leaving(false)))
      else
        var task := p.sh.tasks[0];
        Some(p.Goto(w, Releasing(task)).(sh := p.sh.Popped(), started := p.started + [task]))
    case Releasing(task) => Some(p.Goto(w, Busy(task)).(lock := Free))
    case Busy(_) => None
    case Relocking => p.Acquire(w, Decrement)
    case Decrement => Some(p.Goto(w, NotifyTest).(sh := p.sh.Uncounted()))
    case NotifyTest =>
      var woken := if p.sh.waiting && p.owner.Sleeping? then Reacquire(p.owner.destroy) else p.owner;
      Some(p.Goto(w, Leaving(false)).(owner := woken))
    case Leaving(exit) => Some(p.Goto(w, if exit then Exited else LoopTest).(lock := Free))
    case Exited => None
  }

  function Woken<T>(pc: WorkerPc<T>): WorkerPc<T> {
    if pc.Asleep? then Waking(false) else pc
  }

  function OwnerStep<T>(p: Pool<T>): Option<Pool<T>> {
    match p.owner
    case Outside => None
    case Announce(d) => Some(p.(owner := WaitLock(d), sh := p.sh.(waiting := true)))
    case WaitLock(d) => if p.lock.Free? then Some(p.(owner := Testing(d), lock := ByOwner)) else None
    case Testing(d) =>
      if p.sh.WaitOver() then Some(p.(owner := Clear(d))) else Some(p.(owner := Sleeping(d), lock := Free))
    case Sleeping(_) => None
    case Reacquire(d) => if p.lock.Free? then Some(p.(owner := Testing(d), lock := ByOwner)) else None
    case Clear(d) => Some(p.(owner := WaitUnlock(d), sh := p.sh.(waiting := false)))
    case WaitUnlock(d) => Some(p.(owner := if d then StopRunning else Outside, lock := Free))
    case StopRunning => Some(p.(owner := NotifyAll, sh := p.sh.(running := false)))
    case NotifyAll => Some(p.(owner := Joining(0), ws := seq(|p.ws|, i requires 0 <= i < |p.ws| => Woken(p.ws[i]))))
    case Joining(i) =>
      if i >= |p.ws| then Some(p.(owner := Destroyed))
      else if p.ws[i].Exited? then Some(p.(owner := Joining(i + 1)))
      else None
    case Destroyed => None
  }

  function PushStep<T>(p: Pool<T>, l: Label<T>): Option<Pool<T>>
    requires l.PushLock? || l.PushQueue? || l.PushCount? || l.PushUnlock?
  {
    match l
    case PushLock(client) => if p.lock.Free? then Some(p.(lock := ByPusher(client, Entered))) else None
    case PushQueue(task) =>
      if p.lock.ByPusher? && p.lock.phase == Entered then
        Some(p.(lock := p.lock.(phase := Queued), sh := p.sh.Pushed(task), pushed := p.pushed + [task]))
      else None
    case PushCount =>
      if p.MidPush() then Some(p.(lock := p.lock.(phase := Tallied), sh := p.sh.Counted())) else None
    case PushUnlock =>
      if p.lock.ByPusher? && p.lock.phase == Tallied then Some(p.(lock := Free)) else None
  }

  function Step<T>(p: Pool<T>, l: Label<T>): Option<Pool<T>> {
    match l
    case Work(w) => if w < |p.ws| then WorkerStep(p, w) else None
    case TaskEnds(w) =>
      if w < |p.ws| && p.ws[w].Busy? then Some(p.Goto(w, Relocking).(finished := p.finished + [p.ws[w].task])) else None
    case Wake(w, timedOut) => if w < |p.ws| && p.ws[w].Asleep? then Some(p.Goto(w, Waking(timedOut))) else None
    case PushLock(_) => PushStep(p, l)
    case PushQueue(_) => PushStep(p, l)
    case PushCount => PushStep(p, l)
    case PushUnlock => PushStep(p, l)
    case ReadLock(client) => if p.lock.Free? then Some(p.(lock := ByReader(client))) else None
    case ReadUnlock => if p.lock.ByReader? then Some(p.(lock := Free)) else None
    case StartWait(destroy) => if p.owner.Outside? then Some(p.(owner := Announce(destroy))) else None
    case OwnerWork => OwnerStep(p)
    case WakeOwner => if p.owner.Sleeping? then Some(p.(owner := Reacquire(p.owner.destroy))) else None
    case Pause => Some(p.(sh := p.sh.(paused := true)))
    case Unpause => Some(p.(sh := p.sh.(paused := false)))
  }

  /** The steps named by `labels` can be taken one after the other from `p`. */
  predicate CanRun<T>(p: Pool<T>, labels: seq<Label<T>>)
    decreases |labels|
  {
    labels == [] || (Step(p, labels[0]).Some? && CanRun(Step(p, labels[0]).value, labels[1..]))
  }

  /** The state after those steps. */
  function Final<T>(p: Pool<T>, labels: seq<Label<T>>): Pool<T>
    requires CanRun(p, labels)
    decreases |labels|
  {
    if labels == [] then p else Final(Step(p, labels[0]).value, labels[1..])
  }

  lemma Unroll4<T>(p: Pool<T>, ls: seq<Label<T>>)
    requires |ls| == 4
    requires Step(p, ls[0]).Some? && Step(Step(p, ls[0]).value, ls[1]).Some?
    requires Step(Step(Step(p, ls[0]).value, ls[1]).value, ls[2]).Some?
    requires Step(Step(Step(Step(p, ls[0]).value, ls[1]).value, ls[2]).value, ls[3]).Some?
    ensures CanRun(p, ls)
    ensures Final(p, ls) == Step(Step(Step(Step(p, ls[0]).value, ls[1]).value, ls[2]).value, ls[3]).value
  {
    var p1 := Step(p, ls[0]).value;
    var p2 := Step(p1, ls[1]).value;
    var p3 := Step(p2, ls[2]).value;
    assert CanRun(p3, ls[3..]) && Final(p3, ls[3..]) == Step(p3, ls[3]).value;
    assert ls[2..][1..] == ls[3..] && ls[1..][1..] == ls[2..];
    assert CanRun(p2, ls[2..]) && Final(p2, ls[2..]) == Step(p3, ls[3]).value;
    assert CanRun(p1, ls[1..]) && Final(p1, ls[1..]) == Step(p3, ls[3]).value;
  }

  /** Runs compose. */
  lemma {:induction false} RunAppend<T>(p: Pool<T>, first: seq<Label<T>>, rest: seq<Label<T>>)
    requires CanRun(p, first) && CanRun(Final(p, first), rest)
    ensures CanRun(p, first + rest) && Final(p, first + rest) == Final(Final(p, first), rest)
    decreases |first|
  {
    if first == [] {
      assert first + rest == rest;
    } else {
      RunAppend(Step(p, first[0]).value, first[1..], rest);
      assert (first + rest)[1..] == first[1..] + rest;
    }
  }
}
