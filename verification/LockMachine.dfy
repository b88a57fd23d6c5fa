/**
 The inter-process lock of Windows/process_lock/process_mutex.hpp: the operating system's recursive
 mutexes, the process_mutex objects that refer to them, and the process_lock_guard objects of one
 process.  A step is one member function call by one thread; what a call does to one mutex and one
 guard is a function of their values, which the classes of ProcessLockObject compute too.
 */
module LockMachine {
  import opened Wrappers

  // ----- The operating system's mutex -----

  /** `abandoned`: the last owner ended without releasing it. */
  datatype Os = Os(owner: Option<nat>, count: nat, abandoned: bool) {

    predicate Available(t: nat) { owner.None? || owner.value == t }

    function Acquired(t: nat): Os { Os(Some(t), count + 1, false) }

    predicate Releasable(t: nat) { owner == Some(t) && count > 0 }

    function Released(): Os
      requires count > 0
    {
      if count == 1 then Os(None, 0, abandoned) else this.(count := count - 1)
    }

    function Deserted(): Os { Os(None, 0, true) }
  }

  /** The results of WaitForSingleObject that the code distinguishes. */
  datatype Answer = Object0 | Abandoned | Timeout | Failed

  datatype Waited = Blocked | Answered(os: Option<Os>, answer: Answer)

  /** WaitForSingleObject on a handle, null if None: an abandoned mutex is acquired all the same. */
  function WaitFor(h: Option<Os>, t: nat, timed: bool): Waited {
    if h.None? then Answered(h, Failed)
    else if h.value.Available(t) then
      Answered(Some(h.value.Acquired(t)), if h.value.abandoned then Abandoned else Object0)
    else if timed then Answered(h, Timeout)
    else Blocked
  }

  // ----- process_mutex and process_lock_guard -----

  datatype Error = NotPermitted | WouldDeadlock | WaitError(answer: Answer) | ReleaseError

  /** Blocks: the call has not returned. */
  datatype Outcome = Blocks | Returned(value: bool) | Thrown(error: Error)

  /** A mutex and the answer of a process_mutex operation on it. */
  datatype MutexResult = MutexResult(os: Option<Os>, outcome: Outcome)

  /** process_mutex::lock if not timed, try_lock_for if timed. */
  function LockMutex(h: Option<Os>, t: nat, timed: bool): MutexResult {
    match WaitFor(h, t, timed)
    case Blocked => MutexResult(h, Blocks)
    case Answered(os, Object0) => MutexResult(os, Returned(true))
    case Answered(os, Timeout) => MutexResult(os, Returned(false))
    case Answered(os, answer) => MutexResult(os, Thrown(WaitError(answer)))
  }

  function UnlockMutex(h: Option<Os>, t: nat): MutexResult {
    if h.Some? && h.value.Releasable(t) then MutexResult(Some(h.value.Released()), Returned(true))
    else MutexResult(h, Thrown(ReleaseError))
  }

  /** The mutex, the guard's _Owns and the answer of a guard's operation; `attached`: _Pmtx is not null. */
  datatype GuardResult = GuardResult(os: Option<Os>, owns: bool, outcome: Outcome)

  function LockGuard(attached: bool, owns: bool, h: Option<Os>, t: nat, timed: bool): GuardResult {
    if !attached then GuardResult(h, owns, Thrown(NotPermitted))
    else if owns then GuardResult(h, owns, Thrown(WouldDeadlock))
    else
      var r := LockMutex(h, t, timed);
      GuardResult(r.os, if r.outcome.Returned? then r.outcome.value else owns, r.outcome)
  }

  function UnlockGuard(attached: bool, owns: bool, h: Option<Os>, t: nat): GuardResult {
    if !attached || !owns then GuardResult(h, owns, Thrown(NotPermitted))
    else
      var r := UnlockMutex(h, t);
      GuardResult(r.os, r.outcome.Thrown?, r.outcome)
  }

  // ----- All mutexes and guards together -----

  /** The handle that refers to no mutex. */
  const NULL: nat := 0

  /** `locker` records the thread whose call made the guard an owner. */
  datatype Guard = Guard(pmtx: Option<nat>, owns: bool, locker: nat)

  const EMPTY := Guard(None, false, 0)

  /**
   `handles` maps each process_mutex to the mutex it refers to; several may refer to the same one.
   `direct` counts the holds on a mutex that were not taken through a guard of this process: initial
   ownership, lock() on the process_mutex itself, and holds of other processes.  `over`: a destructor
   has thrown, which ends the program.
   */
  datatype World = World(
    os: map<nat, Os>,
    direct: map<nat, nat>,
    handles: map<nat, nat>,
    guards: map<nat, Guard>,
    over: bool)
  {
    /** The handle of process_mutex `p`. */
    function Target(p: nat): nat { if p in handles then handles[p] else NULL }

    /** The mutex that a guard is attached to. */
    function Of(g: Guard): nat { if g.pmtx.None? then NULL else Target(g.pmtx.value) }

    function View(m: nat): Option<Os> { if m in os then Some(os[m]) else None }

    function Put(m: nat, h: Option<Os>): World { if h.None? then this else this.(os := os[m := h.value]) }
  }

  const EMPTY_WORLD := World(map[], map[], map[], map[], false)

  datatype Label =
    | NullMutex(p: nat)                                      // process_mutex()
    | OpenMutex(p: nat, m: nat, t: nat, initialOwner: bool)  // process_mutex(initialOwner, name)
    | Attach(g: nat, pmtx: Option<nat>)                      // process_lock_guard(), process_lock_guard(mutex)
    | MoveNew(g: nat, from: nat)                             // process_lock_guard(guard&&)
    | MoveAssign(g: nat, from: nat, t: nat)                  // operator=(guard&&)
    | Lock(g: nat, t: nat, timed: bool)                      // lock, try_lock_for
    | Unlock(g: nat, t: nat)
    | Destroy(g: nat, t: nat)                                // ~process_lock_guard
    | DirectLock(p: nat, t: nat, timed: bool)                // process_mutex::lock, try_lock_for
    | DirectUnlock(p: nat, t: nat)                           // process_mutex::unlock
    | Exit(t: nat)                                           // thread t ends, in this or another process

  /** CreateMutexA opens the mutex of that name if there is one, and creates it otherwise. */
  function OpenStep(w: World, p: nat, m: nat, t: nat, initialOwner: bool): World {
    var target := w.(handles := w.handles[p := m]);
    if m in w.os then target
    else target.(os := w.os[m := if initialOwner then Os(Some(t), 1, false) else Os(None, 0, false)],
                  direct := w.direct[m := if initialOwner then 1 else 0])
  }

  function MoveAssignStep(w: World, g: nat, from: nat, t: nat): World
    requires g in w.guards && from in w.guards
  {
    if g == from then w
    else if w.guards[g].owns then
      var m := w.Of(w.guards[g]);
      var r := UnlockMutex(w.View(m), t);
      if r.outcome.Thrown? then w
      else w.Put(m, r.os).(guards := w.guards[g := w.guards[from]][from := EMPTY])
    else w.(guards := w.guards[g := w.guards[from]][from := EMPTY])
  }

  function LockStep(w: World, g: nat, t: nat, timed: bool): Option<World>
    requires g in w.guards
  {
    var guard, m := w.guards[g], w.Of(w.guards[g]);
    var r := LockGuard(guard.pmtx.Some?, guard.owns, w.View(m), t, timed);
    if r.outcome.Blocks? then None
    else if guard.owns then Some(w)
    else Some(w.Put(m, r.os).(guards := w.guards[g := guard.(owns := r.owns, locker := t)]))
  }

  function UnlockStep(w: World, g: nat, t: nat): World
    requires g in w.guards
  {
    var guard, m := w.guards[g], w.Of(w.guards[g]);
    var r := UnlockGuard(guard.pmtx.Some?, guard.owns, w.View(m), t);
    if r.outcome.Thrown? then w else w.Put(m, r.os).(guards := w.guards[g := guard.(owns := r.owns)])
  }

  function DestroyStep(w: World, g: nat, t: nat): World
    requires g in w.guards
  {
    var m := w.Of(w.guards[g]);
    if !w.guards[g].owns then w.(guards := w.guards - {g})
    else
      var r := UnlockMutex(w.View(m), t);
      if r.outcome.Thrown? then w.(over := true) else w.Put(m, r.os).(guards := w.guards - {g})
  }

  /** A successful direct lock adds a direct hold; a successful direct unlock takes one away if there is one. */
  function DirectLockStep(w: World, p: nat, t: nat, timed: bool): Option<World> {
    var m := w.Target(p);
    var r := LockMutex(w.View(m), t, timed);
    if r.outcome.Blocks? then None
    else if r.outcome == Returned(true) && m in w.direct then
      Some(w.Put(m, r.os).(direct := w.direct[m := w.direct[m] + 1]))
    else Some(w.Put(m, r.os))
  }

  function DirectUnlockStep(w: World, p: nat, t: nat): World {
    var m := w.Target(p);
    var r := UnlockMutex(w.View(m), t);
    if r.outcome.Thrown? then w
    else if m in w.direct && w.direct[m] > 0 then w.Put(m, r.os).(direct := w.direct[m := w.direct[m] - 1])
    else w.Put(m, r.os)
  }

  /** Every mutex the thread owns is abandoned. */
  function ExitStep(w: World, t: nat): World {
    w.(os := map m | m in w.os :: if w.os[m].owner == Some(t) then w.os[m].Deserted() else w.os[m],
       direct := map m | m in w.direct :: if m in w.os && w.os[m].owner == Some(t) then 0 else w.direct[m])
  }

  /** None if the call is not possible in w, or does not return from it. */
  function Step(w: World, l: Label): Option<World> {
    if w.over then None
    else match l
      case NullMutex(p) => if p in w.handles then None else Some(w.(handles := w.handles[p := NULL]))
      case OpenMutex(p, m, t, initialOwner) => if p in w.handles || m == NULL then None else Some(OpenStep(w, p, m, t, initialOwner))
      case Attach(g, pmtx) =>
        if g in w.guards || (pmtx.Some? && pmtx.value !in w.handles) then None
        else Some(w.(guards := w.guards[g := Guard(pmtx, false, 0)]))
      case MoveNew(g, from) =>
        if g in w.guards || from !in w.guards then None
        else Some(w.(guards := w.guards[g := w.guards[from]][from := EMPTY]))
      case MoveAssign(g, from, t) => if g in w.guards && from in w.guards then Some(MoveAssignStep(w, g, from, t)) else None
      case Lock(g, t, timed) => if g in w.guards then LockStep(w, g, t, timed) else None
      case Unlock(g, t) => if g in w.guards then Some(UnlockStep(w, g, t)) else None
      case Destroy(g, t) => if g in w.guards then Some(DestroyStep(w, g, t)) else None
      case DirectLock(p, t, timed) => if p in w.handles then DirectLockStep(w, p, t, timed) else None
      case DirectUnlock(p, t) => if p in w.handles then Some(DirectUnlockStep(w, p, t)) else None
      case Exit(t) => Some(ExitStep(w, t))
  }

  predicate CanRun(w: World, labels: seq<Label>)
    decreases |labels|
  {
    labels == [] || (Step(w, labels[0]).Some? && CanRun(Step(w, labels[0]).value, labels[1..]))
  }

  function Final(w: World, labels: seq<Label>): World
    requires CanRun(w, labels)
    decreases |labels|
  {
    if labels == [] then w else Final(Step(w, labels[0]).value, labels[1..])
  }
}
