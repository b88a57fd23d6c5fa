/**
 The classes process_mutex and process_lock_guard of Windows/process_lock/process_mutex.hpp, with
 their fields updated in place, those of a moved-from object included.  The steps of LockMachine use
 the functions of values that the contracts below refer to.
 */
module ProcessLockObject {
  import opened Wrappers
  import opened LockMachine
  import opened LockCalls

  /** A mutex of the operating system. */
  class OsMutex {
    var state: Os

    constructor (owner: Option<nat>)
      ensures state == Os(owner, if owner.Some? then 1 else 0, false)
    {
      state := Os(owner, if owner.Some? then 1 else 0, false);
    }
  }

  class ProcessMutex {
    var handle: OsMutex?

    function Mutexes(): set<object>
      reads this
    {
      if handle == null then {} else {handle}
    }

    function View(): Option<Os>
      reads this, Mutexes()
    {
      if handle == null then None else Some(handle.state)
    }

    constructor (handle: OsMutex?)
      ensures this.handle == handle
    {
      this.handle := handle;
    }

    /** Moving leaves the source with a null handle. */
    constructor Move(other: ProcessMutex)
      modifies other
      ensures handle == old(other.handle) && other.handle == null
    {
      handle := other.handle;
      new;
      other.handle := null;
    }

    /** WaitForSingleObject, without a time limit if not timed. */
    method Wait(t: nat, timed: bool) returns (r: Waited)
      modifies Mutexes()
      ensures handle == old(handle)
      ensures r == WaitFor(old(View()), t, timed)
      ensures View() == if r.Answered? then r.os else old(View())
      ensures handle == null ==> r == Answered(None, Failed)
      ensures handle != null && !HeldByAnother(old(handle.state), t) ==>
        && handle.state == Os(Some(t), old(handle.state).count + 1, false)
        && r.Answered? && r.answer == if old(handle.state).abandoned then Abandoned else Object0
      ensures handle != null && HeldByAnother(old(handle.state), t) ==>
        handle.state == old(handle.state) && (if timed then r.Answered? && r.answer == Timeout else r == Blocked)
    {
      if handle == null {
        return Answered(None, Failed);
      }
      if handle.state.Available(t) {
        var answer := if handle.state.abandoned then Abandoned else Object0;
        handle.state := handle.state.Acquired(t);
        return Answered(Some(handle.state), answer);
      }
      return if timed then Answered(Some(handle.state), Timeout) else Blocked;
    }

    method Lock(t: nat) returns (outcome: Outcome)
      modifies Mutexes()
      ensures handle == old(handle) && MutexResult(View(), outcome) == LockMutex(old(View()), t, false)
      ensures LocksAs(old(View()), t, Blocks, View(), outcome)
      ensures outcome != Returned(false)
    {
      LockMeans(View(), t, false);
      var ec := Wait(t, false);
      if ec.Blocked? {
        return Blocks;
      }
      if ec.answer != Object0 {
        return Thrown(WaitError(ec.answer));
      }
      return Returned(true);
    }

    method TryLockFor(t: nat) returns (outcome: Outcome)
      modifies Mutexes()
      ensures handle == old(handle) && MutexResult(View(), outcome) == LockMutex(old(View()), t, true)
      ensures LocksAs(old(View()), t, Returned(false), View(), outcome)
      ensures !outcome.Blocks?
    {
      LockMeans(View(), t, true);
      var ec := Wait(t, true);
      if ec.answer == Timeout {
        return Returned(false);
      }
      if ec.answer == Object0 {
        return Returned(true);
      }
      return Thrown(WaitError(ec.answer));
    }

    method Unlock(t: nat) returns (outcome: Outcome)
      modifies Mutexes()
      ensures handle == old(handle) && MutexResult(View(), outcome) == UnlockMutex(old(View()), t)
      ensures UnlocksAs(old(View()), t, View(), outcome)
    {
      UnlockMeans(View(), t);
      if handle == null || !handle.state.Releasable(t) {
        return Thrown(ReleaseError);
      }
      handle.state := handle.state.Released();
      return Returned(true);
    }
  }

  class ProcessLockGuard {
    var pmtx: ProcessMutex?
    var owns: bool

    /** Only an attached guard can own. */
    ghost predicate Valid()
      reads this
    {
      owns ==> pmtx != null
    }

    function Footprint(): set<object>
      reads this, pmtx
    {
      {this} + if pmtx == null then {} else pmtx.Mutexes()
    }

    /** The mutex the guard is attached to. */
    function View(): Option<Os>
      reads this, pmtx, Footprint()
    {
      if pmtx == null then None else pmtx.View()
    }

    constructor ()
      ensures Valid() && pmtx == null && !owns
    {
      pmtx, owns := null, false;
    }

    constructor On(mutex: ProcessMutex)
      ensures Valid() && pmtx == mutex && !owns
    {
      pmtx, owns := mutex, false;
    }

    /** The new guard takes over; the moved-from guard owns nothing and refers to nothing. */
    constructor Move(other: ProcessLockGuard)
      requires other.Valid()
      modifies other
      ensures Valid() && pmtx == old(other.pmtx) && owns == old(other.owns)
      ensures other.Valid() && other.pmtx == null && !other.owns
    {
      pmtx, owns := other.pmtx, other.owns;
      new;
      other.pmtx := null;
      other.owns := false;
    }

    /**
     operator=(&&).  Assigning a guard to itself does nothing.  If giving up the own mutex throws, both
     guards are left as they were; otherwise the own mutex has been given up and the other guard's
     pointer and ownership have changed hands.
     */
    method MoveAssign(other: ProcessLockGuard, t: nat) returns (outcome: Outcome)
      requires Valid() && other.Valid()
      modifies Footprint(), other
      ensures Valid() && other.Valid()
      ensures other == this ==> outcome == Returned(true) && pmtx == old(pmtx) && owns == old(owns) && View() == old(View())
      ensures other != this && old(owns) && !HeldBy(old(View()), t) ==>
        && outcome == Thrown(ReleaseError) && pmtx == old(pmtx) && owns && View() == old(View())
        && other.pmtx == old(other.pmtx) && other.owns == old(other.owns)
      ensures other != this && (old(owns) ==> HeldBy(old(View()), t)) ==>
        && outcome == Returned(true) && pmtx == old(other.pmtx) && owns == old(other.owns)
        && other.pmtx == null && !other.owns
        && (old(owns) ==> UnlocksAs(old(View()), t, old(pmtx).View(), Returned(true)))
        && (!old(owns) && old(pmtx) != null ==> old(pmtx).View() == old(View()))
    {
      if this != other {
        if owns {
          outcome := pmtx.Unlock(t);
          if outcome.Thrown? {
            return;
          }
          owns := false;
        }
        pmtx := other.pmtx;
        owns := other.owns;
        other.pmtx := null;
        other.owns := false;
      }
      outcome := Returned(true);
    }

    /** The destructor; a throwing unlock ends the program, since the destructor is noexcept. */
    method Destroy(t: nat) returns (terminated: bool)
      requires Valid()
      modifies Footprint()
      ensures pmtx == old(pmtx)
      ensures terminated <==> old(owns) && !HeldBy(old(View()), t)
      ensures old(owns) ==> UnlocksAs(old(View()), t, View(), if terminated then Thrown(ReleaseError) else Returned(true))
      ensures !old(owns) ==> View() == old(View())
    {
      terminated := false;
      if owns {
        var outcome := pmtx.Unlock(t);
        terminated := outcome.Thrown?;
      }
    }

    /** _Validate: the error that forbids locking, if any. */
    method Validate() returns (error: Option<Error>)
      ensures error.None? <==> pmtx != null && !owns
      ensures error.Some? ==> error.value == if pmtx == null then NotPermitted else WouldDeadlock
    {
      if pmtx == null {
        return Some(NotPermitted);
      }
      return if owns then Some(WouldDeadlock) else None;
    }

    method Lock(t: nat) returns (outcome: Outcome)
      requires Valid()
      modifies Footprint()
      ensures Valid() && pmtx == old(pmtx)
      ensures GuardResult(View(), owns, outcome) == LockGuard(pmtx != null, old(owns), old(View()), t, false)
      ensures GuardLocksAs(pmtx != null, old(owns), old(View()), t, Blocks, View(), owns, outcome)
    {
      GuardLockMeans(pmtx != null, owns, View(), t, false);
      var error := Validate();
      if error.Some? {
        return Thrown(error.value);
      }
      outcome := pmtx.Lock(t);
      if outcome.Returned? {
        owns := true;
      }
    }

    method TryLockFor(t: nat) returns (outcome: Outcome)
      requires Valid()
      modifies Footprint()
      ensures Valid() && pmtx == old(pmtx)
      ensures GuardResult(View(), owns, outcome) == LockGuard(pmtx != null, old(owns), old(View()), t, true)
      ensures GuardLocksAs(pmtx != null, old(owns), old(View()), t, Returned(false), View(), owns, outcome)
      ensures !outcome.Blocks?
    {
      GuardLockMeans(pmtx != null, owns, View(), t, true);
      var error := Validate();
      if error.Some? {
        return Thrown(error.value);
      }
      outcome := pmtx.TryLockFor(t);
      if outcome.Returned? {
        owns := outcome.value;
      }
    }

    method Unlock(t: nat) returns (outcome: Outcome)
      requires Valid()
      modifies Footprint()
      ensures Valid() && pmtx == old(pmtx)
      ensures GuardResult(View(), owns, outcome) == UnlockGuard(pmtx != null, old(owns), old(View()), t)
      ensures GuardUnlocksAs(pmtx != null, old(owns), old(View()), t, View(), owns, outcome)
    {
      GuardUnlockMeans(pmtx != null, owns, View(), t);
      if pmtx == null || !owns {
        return Thrown(NotPermitted);
      }
      outcome := pmtx.Unlock(t);
      if !outcome.Thrown? {
        owns := false;
      }
    }
  }
}
