/**
 What each call on a mutex or a guard does, said in full and without the functions that the machine is made
 of; and what follows for several guards of one thread: the mutex is recursive.
 */
module LockCalls {
  import opened Wrappers
  import opened LockMachine
  import opened LockTheorems

  // ----- One call on one mutex -----

  predicate HeldByAnother(o: Os, t: nat) { o.owner.Some? && o.owner.value != t }

  /**
   Locking: without a mutex the wait fails; a mutex of another thread is left alone and the call is refused, by
   blocking or by a timeout; any other mutex is held once more, even if the caller is told that it was abandoned.
   */
  predicate LocksAs(before: Option<Os>, t: nat, refusal: Outcome, after: Option<Os>, outcome: Outcome) {
    match before
    case None => after == None && outcome == Thrown(WaitError(Failed))
    case Some(o) =>
      if HeldByAnother(o, t) then after == before && outcome == refusal
      else
        && after == Some(Os(Some(t), o.count + 1, false))
        && outcome == (if o.abandoned then Thrown(WaitError(Abandoned)) else Returned(true))
  }

  lemma LockMeans(h: Option<Os>, t: nat, timed: bool)
    ensures
      var r := LockMutex(h, t, timed);
      LocksAs(h, t, if timed then Returned(false) else Blocks, r.os, r.outcome)
  {
  }

  predicate HeldBy(o: Option<Os>, t: nat) { o.Some? && o.value.owner == Some(t) && o.value.count > 0 }

  /** Unlocking: the owner gives back one hold, the last one frees the mutex; for anyone else nothing changes. */
  predicate UnlocksAs(before: Option<Os>, t: nat, after: Option<Os>, outcome: Outcome) {
    if HeldBy(before, t) then
      && outcome == Returned(true) && after.Some? && after.value.count == before.value.count - 1
      && after.value.owner == (if before.value.count == 1 then None else Some(t))
      && after.value.abandoned == before.value.abandoned
    else after == before && outcome == Thrown(ReleaseError)
  }

  lemma UnlockMeans(h: Option<Os>, t: nat)
    ensures UnlocksAs(h, t, UnlockMutex(h, t).os, UnlockMutex(h, t).outcome)
  {
  }

  /** A guard locks only if it is attached and does not own, and owns exactly after a success. */
  predicate GuardLocksAs(attached: bool, owns: bool, before: Option<Os>, t: nat, refusal: Outcome,
                         after: Option<Os>, owns': bool, outcome: Outcome) {
    if !attached then after == before && owns' == owns && outcome == Thrown(NotPermitted)
    else if owns then after == before && owns' && outcome == Thrown(WouldDeadlock)
    else LocksAs(before, t, refusal, after, outcome) && (owns' <==> outcome == Returned(true))
  }

  lemma GuardLockMeans(attached: bool, owns: bool, h: Option<Os>, t: nat, timed: bool)
    ensures
      var r := LockGuard(attached, owns, h, t, timed);
      GuardLocksAs(attached, owns, h, t, if timed then Returned(false) else Blocks, r.os, r.owns, r.outcome)
  {
    LockMeans(h, t, timed);
  }

  /** A guard unlocks only if it is attached and owns, and goes on owning if the mutex refuses. */
  predicate GuardUnlocksAs(attached: bool, owns: bool, before: Option<Os>, t: nat, after: Option<Os>, owns': bool, outcome: Outcome) {
    if !attached || !owns then after == before && owns' == owns && outcome == Thrown(NotPermitted)
    else UnlocksAs(before, t, after, outcome) && (owns' <==> outcome != Returned(true))
  }

  lemma GuardUnlockMeans(attached: bool, owns: bool, h: Option<Os>, t: nat)
    ensures
      var r := UnlockGuard(attached, owns, h, t);
      GuardUnlocksAs(attached, owns, h, t, r.os, r.owns, r.outcome)
  {
    UnlockMeans(h, t);
  }

  // ----- Creating and opening -----

  /**
   A process_mutex on a new name.  The new mutex is free, and every thread can lock it at once, if and only if
   initial ownership is not asked for; otherwise exactly the creator holds it, once.
   */
  lemma NewMutexIsFreeIff(w: World, p: nat, m: nat, t: nat, initialOwner: bool)
    requires Step(w, OpenMutex(p, m, t, initialOwner)).Some? && m !in w.os
    ensures
      var v := Step(w, OpenMutex(p, m, t, initialOwner)).value;
      && m in v.os && m in v.direct
      && v == w.(handles := w.handles[p := m], os := w.os[m := v.os[m]], direct := w.direct[m := v.direct[m]])
      && (v.os[m].owner == None <==> !initialOwner)
      && ((forall u :: LockMutex(Some(v.os[m]), u, false).outcome == Returned(true)) <==> !initialOwner)
      && (!initialOwner ==> v.os[m].count == 0 && v.direct[m] == 0 && !v.os[m].abandoned)
      && (initialOwner ==> v.os[m] == Os(Some(t), 1, false) && v.direct[m] == 1)
  {
    assert LockMutex(Some(Os(Some(t), 1, false)), t + 1, false).outcome == Blocks;
  }

  /** A process_mutex on a name that exists refers to that mutex, and nothing happens to it, whatever is asked for. */
  lemma ExistingMutexIsOpened(w: World, p: nat, m: nat, t: nat, initialOwner: bool)
    requires Step(w, OpenMutex(p, m, t, initialOwner)).Some? && m in w.os
    ensures Step(w, OpenMutex(p, m, t, initialOwner)).value == w.(handles := w.handles[p := m])
  {
  }

  /** When the constructors can be called. */
  lemma ConstructorsAreCallable(w: World, p: nat, m: nat, t: nat, initialOwner: bool, g: nat, pmtx: Option<nat>)
    ensures Step(w, OpenMutex(p, m, t, initialOwner)).Some? <==> !w.over && p !in w.handles && m != NULL
    ensures Step(w, NullMutex(p)).Some? <==> !w.over && p !in w.handles
    ensures Step(w, Attach(g, pmtx)).Some? <==> !w.over && g !in w.guards && (pmtx.Some? ==> pmtx.value in w.handles)
  {
  }

  /** Without a mutex behind its process_mutex a guard's lock always fails, and the guard does not own. */
  lemma NullMutexNeverLocks(w: World, p: nat, g: nat, t: nat, timed: bool)
    requires Attached(w) && Step(w, NullMutex(p)).Some? && g !in w.guards
    ensures
      var u := Step(w, NullMutex(p)).value;
      && Step(u, Attach(g, Some(p))).Some?
      && var v := Step(u, Attach(g, Some(p))).value;
         && Step(v, Lock(g, t, timed)).Some?
         && var x := Step(v, Lock(g, t, timed)).value;
            g in x.guards && !x.guards[g].owns && x.os == w.os && x.direct == w.direct
  {
  }

  // ----- Calls on a guard -----

  /** An attached guard that does not own, on an existing mutex. */
  predicate Locking(w: World, g: nat, m: nat) {
    !w.over && g in w.guards && w.guards[g].pmtx.Some? && !w.guards[g].owns && w.Of(w.guards[g]) == m && m in w.os
  }

  /** A lock call does not return, or times out, exactly while another thread holds the mutex. */
  lemma LockBlocksIff(w: World, g: nat, m: nat, t: nat)
    requires Locking(w, g, m)
    ensures Step(w, Lock(g, t, false)).None? <==> HeldByAnother(w.os[m], t)
    ensures
      && Step(w, Lock(g, t, true)).Some?
      && (HeldByAnother(w.os[m], t) ==>
            var v := Step(w, Lock(g, t, true)).value;
            v.os == w.os && v.direct == w.direct && v.guards == w.guards[g := Guard(w.guards[g].pmtx, false, t)])
  {
  }

  /** A lock call that returns adds one hold, which the guard knows about unless the mutex was abandoned. */
  lemma LockTakesOneHold(w: World, g: nat, m: nat, t: nat, timed: bool)
    requires Locking(w, g, m) && !HeldByAnother(w.os[m], t)
    ensures Step(w, Lock(g, t, timed)) == Some(w.(
      os := w.os[m := Os(Some(t), w.os[m].count + 1, false)],
      guards := w.guards[g := Guard(w.guards[g].pmtx, !w.os[m].abandoned, t)]))
  {
  }

  /** A guard that owns already, or is attached to nothing, takes no hold; nor does a guard that does not own give one back. */
  lemma RefusedCallsChangeNothing(w: World, g: nat, t: nat, timed: bool)
    requires !w.over && g in w.guards
    ensures w.guards[g].owns ==> Step(w, Lock(g, t, timed)) == Some(w)
    ensures !w.guards[g].owns && w.guards[g].pmtx.None? && NULL !in w.os ==>
      Step(w, Lock(g, t, timed)) == Some(w.(guards := w.guards[g := Guard(None, false, t)]))
    ensures !w.guards[g].owns ==> Step(w, Unlock(g, t)) == Some(w)
  {
  }

  /** A move assignment to itself, or one that cannot give back the target's own hold, changes nothing. */
  lemma FailedMoveChangesNothing(w: World, g: nat, from: nat, t: nat)
    requires Inv(w) && !w.over && g in w.guards && from in w.guards
    requires g == from || (w.guards[g].owns && t != w.guards[g].locker)
    ensures Step(w, MoveAssign(g, from, t)) == Some(w)
  {
    if w.guards[g].owns {
      assert LockerOwns(w, w.guards[g]);
    }
  }

  /** The locking thread gives back one hold, and the guard is as it was attached; for other threads nothing happens. */
  lemma UnlockGivesOneHold(w: World, g: nat, t: nat)
    requires Inv(w) && !w.over && g in w.guards && w.guards[g].owns
    ensures
      var m := w.Of(w.guards[g]);
      && Step(w, Unlock(g, t)).Some?
      && var v := Step(w, Unlock(g, t)).value;
         if t != w.guards[g].locker then v == w
         else v == w.(os := w.os[m := Os(if w.os[m].count == 1 then None else Some(t), w.os[m].count - 1, false)],
                      guards := w.guards[g := w.guards[g].(owns := false)])
  {
    assert LockerOwns(w, w.guards[g]) && Sane(w.os[w.Of(w.guards[g])]);
  }

  /** So does the destructor, which removes the guard; if another thread destroys it the program ends. */
  lemma DestroyGivesOneHold(w: World, g: nat, t: nat)
    requires Inv(w) && !w.over && g in w.guards
    ensures
      var m := w.Of(w.guards[g]);
      && Step(w, Destroy(g, t)).Some?
      && var v := Step(w, Destroy(g, t)).value;
         if !w.guards[g].owns then v == w.(guards := w.guards - {g})
         else if t != w.guards[g].locker then v == w.(over := true) && forall l :: Step(v, l).None?
         else v == w.(os := w.os[m := Os(if w.os[m].count == 1 then None else Some(t), w.os[m].count - 1, false)],
                      guards := w.guards - {g})
  {
    if w.guards[g].owns {
      assert LockerOwns(w, w.guards[g]) && Sane(w.os[w.Of(w.guards[g])]);
    }
  }

  /** The guard that a new one is moved from refers to nothing and owns nothing; nothing else changes. */
  lemma MoveNewTransfers(w: World, g: nat, from: nat)
    requires !w.over && g !in w.guards && from in w.guards
    ensures Step(w, MoveNew(g, from))
         == Some(w.(guards := w.guards[g := w.guards[from]][from := Guard(None, false, 0)]))
  {
  }

  /** The whole effect of a move assignment that gives back the target's own hold, if it has one. */
  lemma MoveAssignInFull(w: World, g: nat, from: nat, t: nat)
    requires Inv(w) && !w.over && g in w.guards && from in w.guards && g != from
    requires w.guards[g].owns ==> t == w.guards[g].locker
    ensures
      var m := w.Of(w.guards[g]);
      && (w.guards[g].owns ==> m in w.os && w.os[m].count > 0)
      && Step(w, MoveAssign(g, from, t)) == Some(w.(
           os := if w.guards[g].owns then w.os[m := Os(if w.os[m].count == 1 then None else Some(t), w.os[m].count - 1, false)] else w.os,
           guards := w.guards[g := w.guards[from]][from := Guard(None, false, 0)]))
  {
    if w.guards[g].owns {
      assert LockerOwns(w, w.guards[g]) && Sane(w.os[w.Of(w.guards[g])]);
    }
  }

  // ----- Calls on the process_mutex itself -----

  /** A direct call that can have the mutex adds one hold, which counts as a direct one unless the call throws. */
  lemma DirectLockTakesOneHold(w: World, p: nat, t: nat, timed: bool)
    requires Attached(w) && !w.over && p in w.handles && w.handles[p] in w.os && !HeldByAnother(w.os[w.handles[p]], t)
    ensures
      var m := w.handles[p];
      Step(w, DirectLock(p, t, timed)) == Some(w.(
        os := w.os[m := Os(Some(t), w.os[m].count + 1, false)],
        direct := w.direct[m := w.direct[m] + if w.os[m].abandoned then 0 else 1]))
  {
    var m := w.handles[p];
    assert w.direct[m := w.direct[m]] == w.direct;
  }

  /** Without a mutex behind the process_mutex every direct call fails. */
  lemma NullMutexRefusesAll(w: World, p: nat, t: nat, timed: bool)
    requires Attached(w) && !w.over && p in w.handles && w.handles[p] == NULL
    ensures Step(w, DirectLock(p, t, timed)) == Some(w) && Step(w, DirectUnlock(p, t)) == Some(w)
  {
  }

  lemma DirectLockRefused(w: World, p: nat, t: nat)
    requires !w.over && p in w.handles && w.handles[p] in w.os && HeldByAnother(w.os[w.handles[p]], t)
    ensures Step(w, DirectLock(p, t, false)).None? && Step(w, DirectLock(p, t, true)) == Some(w)
  {
    var m := w.handles[p];
    assert w.os[m := w.os[m]] == w.os;
  }

  /** A direct unlock by the owner gives back one hold, a direct one if there is any; for anyone else nothing happens. */
  lemma DirectUnlockGivesOneHold(w: World, p: nat, t: nat)
    requires Inv(w) && !w.over && p in w.handles && w.handles[p] in w.os
    ensures
      var m := w.handles[p];
      Step(w, DirectUnlock(p, t)) == Some(
        if w.os[m].owner != Some(t) then w
        else w.(os := w.os[m := Os(if w.os[m].count == 1 then None else Some(t), w.os[m].count - 1, false)],
                direct := w.direct[m := if w.direct[m] > 0 then w.direct[m] - 1 else 0]))
  {
    var m := w.handles[p];
    assert Sane(w.os[m]);
    if w.direct[m] == 0 {
      assert w.direct[m := 0] == w.direct;
    }
  }

  /** A thread that ends leaves its mutexes free and abandoned, and all others as they are. */
  lemma ExitAbandons(w: World, t: nat, m: nat)
    requires !w.over && m in w.os && m in w.direct
    ensures
      && Step(w, Exit(t)).Some?
      && var v := Step(w, Exit(t)).value;
         && v.handles == w.handles && v.guards == w.guards && v.os.Keys == w.os.Keys
         && v.os[m] == (if w.os[m].owner == Some(t) then Os(None, 0, true) else w.os[m])
         && v.direct[m] == (if w.os[m].owner == Some(t) then 0 else w.direct[m])
  {
  }

  // ----- The mutex is recursive -----

  function LockEach(gs: seq<nat>, t: nat): seq<Label> {
    if gs == [] then [] else [Lock(gs[0], t, false)] + LockEach(gs[1..], t)
  }

  function UnlockEach(gs: seq<nat>, t: nat): seq<Label> {
    if gs == [] then [] else [Unlock(gs[0], t)] + UnlockEach(gs[1..], t)
  }

  ghost predicate Distinct(gs: seq<nat>) {
    forall i, j :: 0 <= i < j < |gs| ==> gs[i] != gs[j]
  }

  /** All guards of the list can be locked on mutex m. */
  ghost predicate AllLocking(w: World, gs: seq<nat>, m: nat) {
    forall i :: 0 <= i < |gs| ==> Locking(w, gs[i], m)
  }

  /** One thread can lock a mutex through any number of guards; it then holds it that often. */
  lemma {:induction false} LocksAddUp(w: World, gs: seq<nat>, m: nat, t: nat)
    requires Distinct(gs) && AllLocking(w, gs, m) && m in w.os && !HeldByAnother(w.os[m], t) && !w.os[m].abandoned
    ensures CanRun(w, LockEach(gs, t))
    ensures
      var v := Final(w, LockEach(gs, t));
      && m in v.os && v.os[m].count == w.os[m].count + |gs| && !v.os[m].abandoned
      && v.os[m].owner == (if gs == [] then w.os[m].owner else Some(t))
      && v.guards.Keys == w.guards.Keys && v.handles == w.handles && v.over == w.over
      && (forall i :: 0 <= i < |gs| ==> gs[i] in v.guards && v.guards[gs[i]] == Guard(w.guards[gs[i]].pmtx, true, t))
      && (forall g :: g in w.guards && g !in gs ==> v.guards[g] == w.guards[g])
    decreases |gs|
  {
    if gs != [] {
      LockTakesOneHold(w, gs[0], m, t, false);
      var u := Step(w, Lock(gs[0], t, false)).value;
      assert forall i :: 0 <= i < |gs| - 1 ==> gs[1..][i] == gs[i + 1];
      forall i | 0 <= i < |gs| - 1
        ensures Locking(u, gs[1..][i], m)
      {
        assert Locking(w, gs[i + 1], m);
      }
      LocksAddUp(u, gs[1..], m, t);
      assert LockEach(gs, t)[1..] == LockEach(gs[1..], t);
      assert gs == [gs[0]] + gs[1..];
    }
  }

  /** All guards of the list own mutex m for thread t. */
  ghost predicate AllOwning(w: World, gs: seq<nat>, m: nat, t: nat) {
    forall i :: 0 <= i < |gs| ==>
      gs[i] in w.guards && w.guards[gs[i]].owns && w.guards[gs[i]].locker == t && w.Of(w.guards[gs[i]]) == m
  }

  lemma {:induction false} LocksKeepInv(w: World, gs: seq<nat>, m: nat, t: nat)
    requires Inv(w) && Distinct(gs) && AllLocking(w, gs, m) && m in w.os && !HeldByAnother(w.os[m], t) && !w.os[m].abandoned
    ensures CanRun(w, LockEach(gs, t)) && Inv(Final(w, LockEach(gs, t)))
    decreases |gs|
  {
    if gs != [] {
      LockTakesOneHold(w, gs[0], m, t, false);
      StepConservesIff(w, Lock(gs[0], t, false));
      var u := Step(w, Lock(gs[0], t, false)).value;
      forall i | 0 <= i < |gs| - 1
        ensures Locking(u, gs[1..][i], m)
      {
        assert gs[1..][i] == gs[i + 1] && Locking(w, gs[i + 1], m);
      }
      assert forall i :: 0 <= i < |gs| - 1 ==> gs[1..][i] == gs[i + 1];
      LocksKeepInv(u, gs[1..], m, t);
      assert LockEach(gs, t)[1..] == LockEach(gs[1..], t);
    }
  }

  /** What unlocking the guards gs makes of w. */
  ghost predicate GaveBack(w: World, v: World, gs: seq<nat>, m: nat) {
    && Inv(v) && !v.over && v.handles == w.handles && m in w.os && m in v.os
    && v.os[m].count == w.os[m].count - |gs| && v.os[m].owner == (if v.os[m].count == 0 then None else w.os[m].owner)
    && v.guards.Keys == w.guards.Keys && (forall g :: g in w.guards && g !in gs ==> v.guards[g] == w.guards[g])
  }

  lemma UnlockFirst(w: World, gs: seq<nat>, m: nat, t: nat)
    requires Inv(w) && !w.over && gs != [] && Distinct(gs) && AllOwning(w, gs, m, t) && m in w.os
    ensures
      && Step(w, Unlock(gs[0], t)).Some?
      && var u := Step(w, Unlock(gs[0], t)).value;
         GaveBack(w, u, [gs[0]], m) && AllOwning(u, gs[1..], m, t) && w.os[m].owner == Some(t)
  {
    assert LockerOwns(w, w.guards[gs[0]]);
    UnlockGivesOneHold(w, gs[0], t);
    StepConservesIff(w, Unlock(gs[0], t));
    assert forall i :: 0 <= i < |gs| - 1 ==> gs[1..][i] == gs[i + 1];
  }

  lemma GaveBackOneMore(w: World, u: World, v: World, gs: seq<nat>, m: nat)
    requires gs != [] && GaveBack(w, u, [gs[0]], m) && GaveBack(u, v, gs[1..], m)
    ensures GaveBack(w, v, gs, m)
  {
    assert gs == [gs[0]] + gs[1..];
  }

  lemma NothingGivenBack(w: World, m: nat)
    requires Inv(w) && !w.over && m in w.os
    ensures GaveBack(w, w, [], m)
  {
    assert Sane(w.os[m]);
  }

  /** Unlocking them one after the other gives back as many holds; the mutex is free when none is left. */
  lemma {:induction false} UnlocksAddUp(w: World, gs: seq<nat>, m: nat, t: nat)
    requires Inv(w) && !w.over && Distinct(gs) && AllOwning(w, gs, m, t) && m in w.os
    ensures CanRun(w, UnlockEach(gs, t)) && GaveBack(w, Final(w, UnlockEach(gs, t)), gs, m)
    decreases |gs|
  {
    if gs == [] {
      NothingGivenBack(w, m);
    } else {
      UnlockFirst(w, gs, m, t);
      var u := Step(w, Unlock(gs[0], t)).value;
      UnlocksAddUp(u, gs[1..], m, t);
      RunStep(w, Unlock(gs[0], t), UnlockEach(gs[1..], t));
      GaveBackOneMore(w, u, Final(u, UnlockEach(gs[1..], t)), gs, m);
    }
  }

  lemma FirstOnesOwn(w: World, x: World, gs: seq<nat>, m: nat, t: nat, k: nat)
    requires AllLocking(w, gs, m) && k <= |gs| && x.handles == w.handles
    requires forall i :: 0 <= i < |gs| ==> gs[i] in x.guards && x.guards[gs[i]] == Guard(w.guards[gs[i]].pmtx, true, t)
    ensures AllOwning(x, gs[..k], m, t)
  {
    forall i | 0 <= i < k
      ensures x.Of(x.guards[gs[i]]) == m
    {
      assert Locking(w, gs[i], m);
    }
  }

  /**
   A recursive mutex.  A thread locks a free mutex through any number of guards and then unlocks the first k of
   them: it holds the mutex as often as guards are left, and another thread's lock call returns exactly when
   none is left.
   */
  lemma OthersWaitForTheLastUnlock(w: World, gs: seq<nat>, m: nat, t: nat, k: nat, h: nat, u: nat)
    requires Inv(w) && Distinct(gs) && AllLocking(w, gs, m) && k <= |gs|
    requires Locking(w, h, m) && h !in gs && u != t && w.os[m].owner == None && !w.os[m].abandoned
    ensures CanRun(w, LockEach(gs, t)) && CanRun(Final(w, LockEach(gs, t)), UnlockEach(gs[..k], t))
    ensures
      var v := Final(Final(w, LockEach(gs, t)), UnlockEach(gs[..k], t));
      && m in v.os && v.os[m].count == |gs| - k
      && (Step(v, Lock(h, u, false)).Some? <==> k == |gs|)
  {
    LocksAddUp(w, gs, m, t);
    LocksKeepInv(w, gs, m, t);
    var x := Final(w, LockEach(gs, t));
    FirstOnesOwn(w, x, gs, m, t, k);
    UnlocksAddUp(x, gs[..k], m, t);
    var v := Final(x, UnlockEach(gs[..k], t));
    assert Sane(w.os[m]);
    assert h !in gs[..k] && Locking(v, h, m);
    LockBlocksIff(v, h, m, u);
  }
}
