/**
 Ownership is conserved: over every run of guard and mutex operations by any number of threads, the
 recursion count of each mutex is the number of guards that own it plus the holds taken directly.
 */
module LockTheorems {
  import opened Wrappers
  import opened LockMachine

  // ----- The invariant -----

  /** The guard owns mutex m. */
  predicate OwnsMutex(handles: map<nat, nat>, guard: Guard, m: nat) {
    guard.owns && (if guard.pmtx.Some? && guard.pmtx.value in handles then handles[guard.pmtx.value] else NULL) == m
  }

  ghost function Owners(handles: map<nat, nat>, guards: map<nat, Guard>, m: nat): set<nat> {
    set g | g in guards && OwnsMutex(handles, guards[g], m)
  }

  ghost function Owning(w: World, m: nat): set<nat> { Owners(w.handles, w.guards, m) }

  /** Guards and process_mutex objects refer to things that exist, and only an attached guard can own. */
  ghost predicate Attached(w: World) {
    && w.direct.Keys == w.os.Keys && NULL !in w.os
    && (forall p :: p in w.handles && w.handles[p] != NULL ==> w.handles[p] in w.os)
    && (forall g :: g in w.guards && w.guards[g].pmtx.Some? ==> w.guards[g].pmtx.value in w.handles)
    && (forall g :: g in w.guards && w.guards[g].owns ==> w.Of(w.guards[g]) in w.os)
  }

  ghost predicate Balanced(w: World, m: nat)
    requires m in w.os && m in w.direct
  {
    w.os[m].count == w.direct[m] + |Owning(w, m)|
  }

  ghost predicate Conserved(w: World) {
    w.direct.Keys == w.os.Keys && forall m :: m in w.os ==> Balanced(w, m)
  }

  /** A mutex has an owner exactly while it is held, and it is not abandoned then. */
  predicate Sane(o: Os) { (o.owner.Some? <==> o.count > 0) && (o.abandoned ==> o.owner.None?) }

  ghost predicate AllSane(w: World) { forall m :: m in w.os ==> Sane(w.os[m]) }

  /** A guard that owns was locked by the thread that owns the mutex. */
  ghost predicate Lockers(w: World) {
    forall g :: g in w.guards && w.guards[g].owns ==> LockerOwns(w, w.guards[g])
  }

  predicate LockerOwns(w: World, guard: Guard) {
    w.Of(guard) in w.os && w.os[w.Of(guard)].owner == Some(guard.locker)
  }

  ghost predicate Inv(w: World) { Attached(w) && Conserved(w) && AllSane(w) && Lockers(w) }

  // ----- Changing one mutex and one guard -----

  function Changed(w: World, m: nat, h: Option<Os>, g: nat, guard: Guard): World {
    w.Put(m, h).(guards := w.guards[g := guard])
  }

  /** What the change does to the number of guards that own n. */
  function Gain(w: World, g: nat, guard: Guard, n: nat): int {
    (if OwnsMutex(w.handles, guard, n) then 1 else 0)
    - (if g in w.guards && OwnsMutex(w.handles, w.guards[g], n) then 1 else 0)
  }

  lemma OwnersChanged(handles: map<nat, nat>, guards: map<nat, Guard>, g: nat, guard: Guard, n: nat)
    ensures Owners(handles, guards[g := guard], n) - {g} == Owners(handles, guards, n) - {g}
    ensures g in Owners(handles, guards[g := guard], n) <==> OwnsMutex(handles, guard, n)
  {
  }

  lemma OwningChanged(w: World, m: nat, h: Option<Os>, g: nat, guard: Guard, n: nat)
    ensures |Owning(Changed(w, m, h, g, guard), n)| == |Owning(w, n)| + Gain(w, g, guard, n)
  {
    OwnersChanged(w.handles, w.guards, g, guard, n);
    SizeWithout(Owners(w.handles, w.guards[g := guard], n), g);
    SizeWithout(Owners(w.handles, w.guards, n), g);
  }

  lemma SizeWithout(s: set<nat>, x: nat)
    ensures |s - {x}| == |s| - if x in s then 1 else 0
  {
    if x !in s {
      assert s - {x} == s;
    }
  }

  lemma ChangedAttached(w: World, m: nat, h: Option<Os>, g: nat, guard: Guard)
    requires Attached(w) && (h.Some? ==> m in w.os)
    requires guard.pmtx.Some? ==> guard.pmtx.value in w.handles
    requires guard.owns ==> w.Of(guard) in w.os
    ensures Attached(Changed(w, m, h, g, guard))
  {
    assert w.Put(m, h).os.Keys == w.os.Keys;
  }

  lemma ChangedConservedIff(w: World, m: nat, h: Option<Os>, g: nat, guard: Guard)
    requires Conserved(w) && (h.Some? ==> m in w.os)
    ensures
      Conserved(Changed(w, m, h, g, guard))
      <==> forall n :: n in w.os ==> Changed(w, m, h, g, guard).os[n].count - w.os[n].count == Gain(w, g, guard, n)
  {
    var v := Changed(w, m, h, g, guard);
    assert v.os.Keys == w.os.Keys;
    forall n | n in w.os
      ensures Balanced(v, n) <==> v.os[n].count - w.os[n].count == Gain(w, g, guard, n)
    {
      OwningChanged(w, m, h, g, guard, n);
      assert Balanced(w, n);
    }
  }

  lemma ChangedLockers(w: World, m: nat, h: Option<Os>, g: nat, guard: Guard)
    requires Attached(w) && Lockers(w) && (h.Some? ==> m in w.os)
    requires guard.owns ==> LockerOwns(Changed(w, m, h, g, guard), guard)
    requires h.Some? ==> h.value.owner == w.os[m].owner || Owning(w, m) <= {g}
    ensures Lockers(Changed(w, m, h, g, guard))
  {
    var v := Changed(w, m, h, g, guard);
    forall x | x in v.guards && v.guards[x].owns
      ensures LockerOwns(v, v.guards[x])
    {
      if x != g {
        assert LockerOwns(w, w.guards[x]);
        assert w.Of(w.guards[x]) == m ==> x in Owning(w, m);
      }
    }
  }

  lemma ChangedSane(w: World, m: nat, h: Option<Os>, g: nat, guard: Guard)
    requires AllSane(w) && (h.Some? ==> Sane(h.value))
    ensures AllSane(Changed(w, m, h, g, guard))
  {
  }

  lemma Singleton(s: set<nat>, x: nat)
    requires x in s && |s| <= 1
    ensures s == {x}
  {
    SizeWithout(s, x);
    assert s - {x} == {};
  }

  lemma Owns(w: World, g: nat)
    requires g in w.guards && w.guards[g].owns
    ensures g in Owning(w, w.Of(w.guards[g]))
  {
  }

  // ----- Unlocking, destroying, moving -----

  function GivenBack(w: World, g: nat): World
    requires g in w.guards && w.Of(w.guards[g]) in w.os && w.os[w.Of(w.guards[g])].count > 0
  {
    var m := w.Of(w.guards[g]);
    Changed(w, m, Some(w.os[m].Released()), g, w.guards[g].(owns := false))
  }

  lemma GivingBackConserves(w: World, g: nat)
    requires Inv(w) && g in w.guards && w.guards[g].owns && w.os[w.Of(w.guards[g])].count > 0
    ensures Conserved(GivenBack(w, g))
  {
    var m := w.Of(w.guards[g]);
    Owns(w, g);
    ChangedConservedIff(w, m, Some(w.os[m].Released()), g, w.guards[g].(owns := false));
  }

  lemma LastHold(w: World, g: nat)
    requires Inv(w) && g in w.guards && w.guards[g].owns && w.os[w.Of(w.guards[g])].count == 1
    ensures Owning(w, w.Of(w.guards[g])) == {g}
  {
    Owns(w, g);
    assert Balanced(w, w.Of(w.guards[g]));
    Singleton(Owning(w, w.Of(w.guards[g])), g);
  }

  lemma GivingBackKeepsRest(w: World, g: nat)
    requires Inv(w) && g in w.guards && w.guards[g].owns && w.os[w.Of(w.guards[g])].count > 0
    ensures Attached(GivenBack(w, g)) && AllSane(GivenBack(w, g)) && Lockers(GivenBack(w, g))
  {
    var m, guard := w.Of(w.guards[g]), w.guards[g].(owns := false);
    var h := Some(w.os[m].Released());
    assert Sane(w.os[m]);
    if w.os[m].count == 1 {
      LastHold(w, g);
    }
    ChangedAttached(w, m, h, g, guard);
    ChangedSane(w, m, h, g, guard);
    ChangedLockers(w, m, h, g, guard);
  }

  lemma GivingBackKeepsInv(w: World, g: nat)
    requires Inv(w) && g in w.guards && w.guards[g].owns && w.os[w.Of(w.guards[g])].count > 0
    ensures Inv(GivenBack(w, g))
  {
    GivingBackConserves(w, g);
    GivingBackKeepsRest(w, g);
  }

  predicate CanGiveBack(w: World, g: nat, t: nat) {
    g in w.guards && w.guards[g].owns && w.Of(w.guards[g]) in w.os && w.os[w.Of(w.guards[g])].Releasable(t)
  }

  lemma UnlockGivesBack(w: World, g: nat, t: nat)
    requires Attached(w) && g in w.guards
    ensures UnlockStep(w, g, t) == if CanGiveBack(w, g, t) then GivenBack(w, g) else w
  {
  }

  lemma UnlockKeepsInv(w: World, g: nat, t: nat)
    requires Inv(w) && g in w.guards
    ensures Inv(UnlockStep(w, g, t))
  {
    UnlockGivesBack(w, g, t);
    if CanGiveBack(w, g, t) {
      GivingBackKeepsInv(w, g);
    }
  }

  function Removed(w: World, g: nat): World { w.(guards := w.guards - {g}) }

  lemma RemoveConserves(w: World, g: nat)
    requires Conserved(w) && g in w.guards && !w.guards[g].owns
    ensures Conserved(Removed(w, g))
  {
    forall n | n in w.os
      ensures Balanced(Removed(w, g), n)
    {
      assert Balanced(w, n);
      assert Owners(w.handles, w.guards - {g}, n) == Owners(w.handles, w.guards, n);
    }
  }

  lemma RemoveKeepsAttached(w: World, g: nat)
    requires Attached(w)
    ensures Attached(Removed(w, g))
  {
  }

  lemma RemoveKeepsLockers(w: World, g: nat)
    requires Lockers(w)
    ensures Lockers(Removed(w, g))
  {
    forall x | x in Removed(w, g).guards && w.guards[x].owns
      ensures LockerOwns(Removed(w, g), w.guards[x])
    {
      assert LockerOwns(w, w.guards[x]);
    }
  }

  lemma RemoveKeepsInv(w: World, g: nat)
    requires Inv(w) && g in w.guards && !w.guards[g].owns
    ensures Inv(Removed(w, g))
  {
    RemoveConserves(w, g);
    RemoveKeepsAttached(w, g);
    RemoveKeepsLockers(w, g);
  }

  lemma DestroyGivesBack(w: World, g: nat, t: nat)
    requires Attached(w) && g in w.guards
    ensures
      DestroyStep(w, g, t)
      == if CanGiveBack(w, g, t) then Removed(GivenBack(w, g), g)
         else if w.guards[g].owns then w.(over := true)
         else Removed(w, g)
  {
    if CanGiveBack(w, g, t) {
      assert GivenBack(w, g).guards - {g} == w.guards - {g};
    }
  }

  lemma DestroyKeepsInv(w: World, g: nat, t: nat)
    requires Inv(w) && g in w.guards
    ensures Inv(DestroyStep(w, g, t))
  {
    DestroyGivesBack(w, g, t);
    if CanGiveBack(w, g, t) {
      GivingBackKeepsInv(w, g);
      RemoveKeepsInv(GivenBack(w, g), g);
    } else if !w.guards[g].owns {
      RemoveKeepsInv(w, g);
    }
  }

  /** The moved-to guard takes over, and the moved-from guard is attached to nothing and owns nothing. */
  function Moved(w: World, g: nat, from: nat): World
    requires from in w.guards
  {
    w.(guards := w.guards[g := w.guards[from]][from := EMPTY])
  }

  lemma MoveConserves(w: World, g: nat, from: nat)
    requires Inv(w) && from in w.guards && g != from && (g in w.guards ==> !w.guards[g].owns)
    ensures Conserved(Moved(w, g, from))
  {
    var x := w.guards[from];
    var u := Changed(w, NULL, None, g, x);
    var v := Changed(u, NULL, None, from, EMPTY);
    forall n | n in w.os
      ensures Balanced(v, n)
    {
      assert Balanced(w, n);
      OwningChanged(w, NULL, None, g, x, n);
      OwningChanged(u, NULL, None, from, EMPTY, n);
    }
  }

  lemma MoveKeepsInv(w: World, g: nat, from: nat)
    requires Inv(w) && from in w.guards && g != from && (g in w.guards ==> !w.guards[g].owns)
    ensures Inv(Moved(w, g, from))
  {
    var x := w.guards[from];
    var u := Changed(w, NULL, None, g, x);
    MoveConserves(w, g, from);
    ChangedAttached(w, NULL, None, g, x);
    ChangedAttached(u, NULL, None, from, EMPTY);
    ChangedLockers(w, NULL, None, g, x);
    ChangedLockers(u, NULL, None, from, EMPTY);
  }

  lemma MoveAssignGivesBack(w: World, g: nat, from: nat, t: nat)
    requires Attached(w) && g in w.guards && from in w.guards && g != from
    ensures
      MoveAssignStep(w, g, from, t)
      == if CanGiveBack(w, g, t) then Moved(GivenBack(w, g), g, from)
         else if w.guards[g].owns then w
         else Moved(w, g, from)
  {
    if CanGiveBack(w, g, t) {
      assert GivenBack(w, g).guards[g := w.guards[from]] == w.guards[g := w.guards[from]];
    }
  }

  lemma MoveAssignKeepsInv(w: World, g: nat, from: nat, t: nat)
    requires Inv(w) && g in w.guards && from in w.guards
    ensures Inv(MoveAssignStep(w, g, from, t))
  {
    if g != from {
      MoveAssignGivesBack(w, g, from, t);
      if CanGiveBack(w, g, t) {
        GivingBackKeepsInv(w, g);
        MoveKeepsInv(GivenBack(w, g), g, from);
      } else if !w.guards[g].owns {
        MoveKeepsInv(w, g, from);
      }
    }
  }

  lemma AttachKeepsInv(w: World, g: nat, pmtx: Option<nat>)
    requires Inv(w) && g !in w.guards && (pmtx.Some? ==> pmtx.value in w.handles)
    ensures Inv(w.(guards := w.guards[g := Guard(pmtx, false, 0)]))
  {
    var guard := Guard(pmtx, false, 0);
    ChangedAttached(w, NULL, None, g, guard);
    ChangedConservedIff(w, NULL, None, g, guard);
    ChangedLockers(w, NULL, None, g, guard);
  }

  // ----- Locking: an abandoned mutex breaks the counts -----

  /** The guard's lock call as a change, when the call is made on a guard that does not own. */
  lemma LockIsChange(w: World, g: nat, t: nat, timed: bool)
    requires g in w.guards && !w.guards[g].owns && LockStep(w, g, t, timed).Some?
    ensures
      var m := w.Of(w.guards[g]);
      var r := LockGuard(w.guards[g].pmtx.Some?, false, w.View(m), t, timed);
      LockStep(w, g, t, timed).value == Changed(w, m, r.os, g, w.guards[g].(owns := r.owns, locker := t))
  {
  }

  /** What lock and try_lock_for can do to a mutex and to a guard that does not own. */
  lemma LockOutcomes(o: Os, t: nat, timed: bool)
    requires Sane(o)
    ensures
      var r := LockGuard(true, false, Some(o), t, timed);
      && r.os.Some? && Sane(r.os.value)
      && (r.owns ==> r.os.value.owner == Some(t))
      && (r.os.value.owner == o.owner || o.count == 0)
      && (r.os.value.count - o.count == (if r.owns then 1 else 0) <==> !o.abandoned)
  {
  }

  lemma LockConservesIff(w: World, g: nat, t: nat, timed: bool)
    requires Conserved(w) && AllSane(w) && g in w.guards && !w.guards[g].owns && w.guards[g].pmtx.Some? && w.Of(w.guards[g]) in w.os
    requires LockStep(w, g, t, timed).Some?
    ensures Conserved(LockStep(w, g, t, timed).value) <==> !w.os[w.Of(w.guards[g])].abandoned
  {
    var m := w.Of(w.guards[g]);
    var r := LockGuard(true, false, w.View(m), t, timed);
    assert Sane(w.os[m]);
    LockIsChange(w, g, t, timed);
    LockOutcomes(w.os[m], t, timed);
    ChangedConservedIff(w, m, r.os, g, w.guards[g].(owns := r.owns, locker := t));
  }

  lemma LockKeepsRest(w: World, g: nat, t: nat, timed: bool)
    requires Inv(w) && g in w.guards && !w.guards[g].owns && w.guards[g].pmtx.Some? && w.Of(w.guards[g]) in w.os
    requires LockStep(w, g, t, timed).Some?
    ensures
      var v := LockStep(w, g, t, timed).value;
      Attached(v) && AllSane(v) && Lockers(v)
  {
    var m := w.Of(w.guards[g]);
    var r := LockGuard(true, false, w.View(m), t, timed);
    var guard := w.guards[g].(owns := r.owns, locker := t);
    assert Sane(w.os[m]);
    LockIsChange(w, g, t, timed);
    LockOutcomes(w.os[m], t, timed);
    if w.os[m].count == 0 {
      NobodyOwns(w, m);
    }
    ChangedAttached(w, m, r.os, g, guard);
    ChangedSane(w, m, r.os, g, guard);
    ChangedLockers(w, m, r.os, g, guard);
  }

  lemma NobodyOwns(w: World, m: nat)
    requires Conserved(w) && m in w.os && w.os[m].count == 0
    ensures Owning(w, m) == {}
  {
    assert Balanced(w, m);
  }

  /** On a guard without a mutex, or with a null one, nothing is acquired. */
  lemma NullLockKeepsInv(w: World, g: nat, t: nat, timed: bool)
    requires Inv(w) && g in w.guards && !w.guards[g].owns && w.Of(w.guards[g]) !in w.os
    requires LockStep(w, g, t, timed).Some?
    ensures Inv(LockStep(w, g, t, timed).value)
  {
    var guard := w.guards[g].(owns := false, locker := t);
    LockIsChange(w, g, t, timed);
    ChangedAttached(w, NULL, None, g, guard);
    ChangedConservedIff(w, NULL, None, g, guard);
    ChangedLockers(w, NULL, None, g, guard);
  }

  predicate FindsAbandoned(w: World, m: nat) { m in w.os && w.os[m].abandoned }

  lemma LockKeepsInvIff(w: World, g: nat, t: nat, timed: bool)
    requires Inv(w) && g in w.guards && LockStep(w, g, t, timed).Some?
    ensures Inv(LockStep(w, g, t, timed).value) <==> w.guards[g].owns || !FindsAbandoned(w, w.Of(w.guards[g]))
    ensures Conserved(LockStep(w, g, t, timed).value) <==> w.guards[g].owns || !FindsAbandoned(w, w.Of(w.guards[g]))
  {
    if !w.guards[g].owns {
      if w.Of(w.guards[g]) in w.os {
        LockConservesIff(w, g, t, timed);
        LockKeepsRest(w, g, t, timed);
      } else {
        NullLockKeepsInv(w, g, t, timed);
      }
    }
  }

  // ----- Calls on the process_mutex itself -----

  /** w with another value for mutex m and another number of direct holds on it. */
  function Redirected(w: World, m: nat, o: Os, direct: nat): World {
    w.(os := w.os[m := o], direct := w.direct[m := direct])
  }

  lemma RedirectedConservedIff(w: World, m: nat, o: Os, direct: nat)
    requires Conserved(w) && m in w.os
    ensures Conserved(Redirected(w, m, o, direct)) <==> o.count - w.os[m].count == direct - w.direct[m]
  {
    var v := Redirected(w, m, o, direct);
    assert v.os.Keys == w.os.Keys && v.direct.Keys == w.direct.Keys;
    assert forall n :: n in w.os ==> Balanced(w, n) && Owning(v, n) == Owning(w, n);
    assert Balanced(v, m) <==> o.count - w.os[m].count == direct - w.direct[m];
  }

  lemma RedirectedLockers(w: World, m: nat, o: Os, direct: nat)
    requires Lockers(w) && m in w.os && (o.owner == w.os[m].owner || Owning(w, m) == {})
    ensures Lockers(Redirected(w, m, o, direct))
  {
    forall g | g in w.guards && w.guards[g].owns
      ensures LockerOwns(Redirected(w, m, o, direct), w.guards[g])
    {
      assert LockerOwns(w, w.guards[g]);
      Owns(w, g);
    }
  }

  lemma RedirectedAttached(w: World, m: nat, o: Os, direct: nat)
    requires Attached(w) && m in w.os
    ensures Attached(Redirected(w, m, o, direct))
  {
    assert Redirected(w, m, o, direct).os.Keys == w.os.Keys;
  }

  lemma RedirectedSane(w: World, m: nat, o: Os, direct: nat)
    requires AllSane(w) && Sane(o)
    ensures AllSane(Redirected(w, m, o, direct))
  {
  }

  /** The direct hold that a call on the process_mutex adds. */
  function DirectGain(r: MutexResult): nat { if r.outcome == Returned(true) then 1 else 0 }

  lemma DirectLockIsRedirect(w: World, p: nat, t: nat, timed: bool)
    requires Attached(w) && w.Target(p) in w.os && DirectLockStep(w, p, t, timed).Some?
    ensures
      var m := w.Target(p);
      var r := LockMutex(Some(w.os[m]), t, timed);
      r.os.Some? && DirectLockStep(w, p, t, timed).value == Redirected(w, m, r.os.value, w.direct[m] + DirectGain(r))
  {
    var m := w.Target(p);
    assert w.direct[m := w.direct[m]] == w.direct;
  }

  /** What lock and try_lock_for of a process_mutex can do to the mutex. */
  lemma DirectOutcomes(o: Os, t: nat, timed: bool)
    requires Sane(o)
    ensures
      var r := LockMutex(Some(o), t, timed);
      && r.os.Some? && Sane(r.os.value)
      && (r.os.value.owner == o.owner || o.count == 0)
      && (r.os.value.count - o.count == DirectGain(r) <==> !o.abandoned)
  {
  }

  lemma DirectLockConservesIff(w: World, p: nat, t: nat, timed: bool)
    requires Inv(w) && w.Target(p) in w.os && DirectLockStep(w, p, t, timed).Some?
    ensures Conserved(DirectLockStep(w, p, t, timed).value) <==> !w.os[w.Target(p)].abandoned
  {
    var m := w.Target(p);
    var r := LockMutex(Some(w.os[m]), t, timed);
    assert Sane(w.os[m]);
    DirectLockIsRedirect(w, p, t, timed);
    DirectOutcomes(w.os[m], t, timed);
    RedirectedConservedIff(w, m, r.os.value, w.direct[m] + DirectGain(r));
  }

  lemma DirectLockKeepsLockers(w: World, p: nat, t: nat, timed: bool)
    requires Inv(w) && w.Target(p) in w.os && DirectLockStep(w, p, t, timed).Some?
    ensures Lockers(DirectLockStep(w, p, t, timed).value)
  {
    var m := w.Target(p);
    var r := LockMutex(Some(w.os[m]), t, timed);
    assert Sane(w.os[m]);
    DirectLockIsRedirect(w, p, t, timed);
    DirectOutcomes(w.os[m], t, timed);
    if w.os[m].count == 0 {
      NobodyOwns(w, m);
    }
    RedirectedLockers(w, m, r.os.value, w.direct[m] + DirectGain(r));
  }

  lemma DirectLockKeepsRest(w: World, p: nat, t: nat, timed: bool)
    requires Attached(w) && AllSane(w) && w.Target(p) in w.os && DirectLockStep(w, p, t, timed).Some?
    ensures Attached(DirectLockStep(w, p, t, timed).value) && AllSane(DirectLockStep(w, p, t, timed).value)
  {
    var m := w.Target(p);
    var r := LockMutex(Some(w.os[m]), t, timed);
    DirectLockIsRedirect(w, p, t, timed);
    DirectOutcomes(w.os[m], t, timed);
    RedirectedAttached(w, m, r.os.value, w.direct[m] + DirectGain(r));
    RedirectedSane(w, m, r.os.value, w.direct[m] + DirectGain(r));
  }

  lemma NullDirectLock(w: World, p: nat, t: nat, timed: bool)
    requires w.Target(p) !in w.os
    ensures DirectLockStep(w, p, t, timed) == Some(w)
  {
  }

  lemma DirectLockKeepsInvIff(w: World, p: nat, t: nat, timed: bool)
    requires Inv(w) && p in w.handles && DirectLockStep(w, p, t, timed).Some?
    ensures Inv(DirectLockStep(w, p, t, timed).value) <==> !FindsAbandoned(w, w.Target(p))
    ensures Conserved(DirectLockStep(w, p, t, timed).value) <==> !FindsAbandoned(w, w.Target(p))
  {
    if w.Target(p) in w.os {
      DirectLockConservesIff(w, p, t, timed);
      DirectLockKeepsLockers(w, p, t, timed);
      DirectLockKeepsRest(w, p, t, timed);
    } else {
      NullDirectLock(w, p, t, timed);
    }
  }

  /** The call releases a hold that was not taken directly. */
  predicate ReleasesAnother(w: World, p: nat, t: nat) {
    w.Target(p) in w.os && w.Target(p) in w.direct && w.direct[w.Target(p)] == 0 && w.os[w.Target(p)].Releasable(t)
  }

  lemma DirectUnlockIsRedirect(w: World, p: nat, t: nat)
    requires Attached(w) && w.Target(p) in w.os && w.os[w.Target(p)].Releasable(t)
    ensures
      var m := w.Target(p);
      DirectUnlockStep(w, p, t)
      == Redirected(w, m, w.os[m].Released(), if w.direct[m] > 0 then w.direct[m] - 1 else 0)
  {
    var m := w.Target(p);
    if w.direct[m] == 0 {
      assert w.direct[m := 0] == w.direct;
    }
  }

  lemma LastDirectHold(w: World, m: nat)
    requires Conserved(w) && m in w.os && w.os[m].count == 1 && w.direct[m] > 0
    ensures Owning(w, m) == {}
  {
    assert Balanced(w, m);
  }

  lemma DirectHoldLockers(w: World, m: nat)
    requires Inv(w) && m in w.os && w.os[m].count > 0 && w.direct[m] > 0
    ensures Lockers(Redirected(w, m, w.os[m].Released(), w.direct[m] - 1))
  {
    if w.os[m].count == 1 {
      LastDirectHold(w, m);
    }
    RedirectedLockers(w, m, w.os[m].Released(), w.direct[m] - 1);
  }

  lemma DirectHoldRest(w: World, m: nat)
    requires Attached(w) && AllSane(w) && m in w.os && w.os[m].count > 0 && w.direct[m] > 0
    ensures Attached(Redirected(w, m, w.os[m].Released(), w.direct[m] - 1))
    ensures AllSane(Redirected(w, m, w.os[m].Released(), w.direct[m] - 1))
  {
    assert Sane(w.os[m]);
    RedirectedAttached(w, m, w.os[m].Released(), w.direct[m] - 1);
    RedirectedSane(w, m, w.os[m].Released(), w.direct[m] - 1);
  }

  lemma DirectUnlockKeepsInvIff(w: World, p: nat, t: nat)
    requires Inv(w) && p in w.handles
    ensures Inv(DirectUnlockStep(w, p, t)) <==> !ReleasesAnother(w, p, t)
    ensures Conserved(DirectUnlockStep(w, p, t)) <==> !ReleasesAnother(w, p, t)
  {
    var m := w.Target(p);
    if m in w.os && w.os[m].Releasable(t) {
      DirectUnlockIsRedirect(w, p, t);
      RedirectedConservedIff(w, m, w.os[m].Released(), if w.direct[m] > 0 then w.direct[m] - 1 else 0);
      if w.direct[m] > 0 {
        DirectHoldLockers(w, m);
        DirectHoldRest(w, m);
      }
    }
  }

  // ----- Threads that end, mutexes that are opened -----

  /** The thread ends while a guard of this process holds a mutex for it. */
  ghost predicate EndsOwning(w: World, t: nat) {
    exists g :: g in w.guards && w.guards[g].owns && w.guards[g].locker == t
  }

  lemma ExitBreaks(w: World, t: nat, g: nat)
    requires Inv(w) && g in w.guards && w.guards[g].owns && w.guards[g].locker == t
    ensures !Conserved(ExitStep(w, t))
  {
    var m, v := w.Of(w.guards[g]), ExitStep(w, t);
    assert LockerOwns(w, w.guards[g]);
    Owns(w, g);
    assert v.os[m].count == 0 && g in Owning(v, m);
    assert v.os.Keys == w.os.Keys;
    assert !Balanced(v, m);
  }

  lemma ExitKeepsConserved(w: World, t: nat)
    requires Inv(w) && !EndsOwning(w, t)
    ensures Conserved(ExitStep(w, t))
  {
    var v := ExitStep(w, t);
    assert v.os.Keys == w.os.Keys && v.direct.Keys == w.direct.Keys;
    forall n | n in w.os
      ensures Balanced(v, n)
    {
      assert Balanced(w, n) && Owning(v, n) == Owning(w, n);
      if w.os[n].owner == Some(t) {
        NoGuardOfThread(w, n, t);
      }
    }
  }

  lemma NoGuardOfThread(w: World, m: nat, t: nat)
    requires Lockers(w) && !EndsOwning(w, t) && m in w.os && w.os[m].owner == Some(t)
    ensures Owning(w, m) == {}
  {
    forall g | g in w.guards && w.guards[g].owns
      ensures w.Of(w.guards[g]) != m
    {
      assert LockerOwns(w, w.guards[g]);
    }
  }

  lemma ExitKeepsRest(w: World, t: nat)
    requires Inv(w) && !EndsOwning(w, t)
    ensures Attached(ExitStep(w, t)) && AllSane(ExitStep(w, t)) && Lockers(ExitStep(w, t))
  {
    var v := ExitStep(w, t);
    assert v.os.Keys == w.os.Keys && v.direct.Keys == w.direct.Keys;
    forall g | g in w.guards && w.guards[g].owns
      ensures LockerOwns(v, w.guards[g])
    {
      assert LockerOwns(w, w.guards[g]);
    }
  }

  lemma ExitKeepsInvIff(w: World, t: nat)
    requires Inv(w)
    ensures Inv(ExitStep(w, t)) <==> !EndsOwning(w, t)
    ensures Conserved(ExitStep(w, t)) <==> !EndsOwning(w, t)
  {
    if EndsOwning(w, t) {
      var g :| g in w.guards && w.guards[g].owns && w.guards[g].locker == t;
      ExitBreaks(w, t, g);
    } else {
      ExitKeepsConserved(w, t);
      ExitKeepsRest(w, t);
    }
  }

  /** A new process_mutex, on a null handle, an existing mutex or a new one, changes nothing for the guards. */
  lemma HandleKeepsTargets(w: World, p: nat, m: nat, guard: Guard)
    requires p !in w.handles && (guard.pmtx.Some? ==> guard.pmtx.value in w.handles)
    ensures w.(handles := w.handles[p := m]).Of(guard) == w.Of(guard)
  {
  }

  lemma HandleKeepsInv(w: World, p: nat, m: nat)
    requires Inv(w) && p !in w.handles && (m == NULL || m in w.os)
    ensures Inv(w.(handles := w.handles[p := m]))
  {
    var v := w.(handles := w.handles[p := m]);
    assert forall g :: g in w.guards ==> v.Of(w.guards[g]) == w.Of(w.guards[g]) by {
      forall g | g in w.guards
        ensures v.Of(w.guards[g]) == w.Of(w.guards[g])
      {
        HandleKeepsTargets(w, p, m, w.guards[g]);
      }
    }
    forall n | n in w.os
      ensures Balanced(v, n)
    {
      assert Balanced(w, n) && Owning(v, n) == Owning(w, n);
    }
    forall g | g in w.guards && w.guards[g].owns
      ensures LockerOwns(v, w.guards[g])
    {
      assert LockerOwns(w, w.guards[g]);
    }
  }

  function Created(w: World, m: nat, o: Os, direct: nat): World {
    w.(os := w.os[m := o], direct := w.direct[m := direct])
  }

  lemma CreateConserves(w: World, m: nat, o: Os, direct: nat)
    requires Attached(w) && Conserved(w) && m !in w.os && m != NULL && o.count == direct
    ensures Conserved(Created(w, m, o, direct))
  {
    forall n | n in Created(w, m, o, direct).os
      ensures Balanced(Created(w, m, o, direct), n)
    {
      assert Owning(w, m) == {};
      if n != m {
        assert Balanced(w, n);
      }
    }
  }

  lemma CreateKeepsInv(w: World, m: nat, o: Os, direct: nat)
    requires Inv(w) && m !in w.os && m != NULL && Sane(o) && o.count == direct
    ensures Inv(Created(w, m, o, direct))
  {
    CreateConserves(w, m, o, direct);
    forall g | g in w.guards && w.guards[g].owns
      ensures LockerOwns(Created(w, m, o, direct), w.guards[g])
    {
      assert LockerOwns(w, w.guards[g]);
    }
  }

  lemma OpenKeepsInv(w: World, p: nat, m: nat, t: nat, initialOwner: bool)
    requires Inv(w) && p !in w.handles && m != NULL
    ensures Inv(OpenStep(w, p, m, t, initialOwner))
  {
    if m in w.os {
      HandleKeepsInv(w, p, m);
    } else {
      var o := if initialOwner then Os(Some(t), 1, false) else Os(None, 0, false);
      CreateKeepsInv(w, m, o, o.count);
      HandleKeepsInv(Created(w, m, o, o.count), p, m);
    }
  }

  // ----- Every step -----

  /** The steps after which the counts no longer agree. */
  ghost predicate Breaks(w: World, l: Label) {
    match l
    case Lock(g, t, timed) => g in w.guards && !w.guards[g].owns && FindsAbandoned(w, w.Of(w.guards[g]))
    case DirectLock(p, t, timed) => FindsAbandoned(w, w.Target(p))
    case DirectUnlock(p, t) => ReleasesAnother(w, p, t)
    case Exit(t) => EndsOwning(w, t)
    case _ => false
  }

  /**
   A call keeps the counts in agreement exactly if it does not find its mutex abandoned, does not
   release a guard's hold behind the guard's back, and is not the end of a thread whose guards own.
   */
  lemma StepConservesIff(w: World, l: Label)
    requires Inv(w) && Step(w, l).Some?
    ensures Conserved(Step(w, l).value) <==> !Breaks(w, l)
    ensures Inv(Step(w, l).value) <==> !Breaks(w, l)
  {
    match l
    case NullMutex(p) => HandleKeepsInv(w, p, NULL);
    case OpenMutex(p, m, t, initialOwner) => OpenKeepsInv(w, p, m, t, initialOwner);
    case Attach(g, pmtx) => AttachKeepsInv(w, g, pmtx);
    case MoveNew(g, from) => MoveKeepsInv(w, g, from);
    case MoveAssign(g, from, t) => MoveAssignKeepsInv(w, g, from, t);
    case Lock(g, t, timed) => LockKeepsInvIff(w, g, t, timed);
    case Unlock(g, t) => UnlockKeepsInv(w, g, t);
    case Destroy(g, t) => DestroyKeepsInv(w, g, t);
    case DirectLock(p, t, timed) => DirectLockKeepsInvIff(w, p, t, timed);
    case DirectUnlock(p, t) => DirectUnlockKeepsInvIff(w, p, t);
    case Exit(t) => ExitKeepsInvIff(w, t);
  }

  // ----- Whole runs -----

  /** No step of the run breaks the counts. */
  ghost predicate Sound(w: World, labels: seq<Label>)
    requires CanRun(w, labels)
    decreases |labels|
  {
    labels == [] || (!Breaks(w, labels[0]) && Sound(Step(w, labels[0]).value, labels[1..]))
  }

  lemma {:induction false} RunKeepsInv(w: World, labels: seq<Label>)
    requires Inv(w) && CanRun(w, labels) && Sound(w, labels)
    ensures Inv(Final(w, labels))
    decreases |labels|
  {
    if labels != [] {
      StepConservesIff(w, labels[0]);
      RunKeepsInv(Step(w, labels[0]).value, labels[1..]);
    }
  }

  lemma EmptyWorldInv()
    ensures Inv(EMPTY_WORLD)
  {
  }

  /** In every sound run, each mutex is held as often as guards own it, plus the direct holds. */
  lemma CountIsOwningGuards(labels: seq<Label>, m: nat)
    requires CanRun(EMPTY_WORLD, labels) && Sound(EMPTY_WORLD, labels) && m in Final(EMPTY_WORLD, labels).os
    ensures m in Final(EMPTY_WORLD, labels).direct && Balanced(Final(EMPTY_WORLD, labels), m)
  {
    EmptyWorldInv();
    RunKeepsInv(EMPTY_WORLD, labels);
  }

  /** Mutual exclusion: guards that own the same mutex at the same time were locked by the same thread. */
  lemma OwnersShareAThread(labels: seq<Label>, g: nat, h: nat)
    requires CanRun(EMPTY_WORLD, labels) && Sound(EMPTY_WORLD, labels)
    requires g in Final(EMPTY_WORLD, labels).guards && Final(EMPTY_WORLD, labels).guards[g].owns
    requires h in Final(EMPTY_WORLD, labels).guards && Final(EMPTY_WORLD, labels).guards[h].owns
    ensures
      var w := Final(EMPTY_WORLD, labels);
      w.Of(w.guards[g]) == w.Of(w.guards[h]) ==> w.guards[g].locker == w.guards[h].locker
  {
    var w := Final(EMPTY_WORLD, labels);
    EmptyWorldInv();
    RunKeepsInv(EMPTY_WORLD, labels);
    assert LockerOwns(w, w.guards[g]) && LockerOwns(w, w.guards[h]);
  }

  /** Once no guard owns, and so also once all guards are destroyed, a mutex without direct holds is free. */
  lemma NoOwnerMeansFree(labels: seq<Label>, m: nat)
    requires CanRun(EMPTY_WORLD, labels) && Sound(EMPTY_WORLD, labels)
    requires
      var w := Final(EMPTY_WORLD, labels);
      && m in w.os && m in w.direct && w.direct[m] == 0
      && forall g :: g in w.guards ==> !w.guards[g].owns
    ensures Final(EMPTY_WORLD, labels).os[m].owner == None
  {
    var w := Final(EMPTY_WORLD, labels);
    EmptyWorldInv();
    RunKeepsInv(EMPTY_WORLD, labels);
    assert Balanced(w, m) && Owning(w, m) == {} && Sane(w.os[m]);
  }

  // ----- What single calls promise -----

  /** An owning guard can be unlocked, in any way, by the thread that locked it and by no other. */
  lemma OnlyLockerGivesBack(w: World, g: nat, t: nat)
    requires Inv(w) && g in w.guards && w.guards[g].owns
    ensures CanGiveBack(w, g, t) <==> t == w.guards[g].locker
  {
    assert LockerOwns(w, w.guards[g]);
    assert Sane(w.os[w.Of(w.guards[g])]);
  }

  /**
   Move assignment: the target's own hold is given back first; if that fails, because another thread
   took it, nothing changes at all; otherwise the source's hold changes hands and the source is empty.
   */
  lemma MoveAssignTransfers(w: World, g: nat, from: nat, t: nat)
    requires Inv(w) && g in w.guards && from in w.guards
    ensures
      var v := MoveAssignStep(w, g, from, t);
      if g == from || (w.guards[g].owns && w.guards[g].locker != t) then v == w
      else
        && v.guards.Keys == w.guards.Keys && v.guards[from] == EMPTY && v.guards[g] == w.guards[from]
        && (w.guards[g].owns ==> v.os[w.Of(w.guards[g])].count == w.os[w.Of(w.guards[g])].count - 1)
        && (!w.guards[g].owns ==> v.os == w.os)
  {
    if g != from {
      MoveAssignGivesBack(w, g, from, t);
      if w.guards[g].owns {
        OnlyLockerGivesBack(w, g, t);
      }
    }
  }

  /** A guard's destructor ends the program exactly if another thread locked the guard. */
  lemma DestroyFailsIff(w: World, g: nat, t: nat)
    requires Inv(w) && !w.over && g in w.guards
    ensures DestroyStep(w, g, t).over <==> w.guards[g].owns && w.guards[g].locker != t
    ensures !DestroyStep(w, g, t).over ==> DestroyStep(w, g, t).guards == w.guards - {g}
    ensures DestroyStep(w, g, t).direct == w.direct && DestroyStep(w, g, t).os.Keys == w.os.Keys
  {
    DestroyGivesBack(w, g, t);
    if w.guards[g].owns {
      OnlyLockerGivesBack(w, g, t);
      if CanGiveBack(w, g, t) {
        assert GivenBack(w, g).guards - {g} == w.guards - {g};
      }
    }
  }

  /** The guards of the list destroyed one after the other, each by the thread that locked it. */
  function DestroyEach(w: World, order: seq<nat>): seq<Label>
    decreases |order|
  {
    if order == [] || order[0] !in w.guards then []
    else
      var t := w.guards[order[0]].locker;
      [Destroy(order[0], t)] + DestroyEach(DestroyStep(w, order[0], t), order[1..])
  }

  /** The list names every guard once. */
  ghost predicate Lists(order: seq<nat>, guards: map<nat, Guard>) {
    && (forall i :: 0 <= i < |order| ==> order[i] in guards)
    && (forall i, j :: 0 <= i < j < |order| ==> order[i] != order[j])
    && (forall g :: g in guards ==> g in order)
  }

  lemma ListsRest(order: seq<nat>, guards: map<nat, Guard>)
    requires order != [] && Lists(order, guards)
    ensures Lists(order[1..], guards - {order[0]})
  {
    forall g | g in guards && g != order[0]
      ensures g in order[1..]
    {
      var i :| 0 <= i < |order| && order[i] == g;
      assert order[1..][i - 1] == g;
    }
  }

  /** w without guards: every hold that is left is a direct one. */
  ghost predicate AllGivenBack(w: World) {
    w.guards == map[] && forall m :: m in w.os && m in w.direct && w.direct[m] == 0 ==> w.os[m].owner == None
  }

  lemma NothingLeft(w: World)
    requires Inv(w) && w.guards == map[]
    ensures AllGivenBack(w)
  {
    forall m | m in w.os && w.direct[m] == 0
      ensures w.os[m].owner == None
    {
      assert Balanced(w, m) && Owning(w, m) == {} && Sane(w.os[m]);
    }
  }

  /** From any sound state all guards can be destroyed, in any order, and then every mutex not held directly is free. */
  lemma {:induction false} AllGuardsCanBeDestroyed(w: World, order: seq<nat>)
    requires Inv(w) && !w.over && Lists(order, w.guards)
    ensures CanRun(w, DestroyEach(w, order))
    ensures AllGivenBack(Final(w, DestroyEach(w, order))) && !Final(w, DestroyEach(w, order)).over
    decreases |order|
  {
    if order == [] {
      assert forall g :: g !in w.guards;
      NothingLeft(w);
    } else {
      var g, t := order[0], w.guards[order[0]].locker;
      DestroyFailsIff(w, g, t);
      DestroyKeepsInv(w, g, t);
      ListsRest(order, w.guards);
      AllGuardsCanBeDestroyed(DestroyStep(w, g, t), order[1..]);
      assert DestroyEach(w, order)[1..] == DestroyEach(DestroyStep(w, g, t), order[1..]);
    }
  }

  // ----- Where the counts go wrong -----

  lemma RunStep(w: World, l: Label, rest: seq<Label>)
    requires Step(w, l).Some? && CanRun(Step(w, l).value, rest)
    ensures CanRun(w, [l] + rest) && Final(w, [l] + rest) == Final(Step(w, l).value, rest)
  {
    assert ([l] + rest)[1..] == rest;
  }

  /** One process_mutex on mutex 1. */
  function OneMutex(o: Os, guards: map<nat, Guard>): World { World(map[1 := o], map[1 := 0], map[0 := 1], guards, false) }

  /** A guard of thread 5 that locks an abandoned mutex is destroyed with the mutex still held. */
  lemma LockThenDestroyLeaks()
    ensures
      var w := OneMutex(Os(None, 0, true), map[0 := Guard(Some(0), false, 0)]);
      && CanRun(w, [Lock(0, 5, false)] + [Destroy(0, 5)])
      && Final(w, [Lock(0, 5, false)] + [Destroy(0, 5)]) == OneMutex(Os(Some(5), 1, false), map[])
  {
    var w := OneMutex(Os(None, 0, true), map[0 := Guard(Some(0), false, 0)]);
    var v := OneMutex(Os(Some(5), 1, false), map[0 := Guard(Some(0), false, 5)]);
    assert w.os[1 := v.os[1]] == v.os && w.guards[0 := v.guards[0]] == v.guards;
    assert Step(w, Lock(0, 5, false)) == Some(v);
    assert Step(v, Destroy(0, 5)) == Some(OneMutex(Os(Some(5), 1, false), map[]));
    RunStep(v, Destroy(0, 5), []);
    RunStep(w, Lock(0, 5, false), [Destroy(0, 5)]);
  }

  /** Thread 9 of another process creates mutex 1, owns it and ends. */
  lemma OwnerEnds()
    ensures
      CanRun(EMPTY_WORLD, [OpenMutex(0, 1, 9, true)] + [Exit(9)])
      && Final(EMPTY_WORLD, [OpenMutex(0, 1, 9, true)] + [Exit(9)]) == OneMutex(Os(None, 0, true), map[])
  {
    var w := World(map[1 := Os(Some(9), 1, false)], map[1 := 1], map[0 := 1], map[], false);
    var v := OneMutex(Os(None, 0, true), map[]);
    assert ExitStep(w, 9).os == v.os && ExitStep(w, 9).direct == v.direct;
    assert Step(EMPTY_WORLD, OpenMutex(0, 1, 9, true)) == Some(w);
    RunStep(w, Exit(9), []);
    RunStep(EMPTY_WORLD, OpenMutex(0, 1, 9, true), [Exit(9)]);
  }

  lemma {:induction false} RunTwice(w: World, xs: seq<Label>, ys: seq<Label>)
    requires CanRun(w, xs) && CanRun(Final(w, xs), ys)
    ensures CanRun(w, xs + ys) && Final(w, xs + ys) == Final(Final(w, xs), ys)
    decreases |xs|
  {
    if xs == [] {
      assert xs + ys == ys;
    } else {
      assert (xs + ys)[1..] == xs[1..] + ys;
      RunTwice(Step(w, xs[0]).value, xs[1..], ys);
    }
  }

  /**
   A concrete run that breaks the counts.  Thread 9 of another process ends while it holds mutex 1.
   Thread 5 locks it through a guard: the call throws, yet thread 5 holds the mutex.  The guard does not
   know, so its destructor leaves the mutex held, and no other thread's lock returns.
   */
  lemma AbandonedMutexStaysHeld() returns (labels: seq<Label>)
    ensures CanRun(EMPTY_WORLD, labels) && Final(EMPTY_WORLD, labels) == OneMutex(Os(Some(5), 1, false), map[])
    ensures forall t :: t != 5 ==> LockMutex(Some(Os(Some(5), 1, false)), t, false).outcome == Blocks
  {
    var w := OneMutex(Os(None, 0, true), map[]);
    var before := [OpenMutex(0, 1, 9, true)] + [Exit(9)];
    var after := [Lock(0, 5, false)] + [Destroy(0, 5)];
    OwnerEnds();
    LockThenDestroyLeaks();
    assert Step(w, Attach(0, Some(0))) == Some(OneMutex(Os(None, 0, true), map[0 := Guard(Some(0), false, 0)]));
    RunStep(w, Attach(0, Some(0)), after);
    RunTwice(EMPTY_WORLD, before, [Attach(0, Some(0))] + after);
    labels := before + ([Attach(0, Some(0))] + after);
  }
}
