/** The inductive invariant of the worker pool, preserved by every step of every interleaving. */
module PoolInvariant {
  import opened PoolMachine

  /** Contribution of a worker to the number of tasks popped but not yet taken off tasks_total_. */
  function Load<T>(pc: WorkerPc<T>): nat { if pc.InFlight() then 1 else 0 }

  /** The task a worker has popped and not finished. */
  function Holding<T>(pc: WorkerPc<T>): multiset<T> {
    if pc.Releasing? || pc.Busy? then multiset{pc.task} else multiset{}
  }

  /** Tasks popped and still counted. */
  function InFlight<T>(ws: seq<WorkerPc<T>>): nat {
    if ws == [] then 0 else InFlight(ws[..|ws| - 1]) + Load(ws[|ws| - 1])
  }

  /** Tasks popped and not finished. */
  function Held<T>(ws: seq<WorkerPc<T>>): multiset<T> {
    if ws == [] then multiset{} else Held(ws[..|ws| - 1]) + Holding(ws[|ws| - 1])
  }

  lemma {:induction false} InFlightUpdate<T>(ws: seq<WorkerPc<T>>, w: nat, pc: WorkerPc<T>)
    requires w < |ws|
    ensures InFlight(ws[w := pc]) + Load(ws[w]) == InFlight(ws) + Load(pc)
  {
    var last := |ws| - 1;
    if w < last {
      InFlightUpdate(ws[..last], w, pc);
      assert ws[w := pc][..last] == ws[..last][w := pc];
    } else {
      assert ws[w := pc][..last] == ws[..last];
    }
  }

  /** How often x is held. */
  ghost function HeldCount<T>(ws: seq<WorkerPc<T>>, x: T): nat {
    if ws == [] then 0 else HeldCount(ws[..|ws| - 1], x) + Holding(ws[|ws| - 1])[x]
  }

  lemma {:induction false} HeldIsCounted<T>(ws: seq<WorkerPc<T>>, x: T)
    ensures Held(ws)[x] == HeldCount(ws, x)
  {
    if ws != [] {
      HeldIsCounted(ws[..|ws| - 1], x);
    }
  }

  lemma {:induction false} HeldCountUpdate<T>(ws: seq<WorkerPc<T>>, w: nat, pc: WorkerPc<T>, x: T)
    requires w < |ws|
    ensures HeldCount(ws[w := pc], x) + Holding(ws[w])[x] == HeldCount(ws, x) + Holding(pc)[x]
  {
    var last := |ws| - 1;
    if w < last {
      HeldCountUpdate(ws[..last], w, pc, x);
      assert ws[w := pc][..last] == ws[..last][w := pc];
    } else {
      assert ws[w := pc][..last] == ws[..last];
    }
  }

  lemma SameCounts<T>(a: multiset<T>, b: multiset<T>)
    requires forall x: T :: a[x] == b[x]
    ensures a == b
  {
  }

  lemma HeldUpdate<T>(ws: seq<WorkerPc<T>>, w: nat, pc: WorkerPc<T>)
    requires w < |ws|
    ensures Held(ws[w := pc]) + Holding(ws[w]) == Held(ws) + Holding(pc)
  {
    var a, b := Held(ws[w := pc]) + Holding(ws[w]), Held(ws) + Holding(pc);
    forall x: T
      ensures a[x] == b[x]
    {
      HeldIsCounted(ws[w := pc], x);
      HeldIsCounted(ws, x);
      HeldCountUpdate(ws, w, pc, x);
    }
    SameCounts(a, b);
  }

  lemma {:induction false} WokenSums<T>(ws: seq<WorkerPc<T>>, vs: seq<WorkerPc<T>>)
    requires |ws| == |vs| && forall w :: 0 <= w < |ws| ==> vs[w] == ws[w] || vs[w] == Woken(ws[w])
    ensures InFlight(vs) == InFlight(ws) && Held(vs) == Held(ws)
  {
    if ws != [] {
      WokenSums(ws[..|ws| - 1], vs[..|ws| - 1]);
    }
  }

  lemma {:induction false} InFlightZero<T>(ws: seq<WorkerPc<T>>)
    ensures InFlight(ws) == 0 <==> forall w :: 0 <= w < |ws| ==> !ws[w].InFlight()
    ensures InFlight(ws) == 0 ==> Held(ws) == multiset{}
  {
    if ws != [] {
      var last := |ws| - 1;
      InFlightZero(ws[..last]);
      assert forall w :: 0 <= w < last ==> ws[..last][w] == ws[w];
      if InFlight(ws) == 0 {
        assert Load(ws[last]) == 0;
      }
    }
  }

  /** tasks_mutex_ is held by exactly the thread whose program counter is inside a locked region. */
  ghost predicate Mutex<T>(p: Pool<T>) {
    && (forall w :: 0 <= w < |p.ws| ==> (p.ws[w].HoldsLock() <==> p.lock == ByWorker(w)))
    && (p.lock.ByWorker? ==> p.lock.worker < |p.ws|)
    && (p.owner.HoldsLock() <==> p.lock == ByOwner)
  }

  /** tasks_total_ is the queue length plus the tasks in flight, except inside a push between its two writes. */
  ghost predicate Conserved<T>(p: Pool<T>) {
    && p.sh.total + (if p.MidPush() then 1 else 0) == |p.sh.tasks| + InFlight(p.ws)
    && (p.MidPush() ==> p.sh.tasks != [])
  }

  /** First in first out, each task started at most once and finished at most once. */
  ghost predicate Histories<T>(p: Pool<T>) {
    && p.pushed == p.started + p.sh.tasks
    && multiset(p.started) == multiset(p.finished) + Held(p.ws)
  }

  ghost predicate Flags<T>(p: Pool<T>) {
    && (p.sh.waiting <==> p.owner.Waits())
    && (p.sh.running <==> !p.owner.ShuttingDown())
    && (p.sh.running ==> forall w :: 0 <= w < |p.ws| ==> !p.ws[w].Exited? && p.ws[w] != Leaving(true))
    && (p.owner.Joining? ==> p.owner.next <= |p.ws| && forall w :: 0 <= w < p.owner.next ==> p.ws[w].Exited?)
    && (p.owner.Destroyed? ==> forall w :: 0 <= w < |p.ws| ==> p.ws[w].Exited?)
  }

  ghost predicate Inv<T>(p: Pool<T>) {
    Mutex(p) && Conserved(p) && Histories(p) && Flags(p)
  }

  lemma InitInv<T>(threads: nat)
    ensures Inv(Init<T>(threads))
  {
    var p := Init<T>(threads);
    InFlightZero(p.ws);
  }

  lemma WorkerKeepsMutex<T>(p: Pool<T>, w: nat)
    requires Mutex(p) && w < |p.ws| && WorkerStep(p, w).Some?
    ensures Mutex(WorkerStep(p, w).value)
  {
  }

  lemma WorkerKeepsFlags<T>(p: Pool<T>, w: nat)
    requires Flags(p) && w < |p.ws| && WorkerStep(p, w).Some?
    ensures Flags(WorkerStep(p, w).value)
  {
  }

  lemma WorkerKeepsConserved<T>(p: Pool<T>, w: nat)
    requires Mutex(p) && Conserved(p) && w < |p.ws| && WorkerStep(p, w).Some?
    ensures Conserved(WorkerStep(p, w).value)
  {
    WorkerMovesAlone(p, w);
    WorkerCounts(p, w);
    InFlightUpdate(p.ws, w, WorkerStep(p, w).value.ws[w]);
  }

  /** What a statement of a worker does to the queue, the count and its own load. */
  lemma WorkerCounts<T>(p: Pool<T>, w: nat)
    requires Mutex(p) && w < |p.ws| && WorkerStep(p, w).Some?
    ensures
      var q := WorkerStep(p, w).value;
      && |q.ws| == |p.ws| && q.MidPush() == p.MidPush()
      && q.sh.total - p.sh.total == |q.sh.tasks| - |p.sh.tasks| + Load(q.ws[w]) - Load(p.ws[w])
      && (p.MidPush() ==> q.sh.tasks == p.sh.tasks)
  {
  }

  /** One worker moves; the histories change only by what it starts or finishes. */
  lemma MoveKeepsHistories<T>(p: Pool<T>, q: Pool<T>, w: nat, more: multiset<T>, less: multiset<T>)
    requires Histories(p) && w < |p.ws| == |q.ws| && q.ws == p.ws[w := q.ws[w]]
    requires q.pushed == q.started + q.sh.tasks
    requires multiset(q.started) == multiset(p.started) + more
    requires multiset(q.finished) == multiset(p.finished) + less
    requires Holding(p.ws[w]) + more == Holding(q.ws[w]) + less
    ensures Histories(q)
  {
    HeldUpdate(p.ws, w, q.ws[w]);
    Balance(multiset(p.started), multiset(p.finished), Held(p.ws), Held(q.ws),
            Holding(p.ws[w]), Holding(q.ws[w]), more, less);
  }

  lemma Balance<T>(s: multiset<T>, f: multiset<T>, bag: multiset<T>, bag': multiset<T>,
                   h: multiset<T>, h': multiset<T>, more: multiset<T>, less: multiset<T>)
    requires s == f + bag && bag' + h == bag + h' && h + more == h' + less
    ensures s + more == (f + less) + bag'
  {
    forall x: T
      ensures (s + more)[x] == ((f + less) + bag')[x]
    {
      assert (bag' + h)[x] == (bag + h')[x];
      assert (h + more)[x] == (h' + less)[x];
    }
  }

  /** A worker step that starts nothing leaves the histories and the queue as they are ... */
  lemma QuietWorkerStep<T>(p: Pool<T>, w: nat)
    requires w < |p.ws| && WorkerStep(p, w).Some? && !(p.ws[w].Take? && p.sh.tasks != [])
    ensures WorkerStep(p, w).value.pushed == p.pushed && WorkerStep(p, w).value.started == p.started
    ensures WorkerStep(p, w).value.finished == p.finished && WorkerStep(p, w).value.sh.tasks == p.sh.tasks
  {
  }

  lemma SearchingHolds<T>(p: Pool<T>, w: nat)
    requires w < |p.ws| && WorkerStep(p, w).Some?
    requires p.ws[w].LoopTest? || p.ws[w].Locking? || p.ws[w].Recheck? || p.ws[w].Predicate? || p.ws[w].Waking?
    ensures Holding(WorkerStep(p, w).value.ws[w]) == Holding(p.ws[w])
  {
  }

  lemma TestingHolds<T>(p: Pool<T>, w: nat)
    requires w < |p.ws| && WorkerStep(p, w).Some?
    requires p.ws[w].ReadRunning? || p.ws[w].ReadPaused? || (p.ws[w].Take? && p.sh.tasks == [])
    ensures Holding(WorkerStep(p, w).value.ws[w]) == Holding(p.ws[w])
  {
  }

  lemma FinishingHolds<T>(p: Pool<T>, w: nat)
    requires w < |p.ws| && WorkerStep(p, w).Some?
    requires p.ws[w].Releasing? || p.ws[w].Relocking? || p.ws[w].Decrement? || p.ws[w].NotifyTest? || p.ws[w].Leaving?
    ensures Holding(WorkerStep(p, w).value.ws[w]) == Holding(p.ws[w])
  {
  }

  /** ... and the tasks held. */
  lemma QuietWorkerHolds<T>(p: Pool<T>, w: nat)
    requires w < |p.ws| && WorkerStep(p, w).Some? && !(p.ws[w].Take? && p.sh.tasks != [])
    ensures |WorkerStep(p, w).value.ws| == |p.ws|
    ensures Holding(WorkerStep(p, w).value.ws[w]) == Holding(p.ws[w])
  {
    WorkerMovesAlone(p, w);
    match p.ws[w]
    case LoopTest => SearchingHolds(p, w);
    case Locking => SearchingHolds(p, w);
    case Recheck => SearchingHolds(p, w);
    case Predicate => SearchingHolds(p, w);
    case Waking(_) => SearchingHolds(p, w);
    case ReadRunning => TestingHolds(p, w);
    case ReadPaused => TestingHolds(p, w);
    case Take => TestingHolds(p, w);
    case _ => FinishingHolds(p, w);
  }

  lemma WorkerMovesAlone<T>(p: Pool<T>, w: nat)
    requires w < |p.ws| && WorkerStep(p, w).Some?
    ensures |WorkerStep(p, w).value.ws| == |p.ws|
    ensures WorkerStep(p, w).value.ws == p.ws[w := WorkerStep(p, w).value.ws[w]]
  {
  }

  lemma HeadMovesOver<T>(front: seq<T>, back: seq<T>)
    requires back != []
    ensures front + back == (front + [back[0]]) + back[1..]
    ensures multiset(front + [back[0]]) == multiset(front) + multiset{back[0]}
  {
  }

  lemma WorkerKeepsHistories<T>(p: Pool<T>, w: nat)
    requires Histories(p) && w < |p.ws| && WorkerStep(p, w).Some?
    ensures Histories(WorkerStep(p, w).value)
  {
    var q := WorkerStep(p, w).value;
    if p.ws[w].Take? && p.sh.tasks != [] {
      HeadMovesOver(p.started, p.sh.tasks);
      WorkerMovesAlone(p, w);
      MoveKeepsHistories(p, q, w, multiset{p.sh.tasks[0]}, multiset{});
    } else {
      QuietWorkerStep(p, w);
      QuietWorkerHolds(p, w);
      WorkerMovesAlone(p, w);
      MoveKeepsHistories(p, q, w, multiset{}, multiset{});
    }
  }

  /** task() returning, or a worker waking up, moves one worker and touches nothing the other threads share. */
  lemma LocalMoveKeepsInv<T>(p: Pool<T>, l: Label<T>)
    requires Mutex(p) && Conserved(p) && Flags(p) && (l.TaskEnds? || l.Wake?) && Step(p, l).Some?
    ensures Mutex(Step(p, l).value) && Conserved(Step(p, l).value) && Flags(Step(p, l).value)
  {
    InFlightUpdate(p.ws, l.w, Step(p, l).value.ws[l.w]);
  }

  lemma LocalMoveKeepsHistories<T>(p: Pool<T>, l: Label<T>)
    requires Histories(p) && (l.TaskEnds? || l.Wake?) && Step(p, l).Some?
    ensures Histories(Step(p, l).value)
  {
    if l.TaskEnds? {
      MoveKeepsHistories(p, Step(p, l).value, l.w, multiset{}, multiset{p.ws[l.w].task});
    } else {
      MoveKeepsHistories(p, Step(p, l).value, l.w, multiset{}, multiset{});
    }
  }

  /** Steps that leave the worker program counters as they are, up to waking sleepers. */
  lemma FrameHistories<T>(p: Pool<T>, q: Pool<T>)
    requires Histories(p) && q.pushed == q.started + q.sh.tasks
    requires q.started == p.started && q.finished == p.finished
    requires |q.ws| == |p.ws| && forall w :: 0 <= w < |p.ws| ==> q.ws[w] == p.ws[w] || q.ws[w] == Woken(p.ws[w])
    ensures Histories(q)
  {
    WokenSums(p.ws, q.ws);
  }

  lemma OwnerKeepsMutex<T>(p: Pool<T>)
    requires Mutex(p) && OwnerStep(p).Some?
    ensures Mutex(OwnerStep(p).value)
  {
  }

  lemma OwnerKeepsFlags<T>(p: Pool<T>)
    requires Flags(p) && OwnerStep(p).Some?
    ensures Flags(OwnerStep(p).value)
  {
  }

  lemma OwnerKeepsConserved<T>(p: Pool<T>)
    requires Mutex(p) && Conserved(p) && OwnerStep(p).Some?
    ensures Conserved(OwnerStep(p).value)
  {
    var q := OwnerStep(p).value;
    if p.owner.NotifyAll? {
      WokenSums(p.ws, q.ws);
    } else {
      assert q.ws == p.ws && q.sh.total == p.sh.total;
    }
  }

  lemma OwnerKeepsHistories<T>(p: Pool<T>)
    requires Histories(p) && OwnerStep(p).Some?
    ensures Histories(OwnerStep(p).value)
  {
    FrameHistories(p, OwnerStep(p).value);
  }

  lemma PushKeepsInv<T>(p: Pool<T>, l: Label<T>)
    requires Inv(p) && (l.PushLock? || l.PushQueue? || l.PushCount? || l.PushUnlock?) && PushStep(p, l).Some?
    ensures Inv(PushStep(p, l).value)
  {
    var q := PushStep(p, l).value;
    assert l.PushQueue? ==> p.started + (p.sh.tasks + [l.task]) == (p.started + p.sh.tasks) + [l.task];
    FrameHistories(p, q);
  }

  /** Every step of every thread keeps the invariant. */
  lemma StepKeepsInv<T>(p: Pool<T>, l: Label<T>)
    requires Inv(p) && Step(p, l).Some?
    ensures Inv(Step(p, l).value)
  {
    if l.Work? {
      WorkerKeepsMutex(p, l.w);
      WorkerKeepsFlags(p, l.w);
      WorkerKeepsConserved(p, l.w);
      WorkerKeepsHistories(p, l.w);
    } else if l.TaskEnds? || l.Wake? {
      LocalMoveKeepsInv(p, l);
      LocalMoveKeepsHistories(p, l);
    } else if l.OwnerWork? {
      OwnerKeepsMutex(p);
      OwnerKeepsFlags(p);
      OwnerKeepsConserved(p);
      OwnerKeepsHistories(p);
    } else if l.PushLock? || l.PushQueue? || l.PushCount? || l.PushUnlock? {
      PushKeepsInv(p, l);
    } else {
      assert Step(p, l).value.ws == p.ws;
    }
  }

  /** The invariant holds after every run, whatever the number of workers. */
  lemma {:induction false} RunKeepsInv<T>(p: Pool<T>, labels: seq<Label<T>>)
    requires Inv(p) && CanRun(p, labels)
    ensures Inv(Final(p, labels))
    decreases |labels|
  {
    if labels != [] {
      StepKeepsInv(p, labels[0]);
      RunKeepsInv(Step(p, labels[0]).value, labels[1..]);
    }
  }
}
