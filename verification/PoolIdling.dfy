/** When workers sleep: without a task in the queue they do not spin, and with one in the queue they do not sleep. */
module PoolIdling {
  import opened PoolMachine
  import opened PoolInvariant
  import opened PoolTheorems

  // ----- Only an empty queue puts a worker to sleep -----

  lemma FallsAsleepOnlyWhenEmpty<T>(p: Pool<T>, l: Label<T>, w: nat)
    requires Step(p, l).Some? && |Step(p, l).value.ws| == |p.ws| && w < |p.ws|
    ensures !p.ws[w].Asleep? && Step(p, l).value.ws[w].Asleep? ==> p.sh.tasks == [] && p.sh.running
  {
  }

  lemma PausedQueueStays<T>(p: Pool<T>, l: Label<T>)
    requires Mutex(p) && p.sh.paused && p.sh.tasks != [] && !Committed(p) && Step(p, l).Some? && !l.Unpause?
    ensures
      var q := Step(p, l).value;
      && q.sh.paused && q.sh.tasks != [] && !Committed(q) && |q.ws| == |p.ws|
      && forall w :: 0 <= w < |p.ws| && q.ws[w].Asleep? ==> p.ws[w].Asleep?
  {
    if l.Work? {
      PausedWorkerStaysAwake(p, l.w);
    }
  }

  lemma PausedWorkerStaysAwake<T>(p: Pool<T>, w: nat)
    requires Mutex(p) && p.sh.paused && p.sh.tasks != [] && !Committed(p) && w < |p.ws| && WorkerStep(p, w).Some?
    ensures
      var q := WorkerStep(p, w).value;
      && q.sh.paused && q.sh.tasks != [] && !Committed(q) && |q.ws| == |p.ws|
      && forall v :: 0 <= v < |p.ws| && q.ws[v].Asleep? ==> p.ws[v].Asleep?
  {
  }

  /**
   A paused pool with a task in its queue spins: in no continuation without unpause() does a worker that is awake
   fall asleep.
   */
  lemma {:induction false} PausedPoolNeverSleeps<T>(p: Pool<T>, labels: seq<Label<T>>, w: nat)
    requires Inv(p) && p.sh.paused && p.sh.tasks != [] && !Committed(p) && w < |p.ws| && !p.ws[w].Asleep?
    requires CanRun(p, labels) && NoUnpause(labels)
    ensures |Final(p, labels).ws| == |p.ws| && !Final(p, labels).ws[w].Asleep?
    decreases |labels|
  {
    if labels != [] {
      assert labels[0] in labels && forall l :: l in labels[1..] ==> l in labels;
      PausedQueueStays(p, labels[0]);
      StepKeepsInv(p, labels[0]);
      PausedPoolNeverSleeps(Step(p, labels[0]).value, labels[1..], w);
    }
  }

  // ----- An idle pool does not spin -----

  /** How many steps a worker takes before it sleeps, while the queue is empty. */
  function IdleRank<T>(pc: WorkerPc<T>): nat {
    match pc
    case Releasing(_) => 10
    case Busy(_) => 9
    case Waking(timedOut) => if timedOut then 9 else 2
    case Relocking => 8
    case ReadRunning => 8
    case Decrement => 7
    case ReadPaused => 7
    case NotifyTest => 6
    case Take => 6
    case Leaving(_) => 5
    case LoopTest => 4
    case Locking => 3
    case Recheck => 2
    case Predicate => 1
    case _ => 0
  }

  /** The worker's own statements, the end of its task included, and the times it is woken. */
  function Statements<T>(labels: seq<Label<T>>, w: nat): nat {
    if labels == [] then 0
    else (if (labels[0].Work? || labels[0].TaskEnds?) && labels[0].w == w then 1 else 0) + Statements(labels[1..], w)
  }

  function WakeUps<T>(labels: seq<Label<T>>, w: nat): nat {
    if labels == [] then 0 else (if labels[0].Wake? && labels[0].w == w then 1 else 0) + WakeUps(labels[1..], w)
  }

  lemma IdleWorkerStep<T>(p: Pool<T>, w: nat)
    requires p.sh.tasks == [] && p.sh.running && w < |p.ws| && WorkerStep(p, w).Some?
    ensures
      var q := WorkerStep(p, w).value;
      && q.sh.tasks == [] && q.sh.running && |q.ws| == |p.ws| && IdleRank(q.ws[w]) < IdleRank(p.ws[w])
      && forall v :: 0 <= v < |p.ws| && v != w ==> q.ws[v] == p.ws[v]
  {
  }

  lemma IdleStep<T>(p: Pool<T>, l: Label<T>, w: nat)
    requires p.sh.tasks == [] && p.sh.running && w < |p.ws| && Step(p, l).Some? && !l.PushQueue?
    requires Step(p, l).value.sh.running && !p.owner.NotifyAll?
    ensures
      var q := Step(p, l).value;
      && q.sh.tasks == [] && |q.ws| == |p.ws|
      && IdleRank(q.ws[w]) + Statements([l], w) <= IdleRank(p.ws[w]) + 9 * WakeUps([l], w)
  {
    assert [l][1..] == [];
    if l.Work? {
      IdleWorkerStep(p, l.w);
    }
  }

  /**
   While the pool runs and its queue is empty, no worker spins: from one wake-up to the next it takes at most nine
   statements, and at most ten before the first.
   */
  lemma {:induction false} IdleWorkersSleep<T>(p: Pool<T>, labels: seq<Label<T>>, w: nat)
    requires Inv(p) && p.sh.tasks == [] && w < |p.ws| && CanRun(p, labels) && Final(p, labels).sh.running
    requires forall l :: l in labels ==> !l.PushQueue?
    ensures |Final(p, labels).ws| == |p.ws|
    ensures IdleRank(Final(p, labels).ws[w]) + Statements(labels, w) <= IdleRank(p.ws[w]) + 9 * WakeUps(labels, w)
    ensures IdleRank(p.ws[w]) <= 10
    decreases |labels|
  {
    if labels != [] {
      var q := Step(p, labels[0]).value;
      assert labels[0] in labels && forall l :: l in labels[1..] ==> l in labels;
      StepKeepsInv(p, labels[0]);
      RunsAtTheEnd(q, labels[1..]);
      RunsAtTheEnd(p, labels);
      IdleStep(p, labels[0], w);
      assert [labels[0]][1..] == [];
      IdleWorkersSleep(q, labels[1..], w);
    }
  }

  /** running_ is never set again. */
  lemma {:induction false} RunsAtTheEnd<T>(p: Pool<T>, labels: seq<Label<T>>)
    requires Inv(p) && CanRun(p, labels) && Final(p, labels).sh.running
    ensures p.sh.running && !p.owner.ShuttingDown()
    decreases |labels|
  {
    if labels != [] {
      StepKeepsInv(p, labels[0]);
      RunsAtTheEnd(Step(p, labels[0]).value, labels[1..]);
      if p.owner.ShuttingDown() {
        StaysShut(p, labels[0]);
      }
    }
  }

  lemma StaysShut<T>(p: Pool<T>, l: Label<T>)
    requires Flags(p) && Step(p, l).Some? && p.owner.ShuttingDown()
    ensures Step(p, l).value.owner.ShuttingDown()
  {
  }
}
