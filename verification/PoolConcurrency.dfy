/** How many tasks a pool runs at the same time: never more than it has threads, and that many if there are tasks enough. */
module PoolConcurrency {
  import opened PoolMachine
  import opened PoolInvariant
  import opened ThreadPoolObject
  import C = PoolCompletion

  lemma {:induction false} InFlightAtMostAll<T>(ws: seq<WorkerPc<T>>)
    ensures InFlight(ws) <= |ws|
  {
    if ws != [] {
      InFlightAtMostAll(ws[..|ws| - 1]);
    }
  }

  /** In no run are there ever more tasks in flight than the pool has threads. */
  lemma AtMostOneTaskPerThread<T>(threads: nat, labels: seq<Label<T>>)
    requires CanRun(Init<T>(threads), labels)
    ensures |Final(Init<T>(threads), labels).ws| == threads && InFlight(Final(Init<T>(threads), labels).ws) <= threads
  {
    C.RunKeepsSize(Init<T>(threads), labels);
    InFlightAtMostAll(Final(Init<T>(threads), labels).ws);
  }

  // ----- A run in which all threads have a task -----

  /** n tasks have been pushed and no worker has moved. */
  function Filled<T>(threads: nat, tasks: seq<T>, n: nat): Pool<T>
    requires n <= |tasks|
  {
    Init<T>(threads).(sh := Shared(true, false, false, tasks[..n], n), pushed := tasks[..n])
  }

  /** The first n workers have taken a task each. */
  function Occupied<T>(tasks: seq<T>, n: nat): Pool<T>
    requires n <= |tasks|
  {
    Pool(Shared(true, false, false, tasks[n..], |tasks|), Free,
         seq(|tasks|, w requires 0 <= w < |tasks| => if w < n then Busy(tasks[w]) else LoopTest),
         Outside, tasks, tasks[..n], [])
  }

  lemma {:induction false} FillUp<T>(threads: nat, tasks: seq<T>, n: nat) returns (labels: seq<Label<T>>)
    requires n <= |tasks|
    ensures CanRun(Init<T>(threads), labels) && Final(Init<T>(threads), labels) == Filled(threads, tasks, n)
  {
    if n == 0 {
      labels := [];
      assert tasks[..0] == [];
    } else {
      var before := FillUp(threads, tasks, n - 1);
      var push := [PushLock(0), PushQueue(tasks[n - 1]), PushCount, PushUnlock];
      PushSection(Filled(threads, tasks, n - 1), 0, tasks[n - 1]);
      assert tasks[..n] == tasks[..n - 1] + [tasks[n - 1]];
      RunAppend(Init<T>(threads), before, push);
      labels := before + push;
    }
  }

  /** The next worker takes the next task, whatever the others are doing. */
  lemma OneMoreTakes<T>(tasks: seq<T>, n: nat)
    requires n < |tasks|
    ensures
      var steps := [Work(n), Work(n), Work(n), Work(n)];
      CanRun(Occupied(tasks, n), steps + steps) && Final(Occupied(tasks, n), steps + steps) == Occupied(tasks, n + 1)
  {
    var p := Occupied(tasks, n);
    var steps: seq<Label<T>> := [Work(n), Work(n), Work(n), Work(n)];
    var q := p.(lock := ByWorker(n), ws := p.ws[n := ReadRunning]);
    EnterSection(p, n);
    TakeSection(q, n);
    RunAppend(p, steps, steps);
    assert tasks[n..][0] == tasks[n] && tasks[n..][1..] == tasks[n + 1..] && tasks[..n] + [tasks[n]] == tasks[..n + 1];
    assert q.ws[n := Busy(tasks[n])] == Occupied(tasks, n + 1).ws;
  }

  lemma {:induction false} TakeUp<T>(tasks: seq<T>, n: nat) returns (labels: seq<Label<T>>)
    requires n <= |tasks|
    ensures CanRun(Occupied(tasks, 0), labels) && Final(Occupied(tasks, 0), labels) == Occupied(tasks, n)
  {
    if n == 0 {
      labels := [];
    } else {
      var before := TakeUp(tasks, n - 1);
      var steps := [Work(n - 1), Work(n - 1), Work(n - 1), Work(n - 1)];
      OneMoreTakes(tasks, n - 1);
      RunAppend(Occupied(tasks, 0), before, steps + steps);
      labels := before + (steps + steps);
    }
  }

  /** For as many tasks as there are threads there is a run that leaves each worker inside its own task, all at once. */
  lemma AllThreadsCanWorkAtOnce<T>(tasks: seq<T>) returns (labels: seq<Label<T>>)
    ensures CanRun(Init<T>(|tasks|), labels)
    ensures
      var p := Final(Init<T>(|tasks|), labels);
      |p.ws| == |tasks| && p.sh.tasks == [] && forall w :: 0 <= w < |tasks| ==> p.ws[w] == Busy(tasks[w])
  {
    var threads := |tasks|;
    var first := FillUp(threads, tasks, threads);
    var second := TakeUp(tasks, threads);
    assert tasks[..threads] == tasks && tasks[0..] == tasks && tasks[..0] == [];
    assert Filled(threads, tasks, threads).ws == Occupied(tasks, 0).ws;
    RunAppend(Init<T>(threads), first, second);
    labels := first + second;
  }
}
