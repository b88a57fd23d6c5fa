/** What one worker does that is left alone with the queue: task by task it does the work of the sequential walk. */
module ScanAlone {
  import opened FileTree
  import opened Listings
  import opened ScanMachine
  import opened ScanMeasure
  import opened ScanPhases

  // ----- The walk of a list -----

  lemma PlusAssociates(a: Work, b: Work, c: Work)
    ensures a.Plus(b).Plus(c) == a.Plus(b.Plus(c))
  {
  }

  lemma {:induction false} WalkAllAppend(fs: FileSystem, xs: seq<string>, ys: seq<string>)
    ensures WalkAll(fs, xs + ys) == WalkAll(fs, xs).Plus(WalkAll(fs, ys))
    decreases |ys|
  {
    if ys == [] {
      assert xs + ys == xs;
    } else {
      var front, last := ys[..|ys| - 1], ys[|ys| - 1];
      assert (xs + ys)[..|xs + ys| - 1] == xs + front && (xs + ys)[|xs + ys| - 1] == last;
      WalkAllAppend(fs, xs, front);
      PlusAssociates(WalkAll(fs, xs), WalkAll(fs, front), Walk(fs, last));
    }
  }

  lemma PlusNothing(a: Work)
    ensures NO_WORK.Plus(a) == a
  {
  }

  lemma WalkAllOne(fs: FileSystem, path: string)
    ensures WalkAll(fs, [path]) == Walk(fs, path)
  {
    var paths := [path];
    assert paths[..|paths| - 1] == [] && paths[|paths| - 1] == path;
    assert WalkAll(fs, paths) == WalkAll(fs, []).Plus(Walk(fs, path));
    PlusNothing(Walk(fs, path));
  }

  lemma WalkYields(fs: FileSystem, path: string)
    ensures
      Walk(fs, path)
      == Work(multiset{}, if Skipped(path) then multiset{} else multiset{path}, 0)
         .Plus(Found(fs, Yields(fs, path))).Plus(WalkAll(fs, Yields(fs, path).dirs))
  {
    RejectedMeansSkipped(path);
  }

  /** The work of the queue before a round is what the round adds and the work of the queue after it. */
  lemma RoundConservesWork(fs: FileSystem, tasks: seq<string>, tasks': seq<string>)
    requires tasks != [] && tasks' == tasks[1..] + Yields(fs, tasks[0]).dirs
    ensures WalkAll(fs, tasks).records == multiset(OwnRecords(fs, Yields(fs, tasks[0]))) + WalkAll(fs, tasks').records
    ensures WalkAll(fs, tasks).entries == Yields(fs, tasks[0]).Size() + WalkAll(fs, tasks').entries
  {
    assert tasks == [tasks[0]] + tasks[1..];
    WalkAllAppend(fs, [tasks[0]], tasks[1..]);
    WalkAllOne(fs, tasks[0]);
    WalkYields(fs, tasks[0]);
    WalkAllAppend(fs, tasks[1..], Yields(fs, tasks[0]).dirs);
  }

  /** The records there are and those that the queue still calls for are `whole`. */
  ghost predicate Owes(fs: FileSystem, tasks: seq<string>, infos: seq<Record>, whole: multiset<Record>) {
    multiset(infos) + WalkAll(fs, tasks).records == whole
  }

  /** The counter, `start` at first, has counted all of `whole` but what is due. */
  predicate Tallies(due: nat, counts: int, start: int, whole: nat) {
    due <= whole && counts == Wrap(start + (whole - due))
  }

  lemma RoundPays(fs: FileSystem, tasks: seq<string>, tasks': seq<string>, infos: seq<Record>, infos': seq<Record>, whole: multiset<Record>)
    requires tasks != [] && tasks' == tasks[1..] + Yields(fs, tasks[0]).dirs
    requires Owes(fs, tasks, infos, whole) && infos' == infos + OwnRecords(fs, Yields(fs, tasks[0]))
    ensures Owes(fs, tasks', infos', whole)
  {
    RoundConservesWork(fs, tasks, tasks');
  }

  predicate CountsUp(counts: int, counts': int, size: nat) {
    counts' == Wrap(counts + size) || (counts' == counts && size == 0)
  }

  lemma DueLessSize(fs: FileSystem, tasks: seq<string>, tasks': seq<string>)
    requires tasks != [] && tasks' == tasks[1..] + Yields(fs, tasks[0]).dirs
    ensures Due(fs, tasks) == Yields(fs, tasks[0]).Size() + Due(fs, tasks')
  {
    RoundConservesWork(fs, tasks, tasks');
  }

  lemma TallyMore(due: nat, due': nat, size: nat, counts: int, counts': int, start: int, whole: nat)
    requires Tallies(due, counts, start, whole) && due == size + due'
    requires CountsUp(counts, counts', size)
    ensures Tallies(due', counts', start, whole)
  {
    WrapAdds(start + (whole - due), size);
  }

  /** How much the queue still calls for counting. */
  ghost function Due(fs: FileSystem, tasks: seq<string>): nat { WalkAll(fs, tasks).entries }

  lemma RoundTallies(fs: FileSystem, tasks: seq<string>, tasks': seq<string>, counts: int, counts': int, start: int, whole: nat)
    requires tasks != [] && tasks' == tasks[1..] + Yields(fs, tasks[0]).dirs
    requires Tallies(Due(fs, tasks), counts, start, whole)
    requires CountsUp(counts, counts', Yields(fs, tasks[0]).Size())
    ensures Tallies(Due(fs, tasks'), counts', start, whole)
  {
    DueLessSize(fs, tasks, tasks');
    TallyMore(Due(fs, tasks), Due(fs, tasks'), Yields(fs, tasks[0]).Size(), counts, counts', start, whole);
  }

  /** Of the records `all` and the count `whole`, starting from `start`, what is not there yet is called for by the queue. */
  ghost predicate Remains(fs: FileSystem, tasks: seq<string>, infos: seq<Record>, all: multiset<Record>, counts: int, start: int, whole: nat) {
    Owes(fs, tasks, infos, all) && Tallies(Due(fs, tasks), counts, start, whole)
  }

  lemma AllRemains(fs: FileSystem, tasks: seq<string>, infos: seq<Record>, counts: int)
    requires -0x8000_0000 <= counts < 0x8000_0000
    ensures Remains(fs, tasks, infos, multiset(infos) + WalkAll(fs, tasks).records, counts, counts, Due(fs, tasks))
  {
    WrapIsInt32(counts);
  }

  lemma NothingRemains(fs: FileSystem, infos: seq<Record>, all: multiset<Record>, counts: int, start: int, whole: nat)
    requires Remains(fs, [], infos, all, counts, start, whole)
    ensures multiset(infos) == all && counts == Wrap(start + whole)
  {
  }

  lemma RoundLeaves(fs: FileSystem, tasks: seq<string>, tasks': seq<string>, infos: seq<Record>, infos': seq<Record>, all: multiset<Record>,
                    counts: int, counts': int, start: int, whole: nat)
    requires tasks != [] && tasks' == tasks[1..] + Yields(fs, tasks[0]).dirs
    requires Remains(fs, tasks, infos, all, counts, start, whole)
    requires infos' == infos + OwnRecords(fs, Yields(fs, tasks[0]))
    requires counts' == if Skipped(tasks[0]) then counts else Wrap(counts + Yields(fs, tasks[0]).Size())
    ensures Remains(fs, tasks', infos', all, counts', start, whole)
  {
    RoundPays(fs, tasks, tasks', infos, infos', all);
    assert CountsUp(counts, counts', Yields(fs, tasks[0]).Size());
    RoundTallies(fs, tasks, tasks', counts, counts', start, whole);
  }

  // ----- The queue becomes cheaper -----

  lemma {:induction false} DirsCostAppend(fs: FileSystem, xs: seq<string>, ys: seq<string>)
    ensures DirsCost(fs, xs + ys) == DirsCost(fs, xs) + DirsCost(fs, ys)
    decreases |ys|
  {
    if ys == [] {
      assert xs + ys == xs;
    } else {
      var front, last := ys[..|ys| - 1], ys[|ys| - 1];
      assert (xs + ys)[..|xs + ys| - 1] == xs + front && (xs + ys)[|xs + ys| - 1] == last;
      DirsCostAppend(fs, xs, front);
    }
  }

  lemma RoundIsCheaper(fs: FileSystem, tasks: seq<string>, tasks': seq<string>)
    requires tasks != [] && tasks' == tasks[1..] + Yields(fs, tasks[0]).dirs
    ensures DirsCost(fs, tasks') < DirsCost(fs, tasks)
  {
    RejectedMeansSkipped(tasks[0]);
    assert tasks == [tasks[0]] + tasks[1..] && [tasks[0]][..0] == [];
    DirsCostAppend(fs, [tasks[0]], tasks[1..]);
    DirsCostAppend(fs, tasks[1..], Yields(fs, tasks[0]).dirs);
    assert DirsCost(fs, [tasks[0]]) == DirCost(fs, tasks[0]) + 5;
    assert DirsCost(fs, []) == 0;
  }
}
