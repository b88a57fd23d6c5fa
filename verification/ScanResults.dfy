/**
 What a finished scan has done, said without the recursive walk: which directories it handled and how
 often, which records it delivered and what it counted.
 */
module ScanResults {
  import opened FileTree
  import opened ScanMachine
  import opened ScanWork
  import opened ScanTheorems
  import opened Listings
  import opened WalkTheorems

  // ----- Directories as the operating system lists them -----

  /** The names in a directory are distinct and contain no slash. */
  ghost predicate ProperNames(entries: seq<Entry>) {
    && (forall i :: 0 <= i < |entries| ==> '/' !in entries[i].name)
    && (forall i, j :: 0 <= i < j < |entries| ==> entries[i].name != entries[j].name)
  }

  ghost predicate Proper(fs: FileSystem) {
    forall p :: p in fs.dirs ==> ProperNames(fs.dirs[p])
  }

  /** No path in the list is a prefix of another one. */
  ghost predicate Apart(paths: seq<string>) {
    forall i, j :: 0 <= i < j < |paths| ==> !(paths[i] <= paths[j]) && !(paths[j] <= paths[i])
  }

  ghost predicate Names(path: string, entries: seq<Entry>, d: string) {
    exists i :: 0 <= i < |entries| && d == path + entries[i].name + "/"
  }

  lemma {:induction false} DirsAreNamed(path: string, entries: seq<Entry>, d: string)
    requires d in ListEntries(path, entries).dirs
    ensures Names(path, entries, d)
  {
    var front, last := entries[..|entries| - 1], entries[|entries| - 1];
    if d in ListEntries(path, front).dirs {
      DirsAreNamed(path, front, d);
      var i :| 0 <= i < |front| && d == path + front[i].name + "/";
      assert entries[i] == front[i];
    } else {
      assert d == path + entries[|entries| - 1].name + "/";
    }
  }

  lemma MiddleAt(path: string, name: string, i: nat)
    requires i < |name|
    ensures (path + name + "/")[|path| + i] == name[i]
  {
  }

  lemma ShorterIsNoPrefix(path: string, a: string, b: string)
    requires '/' !in b && |a| < |b|
    ensures !(path + a + "/" <= path + b + "/")
  {
    MiddleAt(path, b, |a|);
    assert (path + a + "/")[|path| + |a|] == '/';
  }

  /** A name followed by a slash is no prefix of a different name followed by a slash. */
  lemma SlashSeparates(path: string, a: string, b: string)
    requires '/' !in a && '/' !in b && path + a + "/" <= path + b + "/"
    ensures a == b
  {
    if |a| < |b| {
      ShorterIsNoPrefix(path, a, b);
    } else {
      forall i | 0 <= i < |a|
        ensures a[i] == b[i]
      {
        MiddleAt(path, a, i);
        MiddleAt(path, b, i);
      }
    }
  }

  lemma {:induction false} SiblingsAreApart(path: string, entries: seq<Entry>)
    requires ProperNames(entries)
    ensures Apart(ListEntries(path, entries).dirs)
  {
    if entries != [] {
      var front, last := entries[..|entries| - 1], entries[|entries| - 1];
      assert ProperNames(front);
      SiblingsAreApart(path, front);
      var dirs := ListEntries(path, front).dirs;
      var added := path + last.name + "/";
      forall i | 0 <= i < |dirs|
        ensures !(dirs[i] <= added) && !(added <= dirs[i])
      {
        DirsAreNamed(path, front, dirs[i]);
        var j :| 0 <= j < |front| && dirs[i] == path + front[j].name + "/";
        NamesAreApart(path, front[j].name, last.name);
      }
    }
  }

  lemma NamesAreApart(path: string, a: string, b: string)
    requires '/' !in a && '/' !in b && a != b
    ensures !(path + a + "/" <= path + b + "/") && !(path + b + "/" <= path + a + "/")
  {
    if path + a + "/" <= path + b + "/" {
      SlashSeparates(path, a, b);
    }
    if path + b + "/" <= path + a + "/" {
      SlashSeparates(path, b, a);
    }
  }

  lemma PrefixesCompare(a: string, b: string, d: string)
    requires a <= d && b <= d
    ensures a <= b || b <= a
  {
  }

  lemma ApartFromLast(paths: seq<string>, p: string)
    requires Apart(paths) && paths != [] && p in paths[..|paths| - 1]
    ensures !(p <= paths[|paths| - 1]) && !(paths[|paths| - 1] <= p)
  {
  }

  /** A subtree contains each path at most once. */
  lemma {:induction false} SubtreeIsASet(fs: FileSystem, path: string, d: string)
    requires Proper(fs)
    ensures Subtree(fs, path)[d] <= 1
    decreases Rank(fs, path), 1, 0
  {
    if path in fs.dirs {
      var children := ListDir(fs, path).dirs;
      ChildrenRankLower(fs, path);
      SiblingsAreApart(path, fs.dirs[path]);
      SiblingSubtreesAreDisjoint(fs, children, d);
      if d == path && d in SubtreeAll(fs, children) {
        ChildrenAreLonger(path, fs.dirs[path]);
        var p := SubtreeAllExtends(fs, children, d);
      }
    }
  }

  lemma {:induction false} SiblingSubtreesAreDisjoint(fs: FileSystem, paths: seq<string>, d: string)
    requires Proper(fs) && Apart(paths)
    ensures SubtreeAll(fs, paths)[d] <= 1
    decreases MaxRank(fs, paths), 2, |paths|
  {
    if paths != [] {
      var front, last := paths[..|paths| - 1], paths[|paths| - 1];
      SiblingSubtreesAreDisjoint(fs, front, d);
      SubtreeIsASet(fs, last, d);
      if d in SubtreeAll(fs, front) && d in Subtree(fs, last) {
        var p := SubtreeAllExtends(fs, front, d);
        ApartFromLast(paths, p);
        SubtreeExtends(fs, last, d);
        PrefixesCompare(p, last, d);
      }
    }
  }

  // ----- How often a directory is handled -----

  ghost predicate Reaches(fs: FileSystem, root: string, d: string) {
    exists chain :: Chain(fs, root, d, chain)
  }

  /** The number of roots, counted with repetition, from which d is reached. */
  ghost function RootsReaching(fs: FileSystem, roots: seq<string>, d: string): nat {
    if roots == [] then 0
    else RootsReaching(fs, roots[..|roots| - 1], d) + if Reaches(fs, roots[|roots| - 1], d) then 1 else 0
  }

  lemma ReachesMeansSubtree(fs: FileSystem, root: string, d: string)
    ensures Reaches(fs, root, d) <==> d in Subtree(fs, root)
  {
    if d in Subtree(fs, root) {
      var chain := SubtreeHasChain(fs, root, d);
    }
    if Reaches(fs, root, d) {
      var chain :| Chain(fs, root, d, chain);
      ChainEndsInSubtree(fs, root, d, chain);
    }
  }

  lemma {:induction false} HandledOncePerRoot(fs: FileSystem, roots: seq<string>, d: string)
    requires Proper(fs)
    ensures SubtreeAll(fs, roots)[d] == RootsReaching(fs, roots, d)
  {
    if roots != [] {
      HandledOncePerRoot(fs, roots[..|roots| - 1], d);
      SubtreeIsASet(fs, roots[|roots| - 1], d);
      ReachesMeansSubtree(fs, roots[|roots| - 1], d);
    }
  }

  // ----- The finished scan -----

  /**
   When wait() returns and nobody has called stop(), every valid directory has been handled once for
   each root from which it is reached, and no other directory has been handled.
   */
  lemma FinishedScanHandledEachOnce(fs: FileSystem, threads: nat, labels: seq<Label>, d: string)
    requires Proper(fs) && CanRun(fs, Init(threads), labels)
    requires !Final(fs, Init(threads), labels).stopped
    requires Final(fs, Init(threads), labels).main.Waited? || Final(fs, Init(threads), labels).main.Destroying?
    ensures
      var s := Final(fs, Init(threads), labels);
      s.visited[d] == if Skipped(d) then 0 else RootsReaching(fs, s.roots, d)
  {
    ScanRefinesWalk(fs, threads, labels);
    var roots := Final(fs, Init(threads), labels).roots;
    PruningIsExactForAll(fs, roots, d);
    HandledOncePerRoot(fs, roots, d);
  }

  /** The scan's results are those of the listed directories, each taken as often as it is listed. */
  ghost predicate Delivers(fs: FileSystem, s: Scan, handled: seq<string>) {
    && s.visited == multiset(handled)
    && s.counts == Wrap(|s.roots| + EntriesOf(fs, handled))
    && multiset(s.drained) == multiset(RecordsOf(fs, handled))
  }

  lemma AccountsDeliver(fs: FileSystem, s: Scan, walk: Work, handled: seq<string>)
    requires AccountsFor(fs, walk, handled) && Done(s) == walk
    requires s.emplaced == s.drained && s.counts == Wrap(|s.roots| + s.entries)
    ensures Delivers(fs, s, handled)
  {
  }

  lemma WaitedScanDelivers(fs: FileSystem, s: Scan)
    requires Good(fs, s) && !s.stopped && (s.main.Waited? || s.main.Destroying?)
    ensures Delivers(fs, s, PreorderAll(fs, s.roots))
  {
    WaitedMeansQuiescent(fs, s);
    QuiescentIsComplete(fs, s);
    WalkAllAccountsForPreorder(fs, s.roots);
    AccountsDeliver(fs, s, WalkAll(fs, s.roots), PreorderAll(fs, s.roots));
  }

  /**
   The records delivered and the number in file_counts_ are those of the directories handled: the
   count is the number of roots plus their subdirectory, regular-file and symlink entries, rejected
   subdirectories included, as a 32-bit integer.
   */
  lemma FinishedScanDelivers(fs: FileSystem, threads: nat, labels: seq<Label>)
    requires CanRun(fs, Init(threads), labels)
    requires !Final(fs, Init(threads), labels).stopped
    requires Final(fs, Init(threads), labels).main.Waited? || Final(fs, Init(threads), labels).main.Destroying?
    ensures Delivers(fs, Final(fs, Init(threads), labels), PreorderAll(fs, Final(fs, Init(threads), labels).roots))
  {
    InitGood(fs, threads);
    RunKeepsGood(fs, Init(threads), labels);
    WaitedScanDelivers(fs, Final(fs, Init(threads), labels));
  }
}
