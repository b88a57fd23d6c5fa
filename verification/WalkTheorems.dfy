/**
 What the sequential walk means.  A directory is reached from a root by a chain of directory entries;
 the walk handles exactly the reached directories without a skip prefix, although it never opens a
 rejected one, and its records and counts are those of the directories it handles.
 */
module WalkTheorems {
  import opened FileTree
  import opened Listings

  lemma {:induction false} ChildrenExtend(path: string, entries: seq<Entry>)
    ensures forall d :: d in ListEntries(path, entries).dirs ==> path <= d
  {
    if entries != [] {
      ChildrenExtend(path, entries[..|entries| - 1]);
    }
  }

  // ----- The whole subtree, rejected directories included -----

  ghost function Subtree(fs: FileSystem, path: string): multiset<string>
    decreases Rank(fs, path), 1, 0
  {
    if path !in fs.dirs then multiset{path}
    else
      ChildrenRankLower(fs, path);
      multiset{path} + SubtreeAll(fs, ListDir(fs, path).dirs)
  }

  ghost function SubtreeAll(fs: FileSystem, paths: seq<string>): multiset<string>
    decreases MaxRank(fs, paths), 2, |paths|
  {
    if paths == [] then multiset{} else SubtreeAll(fs, paths[..|paths| - 1]) + Subtree(fs, paths[|paths| - 1])
  }

  lemma {:induction false} SubtreeExtends(fs: FileSystem, path: string, d: string)
    requires d in Subtree(fs, path)
    ensures path <= d
    decreases Rank(fs, path), 1, 0
  {
    if path in fs.dirs && d != path {
      ChildrenRankLower(fs, path);
      ChildrenExtend(path, fs.dirs[path]);
      var child := SubtreeAllExtends(fs, ListDir(fs, path).dirs, d);
    }
  }

  lemma {:induction false} SubtreeAllExtends(fs: FileSystem, paths: seq<string>, d: string) returns (p: string)
    requires d in SubtreeAll(fs, paths)
    ensures p in paths && p <= d
    decreases MaxRank(fs, paths), 2, |paths|
  {
    var last := |paths| - 1;
    if d in Subtree(fs, paths[last]) {
      SubtreeExtends(fs, paths[last], d);
      p := paths[last];
    } else {
      p := SubtreeAllExtends(fs, paths[..last], d);
    }
  }

  /** A directory is handled as often as the unpruned subtree contains it, and never if its path is skipped. */
  lemma {:induction false} PruningIsExact(fs: FileSystem, path: string, d: string)
    ensures Walk(fs, path).visits[d] == if Skipped(d) then 0 else Subtree(fs, path)[d]
    decreases Rank(fs, path), 1, 0
  {
    RejectedMeansSkipped(path);
    if !ValidPath(path) {
      if d in Subtree(fs, path) {
        SubtreeExtends(fs, path, d);
        RejectedBelow(path, d);
      }
    } else if path in fs.dirs {
      ChildrenRankLower(fs, path);
      PruningIsExactForAll(fs, ListDir(fs, path).dirs, d);
    }
  }

  lemma {:induction false} PruningIsExactForAll(fs: FileSystem, paths: seq<string>, d: string)
    ensures WalkAll(fs, paths).visits[d] == if Skipped(d) then 0 else SubtreeAll(fs, paths)[d]
    decreases MaxRank(fs, paths), 2, |paths|
  {
    if paths != [] {
      PruningIsExactForAll(fs, paths[..|paths| - 1], d);
      PruningIsExact(fs, paths[|paths| - 1], d);
    }
  }

  // ----- Reachability -----

  /** `child` is a subdirectory of d, by an entry of d that is neither d itself nor its parent. */
  ghost predicate LeadsTo(fs: FileSystem, d: string, child: string) {
    exists name :: HasEntry(fs, d, name, Directory) && child == d + name + "/"
  }

  /** A chain of directory entries from `path` down to `d`. */
  ghost predicate Chain(fs: FileSystem, path: string, d: string, chain: seq<string>) {
    && chain != [] && chain[0] == path && chain[|chain| - 1] == d
    && forall i :: 0 <= i < |chain| - 1 ==> LeadsTo(fs, chain[i], chain[i + 1])
  }

  lemma ChainFrom(fs: FileSystem, path: string, child: string, d: string, rest: seq<string>) returns (chain: seq<string>)
    requires LeadsTo(fs, path, child) && Chain(fs, child, d, rest)
    ensures Chain(fs, path, d, chain)
  {
    chain := [path] + rest;
    assert forall i :: 0 < i < |chain| ==> chain[i] == rest[i - 1];
  }

  lemma {:induction false} SubtreeHasChain(fs: FileSystem, path: string, d: string) returns (chain: seq<string>)
    requires d in Subtree(fs, path)
    ensures Chain(fs, path, d, chain)
    decreases Rank(fs, path), 1, 0
  {
    if d == path {
      chain := [path];
    } else {
      ChildrenRankLower(fs, path);
      var child, rest := SubtreeAllHasChain(fs, ListDir(fs, path).dirs, d);
      DirIsListedIff(fs, path, child);
      chain := ChainFrom(fs, path, child, d, rest);
    }
  }

  lemma {:induction false} SubtreeAllHasChain(fs: FileSystem, paths: seq<string>, d: string) returns (p: string, chain: seq<string>)
    requires d in SubtreeAll(fs, paths)
    ensures p in paths && Chain(fs, p, d, chain)
    decreases MaxRank(fs, paths), 2, |paths|
  {
    var last := |paths| - 1;
    if d in Subtree(fs, paths[last]) {
      p := paths[last];
      chain := SubtreeHasChain(fs, p, d);
    } else {
      p, chain := SubtreeAllHasChain(fs, paths[..last], d);
    }
  }

  lemma {:induction false} MemberOfAll(fs: FileSystem, paths: seq<string>, p: string)
    requires p in paths
    ensures Subtree(fs, p) <= SubtreeAll(fs, paths)
    decreases |paths|
  {
    var last := |paths| - 1;
    if p != paths[last] {
      assert p in paths[..last];
      MemberOfAll(fs, paths[..last], p);
    }
  }

  lemma ChainRest(fs: FileSystem, path: string, d: string, chain: seq<string>)
    requires Chain(fs, path, d, chain) && |chain| > 1
    ensures LeadsTo(fs, path, chain[1]) && Chain(fs, chain[1], d, chain[1..])
  {
    assert LeadsTo(fs, chain[0], chain[0 + 1]);
    forall i | 0 <= i < |chain[1..]| - 1
      ensures LeadsTo(fs, chain[1..][i], chain[1..][i + 1])
    {
      assert LeadsTo(fs, chain[i + 1], chain[i + 1 + 1]);
    }
  }

  lemma {:induction false} ChainEndsInSubtree(fs: FileSystem, path: string, d: string, chain: seq<string>)
    requires Chain(fs, path, d, chain)
    ensures d in Subtree(fs, path)
    decreases |chain|
  {
    if |chain| > 1 {
      var rest := chain[1..];
      ChainRest(fs, path, d, chain);
      DirIsListedIff(fs, path, rest[0]);
      ChainEndsInSubtree(fs, rest[0], d, rest);
      MemberOfAll(fs, ListDir(fs, path).dirs, rest[0]);
      assert path in fs.dirs;
      assert Subtree(fs, rest[0]) <= SubtreeAll(fs, ListDir(fs, path).dirs);
    }
  }

  /**
   From any set of roots, the directories the walk handles are exactly those reached from a root by a
   chain of directory entries and not in one of the five trees that are skipped.
   */
  lemma HandledMeansReachedAndValid(fs: FileSystem, roots: seq<string>, d: string)
    ensures d in WalkAll(fs, roots).visits <==> !Skipped(d) && exists r, chain :: r in roots && Chain(fs, r, d, chain)
  {
    PruningIsExactForAll(fs, roots, d);
    if d in SubtreeAll(fs, roots) {
      var r, chain := SubtreeAllHasChain(fs, roots, d);
    }
    if exists r, chain :: r in roots && Chain(fs, r, d, chain) {
      var r, chain :| r in roots && Chain(fs, r, d, chain);
      ChainEndsInSubtree(fs, r, d, chain);
      MemberOfAll(fs, roots, r);
    }
  }

  // ----- Records and counts -----

  /** The directories handled, in the order of the recursion. */
  ghost function Preorder(fs: FileSystem, path: string): seq<string>
    decreases Rank(fs, path), 1, 0
  {
    if !ValidPath(path) then []
    else if path !in fs.dirs then [path]
    else
      ChildrenRankLower(fs, path);
      [path] + PreorderAll(fs, ListDir(fs, path).dirs)
  }

  ghost function PreorderAll(fs: FileSystem, paths: seq<string>): seq<string>
    decreases MaxRank(fs, paths), 2, |paths|
  {
    if paths == [] then [] else PreorderAll(fs, paths[..|paths| - 1]) + Preorder(fs, paths[|paths| - 1])
  }

  /** The records of the given directories, one after the other. */
  function RecordsOf(fs: FileSystem, dirs: seq<string>): seq<Record> {
    if dirs == [] then [] else OwnRecords(fs, ListDir(fs, dirs[0])) + RecordsOf(fs, dirs[1..])
  }

  /** Their subdirectory, regular-file and symlink entries. */
  ghost function EntriesOf(fs: FileSystem, dirs: seq<string>): nat {
    if dirs == [] then 0 else |Counted(fs, dirs[0])| + EntriesOf(fs, dirs[1..])
  }

  lemma {:induction false} OfAppend(fs: FileSystem, xs: seq<string>, ys: seq<string>)
    ensures RecordsOf(fs, xs + ys) == RecordsOf(fs, xs) + RecordsOf(fs, ys)
    ensures EntriesOf(fs, xs + ys) == EntriesOf(fs, xs) + EntriesOf(fs, ys)
  {
    if xs == [] {
      assert xs + ys == ys;
    } else {
      assert (xs + ys)[1..] == xs[1..] + ys;
      OfAppend(fs, xs[1..], ys);
    }
  }

  /** The records and counts of the walk are those of the directories it handles, each taken once per visit. */
  ghost predicate AccountsFor(fs: FileSystem, w: Work, dirs: seq<string>) {
    w.visits == multiset(dirs) && w.records == multiset(RecordsOf(fs, dirs)) && w.entries == EntriesOf(fs, dirs)
  }

  lemma AccountsAdd(fs: FileSystem, a: Work, xs: seq<string>, b: Work, ys: seq<string>)
    requires AccountsFor(fs, a, xs) && AccountsFor(fs, b, ys)
    ensures AccountsFor(fs, a.Plus(b), xs + ys)
  {
    OfAppend(fs, xs, ys);
  }

  lemma AccountsForOne(fs: FileSystem, path: string)
    ensures AccountsFor(fs, Work(multiset{}, multiset{path}, 0).Plus(Found(fs, ListDir(fs, path))), [path])
  {
    assert [path][1..] == [];
    SizeIsCounted(fs, path);
    assert RecordsOf(fs, [path]) == OwnRecords(fs, ListDir(fs, path));
  }

  lemma {:induction false} WalkAccountsForPreorder(fs: FileSystem, path: string)
    ensures AccountsFor(fs, Walk(fs, path), Preorder(fs, path))
    decreases Rank(fs, path), 1, 0
  {
    if ValidPath(path) {
      AccountsForOne(fs, path);
      if path in fs.dirs {
        ChildrenRankLower(fs, path);
        WalkAllAccountsForPreorder(fs, ListDir(fs, path).dirs);
        AccountsAdd(fs, Work(multiset{}, multiset{path}, 0).Plus(Found(fs, ListDir(fs, path))), [path],
                    WalkAll(fs, ListDir(fs, path).dirs), PreorderAll(fs, ListDir(fs, path).dirs));
      } else {
        assert Work(multiset{}, multiset{path}, 0).Plus(Found(fs, NOTHING)) == Work(multiset{}, multiset{path}, 0);
      }
    }
  }

  lemma {:induction false} WalkAllAccountsForPreorder(fs: FileSystem, paths: seq<string>)
    ensures AccountsFor(fs, WalkAll(fs, paths), PreorderAll(fs, paths))
    decreases MaxRank(fs, paths), 2, |paths|
  {
    if paths != [] {
      var front, last := paths[..|paths| - 1], paths[|paths| - 1];
      WalkAllAccountsForPreorder(fs, front);
      WalkAccountsForPreorder(fs, last);
      AccountsAdd(fs, WalkAll(fs, front), PreorderAll(fs, front), Walk(fs, last), Preorder(fs, last));
    }
  }
}
