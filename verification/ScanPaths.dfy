/**
 What the paths of a scan name.  traverse_dir_ glues entry names to the path of the directory as it is;
 so a root has to end in a slash, and a scan of one that does not goes astray.
 */
module ScanPaths {
  import opened FileTree
  import opened Listings
  import opened WalkTheorems
  import opened ScanMachine
  import opened ScanRecords
  import opened Tokens
  import opened Paths
  import C = ScanCompletion
  import D = ScanShutdown
  import T = ScanTheorems

  /** The names in a directory are not empty and contain no slash. */
  ghost predicate WellNamed(fs: FileSystem) {
    forall p, i :: p in fs.dirs && 0 <= i < |fs.dirs[p]| ==> fs.dirs[p][i].name != "" && '/' !in fs.dirs[p][i].name
  }

  /** From `r`, the directory entries `names` lead to the directory with the path `d`. */
  ghost predicate Descends(fs: FileSystem, r: string, names: seq<string>, d: string)
    decreases |names|
  {
    if names == [] then d == r
    else HasEntry(fs, r, names[0], Directory) && Descends(fs, r + names[0] + "/", names[1..], d)
  }

  lemma EntryIsNamed(fs: FileSystem, d: string, name: string, kind: EntryKind)
    requires WellNamed(fs) && HasEntry(fs, d, name, kind)
    ensures name != "" && Clean(name, SLASH)
  {
    var i :| 0 <= i < |fs.dirs[d]| && fs.dirs[d][i] == Entry(name, kind);
    assert fs.dirs[d][i].name == name;
  }

  // ----- Chains of entries and their names -----

  lemma {:induction false} ChainHasNames(fs: FileSystem, r: string, d: string, chain: seq<string>) returns (names: seq<string>)
    requires Chain(fs, r, d, chain)
    ensures Descends(fs, r, names, d)
    decreases |chain|
  {
    if |chain| == 1 {
      names := [];
    } else {
      ChainRest(fs, r, d, chain);
      var name :| HasEntry(fs, r, name, Directory) && chain[1] == r + name + "/";
      var more := ChainHasNames(fs, chain[1], d, chain[1..]);
      names := [name] + more;
      assert names[1..] == more;
    }
  }

  lemma {:induction false} NamesMakeAChain(fs: FileSystem, r: string, names: seq<string>, d: string) returns (chain: seq<string>)
    requires Descends(fs, r, names, d)
    ensures Chain(fs, r, d, chain)
    decreases |names|
  {
    if names == [] {
      chain := [r];
    } else {
      var rest := NamesMakeAChain(fs, r + names[0] + "/", names[1..], d);
      assert LeadsTo(fs, r, r + names[0] + "/");
      chain := ChainFrom(fs, r, r + names[0] + "/", d, rest);
    }
  }

  // ----- Components along a chain -----

  lemma TrailingSlash(p: string)
    ensures Components(p + "/") == Components(p)
  {
    assert p + SLASH + "" == p + "/";
    ComponentsAtSlash(p, "");
    ComponentsOfName("");
  }

  /** Below a directory whose path ends in a slash each entry adds its name as a component. */
  lemma {:induction false} NamesBecomeComponents(fs: FileSystem, r: string, names: seq<string>, d: string)
    requires WellNamed(fs) && Descends(fs, r, names, d) && (r == "" || EndsInSlash(r))
    ensures Components(d) == Components(r) + names
    decreases |names|
  {
    if names == [] {
      assert Components(r) + [] == Components(r);
    } else {
      var child := r + names[0] + "/";
      EntryIsNamed(fs, r, names[0], Directory);
      ComponentsAdd(r, names[0]);
      TrailingSlash(r + names[0]);
      NamesBecomeComponents(fs, child, names[1..], d);
      assert Components(r) + [names[0]] + names[1..] == Components(r) + names;
    }
  }

  // ----- Files and symlinks -----

  /** `path` is what the scan makes of the entry `name` of directory d: a subdirectory, a file or a symlink. */
  ghost predicate Lists(fs: FileSystem, d: string, name: string, path: string) {
    || (path == d + name + "/" && HasEntry(fs, d, name, Directory))
    || (path == d + name && (HasEntry(fs, d, name, Regular) || HasEntry(fs, d, name, Symlink)))
  }

  /** These are the paths in the listing of the directory. */
  lemma ListedIff(fs: FileSystem, d: string, path: string)
    ensures
      path in ListDir(fs, d).dirs || path in ListDir(fs, d).files || path in ListDir(fs, d).links
      <==> exists name :: Lists(fs, d, name, path)
  {
    DirIsListedIff(fs, d, path);
    FileIsListedIff(fs, d, path);
    LinkIsListedIff(fs, d, path);
    if path in ListDir(fs, d).dirs {
      var name :| HasEntry(fs, d, name, Directory) && path == d + name + "/";
      assert Lists(fs, d, name, path);
    } else if path in ListDir(fs, d).files {
      var name :| HasEntry(fs, d, name, Regular) && path == d + name;
      assert Lists(fs, d, name, path);
    } else if path in ListDir(fs, d).links {
      var name :| HasEntry(fs, d, name, Symlink) && path == d + name;
      assert Lists(fs, d, name, path);
    }
  }

  lemma ListedIsNamed(fs: FileSystem, d: string, name: string, path: string)
    requires WellNamed(fs) && Lists(fs, d, name, path)
    ensures name != "" && Clean(name, SLASH) && Components(path) == Components(d + name)
  {
    if path == d + name + "/" && HasEntry(fs, d, name, Directory) {
      EntryIsNamed(fs, d, name, Directory);
      TrailingSlash(d + name);
    } else if HasEntry(fs, d, name, Regular) {
      EntryIsNamed(fs, d, name, Regular);
    } else {
      EntryIsNamed(fs, d, name, Symlink);
    }
  }

  /** Every path that the scan builds below r has the components of r followed by the names of the entries that lead to it. */
  ghost predicate NamesItsTree(fs: FileSystem, r: string) {
    forall names, d, name, path :: Descends(fs, r, names, d) && Lists(fs, d, name, path) ==>
      Components(path) == Components(r) + names + [name]
  }

  lemma {:induction false} DescendsToSlash(fs: FileSystem, r: string, names: seq<string>, d: string)
    requires Descends(fs, r, names, d) && (r == "" || EndsInSlash(r))
    ensures d == "" || EndsInSlash(d)
    decreases |names|
  {
    if names != [] {
      DescendsToSlash(fs, r + names[0] + "/", names[1..], d);
    }
  }

  lemma ListedBelow(fs: FileSystem, r: string, names: seq<string>, d: string, name: string, path: string)
    requires WellNamed(fs) && (r == "" || EndsInSlash(r)) && Descends(fs, r, names, d) && Lists(fs, d, name, path)
    ensures Components(path) == Components(r) + names + [name]
  {
    NamesBecomeComponents(fs, r, names, d);
    DescendsToSlash(fs, r, names, d);
    ListedIsNamed(fs, d, name, path);
    ComponentsAdd(d, name);
  }

  /** The directory has no subdirectory, file or symlink in it. */
  ghost predicate Barren(fs: FileSystem, d: string) {
    forall name :: !HasEntry(fs, d, name, Directory) && !HasEntry(fs, d, name, Regular) && !HasEntry(fs, d, name, Symlink)
  }

  lemma NothingBelow(fs: FileSystem, r: string, names: seq<string>, d: string)
    requires Barren(fs, r) && Descends(fs, r, names, d)
    ensures forall name, path :: !Lists(fs, d, name, path)
  {
    assert names == [] && d == r;
  }

  /**
   A scan names everything below a root properly, subdirectories, files and symlinks, if and only if the
   root is empty, ends in a slash, or has no such entries.
   */
  lemma RootNamesItsTreeIff(fs: FileSystem, r: string)
    requires WellNamed(fs)
    ensures NamesItsTree(fs, r) <==> r == "" || EndsInSlash(r) || Barren(fs, r)
  {
    if r == "" || EndsInSlash(r) {
      forall names, d, name, path | Descends(fs, r, names, d) && Lists(fs, d, name, path)
        ensures Components(path) == Components(r) + names + [name]
      {
        ListedBelow(fs, r, names, d, name, path);
      }
    } else if Barren(fs, r) {
      forall names, d, name, path | Descends(fs, r, names, d)
        ensures !Lists(fs, d, name, path)
      {
        NothingBelow(fs, r, names, d);
      }
    } else {
      var name :| HasEntry(fs, r, name, Directory) || HasEntry(fs, r, name, Regular) || HasEntry(fs, r, name, Symlink);
      var path := if HasEntry(fs, r, name, Directory) then r + name + "/" else r + name;
      assert Lists(fs, r, name, path);
      ListedIsNamed(fs, r, name, path);
      NameRunsIntoComponent(r, name);
      assert Descends(fs, r, [], r) && |Components(r) + [] + [name]| == |Components(r)| + 1;
    }
  }

  // ----- What a scan with proper roots delivers -----

  /** What a walk with proper roots has handled lies below a root, under the names of the entries. */
  lemma HandledIsNamed(fs: FileSystem, roots: seq<string>, d: string) returns (r: string, names: seq<string>)
    requires WellNamed(fs) && (forall i :: 0 <= i < |roots| ==> EndsInSlash(roots[i])) && d in WalkAll(fs, roots).visits
    ensures r in roots && Descends(fs, r, names, d) && Components(d) == Components(r) + names
  {
    HandledMeansReachedAndValid(fs, roots, d);
    var root, chain :| root in roots && Chain(fs, root, d, chain);
    r := root;
    names := ChainHasNames(fs, r, d, chain);
    NamesBecomeComponents(fs, r, names, d);
  }

  /** The path in every record of the walk: below a root, under the names of the entries. */
  lemma RecordIsNamed(fs: FileSystem, roots: seq<string>, rec: Record)
      returns (r: string, names: seq<string>, d: string, name: string)
    requires WellNamed(fs) && (forall i :: 0 <= i < |roots| ==> EndsInSlash(roots[i])) && rec in WalkAll(fs, roots).records
    ensures r in roots && Descends(fs, r, names, d) && Lists(fs, d, name, rec.path)
    ensures Components(rec.path) == Components(r) + names + [name]
  {
    WalkRecordsIff(fs, roots, rec);
    var dir, entry :| Reports(fs, dir, entry, rec) && ReachedFrom(fs, roots, dir);
    d, name := dir, entry;
    HandledMeansReachedAndValid(fs, roots, d);
    r, names := HandledIsNamed(fs, roots, d);
    assert Lists(fs, d, name, rec.path);
    ListedBelow(fs, r, names, d, name, rec.path);
  }

  /** In every finished scan whose roots end in a slash, each record delivered is named in this way. */
  lemma DeliveredIsNamed(fs: FileSystem, threads: nat, labels: seq<Label>, rec: Record)
      returns (r: string, names: seq<string>, d: string, name: string)
    requires WellNamed(fs) && CanRun(fs, Init(threads), labels) && !Final(fs, Init(threads), labels).stopped
    requires Final(fs, Init(threads), labels).main.Waited? || Final(fs, Init(threads), labels).main.Destroying?
    requires
      var s := Final(fs, Init(threads), labels);
      (forall i :: 0 <= i < |s.roots| ==> EndsInSlash(s.roots[i])) && rec in s.drained
    ensures
      var s := Final(fs, Init(threads), labels);
      r in s.roots && Descends(fs, r, names, d) && Lists(fs, d, name, rec.path)
    ensures Components(rec.path) == Components(r) + names + [name]
  {
    T.ScanRefinesWalk(fs, threads, labels);
    assert rec in multiset(Final(fs, Init(threads), labels).drained);
    r, names, d, name := RecordIsNamed(fs, Final(fs, Init(threads), labels).roots, rec);
  }

  // ----- A scan that goes astray -----

  /** The directory /a with the subdirectory b, and beside it the directory /ab with an executable. */
  function Neighbours(): FileSystem {
    FileSystem(
      map["/a" := [Entry(".", Directory), Entry("..", Directory), Entry("b", Directory)],
          "/ab/" := [Entry(".", Directory), Entry("..", Directory), Entry("x", Regular)]],
      map["/ab/x" := 2],
      map[])
  }

  const ASTRAY := Record("/ab/x", 4, "to be determined")

  lemma NotSkipped(path: string, prefix: string)
    requires |path| > 1 && |prefix| > 1 && path[1] != prefix[1]
    ensures !StartsWith(path, prefix)
  {
    forall rest: string
      ensures path != prefix + rest
    {
      assert (prefix + rest)[1] == prefix[1];
    }
  }

  lemma NeighbourIsReached()
    ensures ReachedFrom(Neighbours(), ["/a"], "/ab/")
  {
    var entry := Entry("b", Directory);
    assert Neighbours().dirs["/a"][2] == entry;
    assert HasEntry(Neighbours(), "/a", "b", Directory) && "/a" + "b" + "/" == "/ab/";
    assert LeadsTo(Neighbours(), "/a", "/ab/");
    assert Chain(Neighbours(), "/a", "/ab/", ["/a", "/ab/"]);
    NotSkipped("/ab/", "/sys");
    NotSkipped("/ab/", "/proc");
    NotSkipped("/ab/", "/dev");
    NotSkipped("/ab/", "/run");
    NotSkipped("/ab/", "/mnt");
  }

  lemma NeighbourIsReported()
    ensures Reports(Neighbours(), "/ab/", "x", ASTRAY)
  {
    assert Neighbours().dirs["/ab/"][2] == Entry("x", Regular);
    assert "/ab/" + "x" == "/ab/x";
  }

  lemma NeighbourIsRecorded()
    ensures ASTRAY in WalkAll(Neighbours(), ["/a"]).records
  {
    NeighbourIsReached();
    NeighbourIsReported();
    WalkRecordsIff(Neighbours(), ["/a"], ASTRAY);
  }

  /**
   A concrete scan that goes astray: with the root /a, which has a subdirectory b, the scan handles /ab/
   instead of /a/b/, and delivers the executable that lies there, outside the root.
   */
  lemma UnslashedRootGoesAstray(threads: nat) returns (labels: seq<Label>)
    requires threads > 0
    ensures CanRun(Neighbours(), Init(threads), labels)
    ensures
      var s := Final(Neighbours(), Init(threads), labels);
      && s.pool.owner.Destroyed? && !s.stopped && s.roots == ["/a"]
      && ASTRAY in s.drained
  {
    var fs := Neighbours();
    assert Step(fs, Init(threads), AddPath("/a")).value.roots == ["/a"];
    var first := [AddPath("/a")];
    assert first[1..] == [];
    var more := D.EveryRunCanComplete(fs, threads, first);
    C.RunAppend(fs, Init(threads), first, more);
    labels := first + more;
    NeighbourIsRecorded();
    assert ASTRAY in multiset(Final(fs, Init(threads), labels).drained);
  }
}
