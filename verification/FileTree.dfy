/**
 What a scan sees and what it should record: directory listings, ELF headers and symlink targets are
 finite maps on path strings, and Walk is the sequential recursive walk that the concurrent scan of
 Linux/scan_engine/scan_private.cpp has to agree with.
 */
module FileTree {

  datatype EntryKind = Directory | Regular | Symlink | Special

  datatype Entry = Entry(name: string, kind: EntryKind)

  /**
   `dirs` maps the directories that opendir can open to their readdir order; `elf` maps the files
   that check_if_valid_elf accepts to their e_type; `target` maps the symlinks that realpath resolves.
   Nothing is assumed about the three maps.
   */
  datatype FileSystem = FileSystem(
    dirs: map<string, seq<Entry>>,
    elf: map<string, int>,
    target: map<string, string>)

  datatype Record = Record(path: string, kind: int, digest: string)

  const ET_EXEC := 2
  const ET_DYN := 3
  const KIND_DYN := 3
  const KIND_EXE := 4
  const SKIP_PREFIXES := ["/sys", "/proc", "/dev", "/run", "/mnt"]

  function Md5(path: string): string { "to be determined" }

  /** A prefix of a string is what the source's compare(0, size, prefix) == 0 finds. */
  predicate HasPrefix(value: string, prefix: string) {
    |value| >= |prefix| && value[..|prefix|] == prefix
  }

  predicate ValidPath(path: string) {
    forall i :: 0 <= i < |SKIP_PREFIXES| ==> !HasPrefix(path, SKIP_PREFIXES[i])
  }

  // ----- One directory -----

  /** The three output vectors of traverse_dir_. */
  datatype Listing = Listing(dirs: seq<string>, files: seq<string>, links: seq<string>) {
    function Size(): nat { |dirs| + |files| + |links| }
  }

  const NOTHING := Listing([], [], [])

  /** One round of the readdir loop. */
  function Classify(path: string, e: Entry, out: Listing): Listing {
    if e.name == "." || e.name == ".." then out
    else match e.kind
      case Directory => out.(dirs := out.dirs + [path + e.name + "/"])
      case Regular => out.(files := out.files + [path + e.name])
      case Symlink => out.(links := out.links + [path + e.name])
      case Special => out
  }

  /** The output vectors after the first k entries of a directory. */
  function ListEntries(path: string, entries: seq<Entry>): Listing {
    if entries == [] then NOTHING
    else Classify(path, entries[|entries| - 1], ListEntries(path, entries[..|entries| - 1]))
  }

  function ListDir(fs: FileSystem, path: string): Listing {
    if path in fs.dirs then ListEntries(path, fs.dirs[path]) else NOTHING
  }

  /** The switch shared by file_checker and symbol_reloader: `file` is inspected, `path` is recorded. */
  function Detect(fs: FileSystem, file: string, path: string): seq<Record> {
    if file !in fs.elf then []
    else if fs.elf[file] == ET_EXEC then [Record(path, KIND_EXE, Md5(file))]
    else if fs.elf[file] == ET_DYN then [Record(path, KIND_DYN, Md5(file))]
    else []
  }

  function FileRecords(fs: FileSystem, path: string): seq<Record> { Detect(fs, path, path) }

  /** The link's own path is recorded, with the kind and digest of the file it resolves to. */
  function LinkRecords(fs: FileSystem, link: string): seq<Record> {
    if link !in fs.target || !ValidPath(fs.target[link]) then [] else Detect(fs, fs.target[link], link)
  }

  function AllFileRecords(fs: FileSystem, files: seq<string>): seq<Record> {
    if files == [] then [] else FileRecords(fs, files[0]) + AllFileRecords(fs, files[1..])
  }

  function AllLinkRecords(fs: FileSystem, links: seq<string>): seq<Record> {
    if links == [] then [] else LinkRecords(fs, links[0]) + AllLinkRecords(fs, links[1..])
  }

  /** The records one directory adds: its regular files first, then its symlinks. */
  function OwnRecords(fs: FileSystem, out: Listing): seq<Record> {
    AllFileRecords(fs, out.files) + AllLinkRecords(fs, out.links)
  }

  // ----- The sequential walk -----

  /** What a piece of scanning work amounts to: records emitted, directories handled, entries counted. */
  datatype Work = Work(records: multiset<Record>, visits: multiset<string>, entries: nat) {

    function Plus(o: Work): Work { Work(records + o.records, visits + o.visits, entries + o.entries) }

    ghost predicate AtMost(o: Work) { records <= o.records && visits <= o.visits && entries <= o.entries }
  }

  const NO_WORK := Work(multiset{}, multiset{}, 0)

  /** The directories whose path is at least as long: there are fewer of them for a directory's children. */
  ghost function NotShorter(fs: FileSystem, path: string): set<string> {
    set p | p in fs.dirs && |p| >= |path|
  }

  ghost function Rank(fs: FileSystem, path: string): nat { |NotShorter(fs, path)| }

  ghost function MaxRank(fs: FileSystem, paths: seq<string>): nat {
    if paths == [] then 0
    else
      var rest := MaxRank(fs, paths[..|paths| - 1]);
      var last := Rank(fs, paths[|paths| - 1]);
      if rest < last then last else rest
  }

  lemma {:induction false} ChildrenAreLonger(path: string, entries: seq<Entry>)
    ensures forall d :: d in ListEntries(path, entries).dirs ==> |d| > |path|
  {
    if entries != [] {
      ChildrenAreLonger(path, entries[..|entries| - 1]);
    }
  }

  lemma LongerRanksLower(fs: FileSystem, path: string, longer: string)
    requires path in fs.dirs && |longer| > |path|
    ensures Rank(fs, longer) < Rank(fs, path)
  {
    assert path in NotShorter(fs, path) && path !in NotShorter(fs, longer);
    Smaller(NotShorter(fs, longer), NotShorter(fs, path) - {path});
  }

  lemma {:induction false} Smaller<T>(a: set<T>, b: set<T>)
    requires a <= b
    ensures |a| <= |b|
    decreases |a|
  {
    if a != {} {
      var x :| x in a;
      Smaller(a - {x}, b - {x});
    }
  }

  lemma {:induction false} MaxRankBelow(fs: FileSystem, path: string, paths: seq<string>)
    requires path in fs.dirs && forall d :: d in paths ==> |d| > |path|
    ensures MaxRank(fs, paths) < Rank(fs, path)
  {
    if paths == [] {
      assert path in NotShorter(fs, path);
    } else {
      MaxRankBelow(fs, path, paths[..|paths| - 1]);
      LongerRanksLower(fs, path, paths[|paths| - 1]);
    }
  }

  lemma ChildrenRankLower(fs: FileSystem, path: string)
    requires path in fs.dirs
    ensures MaxRank(fs, ListDir(fs, path).dirs) < Rank(fs, path)
  {
    ChildrenAreLonger(path, fs.dirs[path]);
    MaxRankBelow(fs, path, ListDir(fs, path).dirs);
  }

  /** The work of a listing that has been read but not acted on. */
  function Found(fs: FileSystem, out: Listing): Work {
    Work(multiset(OwnRecords(fs, out)), multiset{}, out.Size())
  }

  /** Scanning `path` and, recursively, every subdirectory: a rejected path costs nothing and is not opened. */
  ghost function Walk(fs: FileSystem, path: string): Work
    decreases Rank(fs, path), 1, 0
  {
    if !ValidPath(path) then NO_WORK
    else if path !in fs.dirs then Work(multiset{}, multiset{path}, 0)
    else
      ChildrenRankLower(fs, path);
      Work(multiset{}, multiset{path}, 0).Plus(Found(fs, ListDir(fs, path))).Plus(WalkAll(fs, ListDir(fs, path).dirs))
  }

  ghost function WalkAll(fs: FileSystem, paths: seq<string>): Work
    decreases MaxRank(fs, paths), 2, |paths|
  {
    if paths == [] then NO_WORK
    else WalkAll(fs, paths[..|paths| - 1]).Plus(Walk(fs, paths[|paths| - 1]))
  }
}
