/**
 What one directory contributes to a scan, said about its entries themselves: which of them
 traverse_dir_ takes, which paths it makes of them, and which paths valid_path rejects.
 */
module Listings {
  import opened FileTree

  // ----- hasPrefix and valid_path -----

  /** A value has a prefix exactly if it is the prefix followed by something. */
  lemma HasPrefixMeans(value: string, prefix: string)
    ensures HasPrefix(value, prefix) <==> exists rest :: value == prefix + rest
  {
    if HasPrefix(value, prefix) {
      assert value == prefix + value[|prefix|..];
    }
    if exists rest :: value == prefix + rest {
      var rest :| value == prefix + rest;
      assert (prefix + rest)[..|prefix|] == prefix;
    }
  }

  ghost predicate StartsWith(path: string, prefix: string) {
    exists rest :: path == prefix + rest
  }

  /** The path begins, as a string, with the name of one of the five trees that are not scanned. */
  ghost predicate Skipped(path: string) {
    || StartsWith(path, "/sys")
    || StartsWith(path, "/proc")
    || StartsWith(path, "/dev")
    || StartsWith(path, "/run")
    || StartsWith(path, "/mnt")
  }

  /** valid_path rejects exactly the paths that begin with one of the five names. */
  lemma RejectedMeansSkipped(path: string)
    ensures !ValidPath(path) <==> Skipped(path)
  {
    forall i | 0 <= i < |SKIP_PREFIXES|
      ensures HasPrefix(path, SKIP_PREFIXES[i]) <==> StartsWith(path, SKIP_PREFIXES[i])
    {
      HasPrefixMeans(path, SKIP_PREFIXES[i]);
    }
    assert SKIP_PREFIXES[0] == "/sys" && SKIP_PREFIXES[1] == "/proc" && SKIP_PREFIXES[2] == "/dev";
    assert SKIP_PREFIXES[3] == "/run" && SKIP_PREFIXES[4] == "/mnt";
  }

  /** Everything below such a path is rejected. */
  lemma RejectedBelow(path: string, below: string)
    requires Skipped(path) && path <= below
    ensures !ValidPath(below) && Skipped(below)
  {
    SkippedBelow(path, below);
    RejectedMeansSkipped(below);
  }

  lemma StartsBelow(path: string, below: string, prefix: string)
    requires StartsWith(path, prefix) && path <= below
    ensures StartsWith(below, prefix)
  {
    var rest :| path == prefix + rest;
    assert below == prefix + (rest + below[|path|..]);
  }

  lemma SkippedBelow(path: string, below: string)
    requires Skipped(path) && path <= below
    ensures Skipped(below)
  {
    if StartsWith(path, "/sys") {
      StartsBelow(path, below, "/sys");
    } else if StartsWith(path, "/proc") {
      StartsBelow(path, below, "/proc");
    } else if StartsWith(path, "/dev") {
      StartsBelow(path, below, "/dev");
    } else if StartsWith(path, "/run") {
      StartsBelow(path, below, "/run");
    } else {
      StartsBelow(path, below, "/mnt");
    }
  }

  // ----- The entries of a directory -----

  /** Every entry but the directory itself and its parent is of interest, if it is of the kind asked for. */
  predicate Counts(e: Entry, kind: EntryKind) {
    e.kind == kind && e.name != "." && e.name != ".."
  }

  /** `from` holds the positions of the entries of that kind, in order. */
  ghost predicate Places(entries: seq<Entry>, kind: EntryKind, from: seq<nat>) {
    && (forall k :: 0 <= k < |from| ==> from[k] < |entries| && Counts(entries[from[k]], kind))
    && (forall j, k :: 0 <= j < k < |from| ==> from[j] < from[k])
    && (forall i :: 0 <= i < |entries| && Counts(entries[i], kind) ==> i in from)
  }

  /** `out` holds, for each of these positions, the path of the directory followed by the name there and the suffix. */
  ghost predicate PathsAt(path: string, entries: seq<Entry>, from: seq<nat>, suffix: string, out: seq<string>) {
    |out| == |from| && forall k :: 0 <= k < |from| ==> from[k] < |entries| && out[k] == path + entries[from[k]].name + suffix
  }

  /** `out` is the list of the paths of the entries of one kind, each once and in the order of the entries. */
  ghost predicate Collects(path: string, entries: seq<Entry>, kind: EntryKind, suffix: string, out: seq<string>) {
    exists from :: Places(entries, kind, from) && PathsAt(path, entries, from, suffix, out)
  }

  /** The three vectors are the three kinds of entries, sorted out; a directory's path gets a slash. */
  ghost predicate SortedOut(path: string, entries: seq<Entry>, out: Listing) {
    && Collects(path, entries, Directory, "/", out.dirs)
    && Collects(path, entries, Regular, "", out.files)
    && Collects(path, entries, Symlink, "", out.links)
  }

  lemma CollectsNothing(path: string, kind: EntryKind, suffix: string)
    ensures Collects(path, [], kind, suffix, [])
  {
    assert Places([], kind, []) && PathsAt(path, [], [], suffix, []);
  }

  lemma PlacesTake(entries: seq<Entry>, kind: EntryKind, from: seq<nat>)
    requires entries != [] && Places(entries[..|entries| - 1], kind, from) && Counts(entries[|entries| - 1], kind)
    ensures Places(entries, kind, from + [|entries| - 1])
  {
    var front := entries[..|entries| - 1];
    forall i | 0 <= i < |entries| && Counts(entries[i], kind)
      ensures i in from + [|entries| - 1]
    {
      if i < |front| {
        assert front[i] == entries[i];
      }
    }
  }

  lemma PlacesPass(entries: seq<Entry>, kind: EntryKind, from: seq<nat>)
    requires entries != [] && Places(entries[..|entries| - 1], kind, from) && !Counts(entries[|entries| - 1], kind)
    ensures Places(entries, kind, from)
  {
    var front := entries[..|entries| - 1];
    forall i | 0 <= i < |entries| && Counts(entries[i], kind)
      ensures i in from
    {
      assert front[i] == entries[i];
    }
  }

  lemma PathsPass(path: string, entries: seq<Entry>, from: seq<nat>, suffix: string, out: seq<string>)
    requires entries != [] && PathsAt(path, entries[..|entries| - 1], from, suffix, out)
    ensures PathsAt(path, entries, from, suffix, out)
  {
  }

  lemma PathsTake(path: string, entries: seq<Entry>, from: seq<nat>, suffix: string, out: seq<string>)
    requires entries != [] && PathsAt(path, entries, from, suffix, out)
    ensures PathsAt(path, entries, from + [|entries| - 1], suffix, out + [path + entries[|entries| - 1].name + suffix])
  {
  }

  /** One more entry: its path is added if it is of the kind asked for. */
  lemma CollectsOneMore(path: string, entries: seq<Entry>, kind: EntryKind, suffix: string, out: seq<string>)
    requires entries != [] && Collects(path, entries[..|entries| - 1], kind, suffix, out)
    ensures
      var e := entries[|entries| - 1];
      Collects(path, entries, kind, suffix, if Counts(e, kind) then out + [path + e.name + suffix] else out)
  {
    var front, last := entries[..|entries| - 1], |entries| - 1;
    var from :| Places(front, kind, from) && PathsAt(path, front, from, suffix, out);
    PathsPass(path, entries, from, suffix, out);
    if Counts(entries[last], kind) {
      PlacesTake(entries, kind, from);
      PathsTake(path, entries, from, suffix, out);
    } else {
      PlacesPass(entries, kind, from);
    }
  }

  /** What the readdir loop has collected after any number of entries. */
  lemma {:induction false} ListingIsSortedOut(path: string, entries: seq<Entry>)
    ensures SortedOut(path, entries, ListEntries(path, entries))
  {
    if entries == [] {
      CollectsNothing(path, Directory, "/");
      CollectsNothing(path, Regular, "");
      CollectsNothing(path, Symlink, "");
    } else {
      var front, name := entries[..|entries| - 1], entries[|entries| - 1].name;
      var out := ListEntries(path, front);
      ListingIsSortedOut(path, front);
      assert path + name + "" == path + name;
      CollectsOneMore(path, entries, Directory, "/", out.dirs);
      CollectsOneMore(path, entries, Regular, "", out.files);
      CollectsOneMore(path, entries, Symlink, "", out.links);
    }
  }

  // ----- What is listed -----

  /** The directory can be opened and has an entry of that name and kind, other than itself and its parent. */
  ghost predicate HasEntry(fs: FileSystem, d: string, name: string, kind: EntryKind) {
    d in fs.dirs && Entry(name, kind) in fs.dirs[d] && name != "." && name != ".."
  }

  lemma CollectedIsEntry(path: string, entries: seq<Entry>, kind: EntryKind, suffix: string, out: seq<string>, p: string)
      returns (name: string)
    requires Collects(path, entries, kind, suffix, out) && p in out
    ensures Entry(name, kind) in entries && name != "." && name != ".." && p == path + name + suffix
  {
    var from :| Places(entries, kind, from) && PathsAt(path, entries, from, suffix, out);
    var k :| 0 <= k < |out| && out[k] == p;
    name := entries[from[k]].name;
    assert entries[from[k]] == Entry(name, kind);
  }

  lemma EntryIsCollected(path: string, entries: seq<Entry>, kind: EntryKind, suffix: string, out: seq<string>, name: string)
    requires Collects(path, entries, kind, suffix, out) && Entry(name, kind) in entries && name != "." && name != ".."
    ensures path + name + suffix in out
  {
    var from :| Places(entries, kind, from) && PathsAt(path, entries, from, suffix, out);
    var i :| 0 <= i < |entries| && entries[i] == Entry(name, kind);
    assert Counts(entries[i], kind);
    var k :| 0 <= k < |from| && from[k] == i;
    assert out[k] == path + name + suffix;
  }

  lemma ListingOf(fs: FileSystem, d: string)
    requires d in fs.dirs
    ensures SortedOut(d, fs.dirs[d], ListDir(fs, d))
  {
    ListingIsSortedOut(d, fs.dirs[d]);
  }

  /** A subdirectory is listed exactly if the directory has an entry for it. */
  lemma DirIsListedIff(fs: FileSystem, d: string, p: string)
    ensures p in ListDir(fs, d).dirs <==> exists name :: HasEntry(fs, d, name, Directory) && p == d + name + "/"
  {
    if p in ListDir(fs, d).dirs {
      ListingOf(fs, d);
      var name := CollectedIsEntry(d, fs.dirs[d], Directory, "/", ListDir(fs, d).dirs, p);
      assert HasEntry(fs, d, name, Directory);
    }
    if exists name :: HasEntry(fs, d, name, Directory) && p == d + name + "/" {
      var name :| HasEntry(fs, d, name, Directory) && p == d + name + "/";
      ListingOf(fs, d);
      EntryIsCollected(d, fs.dirs[d], Directory, "/", ListDir(fs, d).dirs, name);
    }
  }

  /** So is a regular file ... */
  lemma FileIsListedIff(fs: FileSystem, d: string, p: string)
    ensures p in ListDir(fs, d).files <==> exists name :: HasEntry(fs, d, name, Regular) && p == d + name
  {
    if p in ListDir(fs, d).files {
      ListingOf(fs, d);
      var name := CollectedIsEntry(d, fs.dirs[d], Regular, "", ListDir(fs, d).files, p);
      assert HasEntry(fs, d, name, Regular) && d + name + "" == d + name;
    }
    if exists name :: HasEntry(fs, d, name, Regular) && p == d + name {
      var name :| HasEntry(fs, d, name, Regular) && p == d + name;
      ListingOf(fs, d);
      EntryIsCollected(d, fs.dirs[d], Regular, "", ListDir(fs, d).files, name);
      assert d + name + "" == d + name;
    }
  }

  /** ... and a symlink. */
  lemma LinkIsListedIff(fs: FileSystem, d: string, p: string)
    ensures p in ListDir(fs, d).links <==> exists name :: HasEntry(fs, d, name, Symlink) && p == d + name
  {
    if p in ListDir(fs, d).links {
      ListingOf(fs, d);
      var name := CollectedIsEntry(d, fs.dirs[d], Symlink, "", ListDir(fs, d).links, p);
      assert HasEntry(fs, d, name, Symlink) && d + name + "" == d + name;
    }
    if exists name :: HasEntry(fs, d, name, Symlink) && p == d + name {
      var name :| HasEntry(fs, d, name, Symlink) && p == d + name;
      ListingOf(fs, d);
      EntryIsCollected(d, fs.dirs[d], Symlink, "", ListDir(fs, d).links, name);
      assert d + name + "" == d + name;
    }
  }

  /** What a task finds by itself: nothing in a skipped tree, and all of the directory otherwise. */
  ghost function Yields(fs: FileSystem, path: string): (out: Listing)
    ensures Skipped(path) || path !in fs.dirs ==> out == Listing([], [], [])
  {
    if Skipped(path) then Listing([], [], []) else ListDir(fs, path)
  }

  lemma YieldsSortedOut(fs: FileSystem, path: string)
    ensures !Skipped(path) && path in fs.dirs ==> SortedOut(path, fs.dirs[path], Yields(fs, path))
  {
    if path in fs.dirs {
      ListingOf(fs, path);
    }
  }

  // ----- How much is counted -----

  predicate Countable(e: Entry) {
    e.name != "." && e.name != ".." && (e.kind == Directory || e.kind == Regular || e.kind == Symlink)
  }

  /** The positions of the entries that file_counts_ counts. */
  ghost function CountedAmong(entries: seq<Entry>): set<nat> {
    set i: nat | i < |entries| && Countable(entries[i])
  }

  ghost function Counted(fs: FileSystem, d: string): set<nat> {
    if d in fs.dirs then CountedAmong(fs.dirs[d]) else {}
  }

  lemma CountOneMore(entries: seq<Entry>)
    requires entries != []
    ensures
      |CountedAmong(entries)|
      == |CountedAmong(entries[..|entries| - 1])| + if Countable(entries[|entries| - 1]) then 1 else 0
  {
    var front, last := entries[..|entries| - 1], |entries| - 1;
    forall i: nat
      ensures i in CountedAmong(front) <==> i in CountedAmong(entries) && i != last
    {
    }
    if Countable(entries[last]) {
      assert CountedAmong(entries) == CountedAmong(front) + {last} && last !in CountedAmong(front);
    } else {
      assert CountedAmong(entries) == CountedAmong(front);
    }
  }

  lemma {:induction false} ListSizeIsCounted(path: string, entries: seq<Entry>)
    ensures ListEntries(path, entries).Size() == |CountedAmong(entries)|
  {
    if entries == [] {
      assert CountedAmong(entries) == {};
    } else {
      var front, last := entries[..|entries| - 1], |entries| - 1;
      ListSizeIsCounted(path, front);
      CountOneMore(entries);
    }
  }

  /** A listing has as many paths as the directory has entries to be counted. */
  lemma SizeIsCounted(fs: FileSystem, d: string)
    ensures ListDir(fs, d).Size() == |Counted(fs, d)|
  {
    if d in fs.dirs {
      ListSizeIsCounted(d, fs.dirs[d]);
    }
  }
}
