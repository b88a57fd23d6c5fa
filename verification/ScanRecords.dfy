/**
 Which records a finished scan has delivered and how often, said about the file system alone: about
 directory entries, ELF types and symlink targets.
 */
module ScanRecords {
  import opened FileTree
  import opened Listings
  import opened WalkTheorems
  import opened ScanMachine
  import opened ScanTheorems
  import opened ScanResults
  import opened Paths
  import Tokens

  // ----- The records of one file -----

  /** The record says of `file` what its ELF header says: an executable is of kind 4, a shared object of kind 3. */
  ghost predicate Describes(fs: FileSystem, file: string, rec: Record) {
    && file in fs.elf && rec.digest == "to be determined"
    && ((fs.elf[file] == 2 && rec.kind == 4) || (fs.elf[file] == 3 && rec.kind == 3))
  }

  /**
   The entry `name` of directory d is reported by the record: a regular file under its own path and with its
   own kind, a symlink under its own path and with the kind of its target, unless that is in a skipped tree.
   */
  ghost predicate Reports(fs: FileSystem, d: string, name: string, rec: Record) {
    && rec.path == d + name
    && (|| (HasEntry(fs, d, name, Regular) && Describes(fs, d + name, rec))
        || (&& HasEntry(fs, d, name, Symlink) && d + name in fs.target
            && !Skipped(fs.target[d + name]) && Describes(fs, fs.target[d + name], rec)))
  }

  lemma FileRecordIff(fs: FileSystem, file: string, rec: Record)
    ensures rec in FileRecords(fs, file) <==> rec.path == file && Describes(fs, file, rec)
  {
  }

  lemma LinkRecordIff(fs: FileSystem, link: string, rec: Record)
    ensures rec in LinkRecords(fs, link)
       <==> rec.path == link && link in fs.target && !Skipped(fs.target[link]) && Describes(fs, fs.target[link], rec)
  {
    if link in fs.target {
      RejectedMeansSkipped(fs.target[link]);
    }
  }

  lemma {:induction false} FileRecordsIff(fs: FileSystem, files: seq<string>, rec: Record)
    ensures rec in AllFileRecords(fs, files) <==> rec.path in files && rec in FileRecords(fs, rec.path)
  {
    if files != [] {
      FileRecordsIff(fs, files[1..], rec);
      FileRecordIff(fs, files[0], rec);
      assert files == [files[0]] + files[1..];
    }
  }

  lemma {:induction false} LinkRecordsIff(fs: FileSystem, links: seq<string>, rec: Record)
    ensures rec in AllLinkRecords(fs, links) <==> rec.path in links && rec in LinkRecords(fs, rec.path)
  {
    if links != [] {
      LinkRecordsIff(fs, links[1..], rec);
      LinkRecordIff(fs, links[0], rec);
      assert links == [links[0]] + links[1..];
    }
  }

  /** The records of a list of files are those of its first files, then those of its last; duplicates count. */
  lemma {:induction false} FileRecordsInOrder(fs: FileSystem, files: seq<string>, file: string)
    ensures AllFileRecords(fs, []) == []
    ensures AllFileRecords(fs, files + [file]) == AllFileRecords(fs, files) + FileRecords(fs, file)
  {
    if files == [] {
      assert [] + [file] == [file] && [file][1..] == [];
    } else {
      assert (files + [file])[1..] == files[1..] + [file];
      FileRecordsInOrder(fs, files[1..], file);
    }
  }

  lemma {:induction false} LinkRecordsInOrder(fs: FileSystem, links: seq<string>, link: string)
    ensures AllLinkRecords(fs, []) == []
    ensures AllLinkRecords(fs, links + [link]) == AllLinkRecords(fs, links) + LinkRecords(fs, link)
  {
    if links == [] {
      assert [] + [link] == [link] && [link][1..] == [];
    } else {
      assert (links + [link])[1..] == links[1..] + [link];
      LinkRecordsInOrder(fs, links[1..], link);
    }
  }

  // ----- The records of one directory -----

  /** A directory adds exactly the records that its entries call for. */
  lemma OwnRecordsIff(fs: FileSystem, d: string, rec: Record)
    ensures rec in OwnRecords(fs, ListDir(fs, d)) <==> exists name :: Reports(fs, d, name, rec)
  {
    var out := ListDir(fs, d);
    FileRecordsIff(fs, out.files, rec);
    LinkRecordsIff(fs, out.links, rec);
    FileRecordIff(fs, rec.path, rec);
    LinkRecordIff(fs, rec.path, rec);
    FileIsListedIff(fs, d, rec.path);
    LinkIsListedIff(fs, d, rec.path);
    if rec in OwnRecords(fs, out) {
      var name := OwnRecordHasEntry(fs, d, rec);
    }
    if exists name :: Reports(fs, d, name, rec) {
      var name :| Reports(fs, d, name, rec);
      assert rec in AllFileRecords(fs, out.files) || rec in AllLinkRecords(fs, out.links);
    }
  }

  lemma OwnRecordHasEntry(fs: FileSystem, d: string, rec: Record) returns (name: string)
    requires rec in OwnRecords(fs, ListDir(fs, d))
    ensures Reports(fs, d, name, rec)
  {
    var out := ListDir(fs, d);
    FileRecordsIff(fs, out.files, rec);
    LinkRecordsIff(fs, out.links, rec);
    if rec in AllFileRecords(fs, out.files) {
      FileRecordIff(fs, rec.path, rec);
      FileIsListedIff(fs, d, rec.path);
      name :| HasEntry(fs, d, name, Regular) && rec.path == d + name;
    } else {
      LinkRecordIff(fs, rec.path, rec);
      LinkIsListedIff(fs, d, rec.path);
      name :| HasEntry(fs, d, name, Symlink) && rec.path == d + name;
    }
  }

  lemma {:induction false} RecordsOfIff(fs: FileSystem, dirs: seq<string>, rec: Record)
    ensures rec in RecordsOf(fs, dirs) <==> exists d :: d in dirs && rec in OwnRecords(fs, ListDir(fs, d))
  {
    if dirs != [] {
      RecordsOfIff(fs, dirs[1..], rec);
      assert dirs == [dirs[0]] + dirs[1..];
    }
  }

  // ----- Which records are delivered -----

  /** From one of the roots a directory is reached that is not skipped and has an entry reported by the record. */
  ghost predicate CalledFor(fs: FileSystem, roots: seq<string>, rec: Record) {
    exists d, name :: Reports(fs, d, name, rec) && ReachedFrom(fs, roots, d)
  }

  ghost predicate ReachedFrom(fs: FileSystem, roots: seq<string>, d: string) {
    !Skipped(d) && exists r, chain :: r in roots && Chain(fs, r, d, chain)
  }

  lemma WalkRecordsIff(fs: FileSystem, roots: seq<string>, rec: Record)
    ensures rec in WalkAll(fs, roots).records <==> CalledFor(fs, roots, rec)
  {
    var dirs := PreorderAll(fs, roots);
    WalkAllAccountsForPreorder(fs, roots);
    RecordsOfIff(fs, dirs, rec);
    forall d
      ensures d in dirs <==> ReachedFrom(fs, roots, d)
      ensures rec in OwnRecords(fs, ListDir(fs, d)) <==> exists name :: Reports(fs, d, name, rec)
    {
      HandledMeansReachedAndValid(fs, roots, d);
      assert d in dirs <==> d in multiset(dirs);
      OwnRecordsIff(fs, d, rec);
    }
    assert rec in WalkAll(fs, roots).records <==> rec in RecordsOf(fs, dirs);
  }

  /**
   When wait() returns and nobody has called stop(), a record has been delivered if and only if it reports an
   entry of a directory that is reached from a root and not skipped.  Nothing is assumed about the file system.
   */
  lemma DeliveredIff(fs: FileSystem, threads: nat, labels: seq<Label>, rec: Record)
    requires CanRun(fs, Init(threads), labels) && !Final(fs, Init(threads), labels).stopped
    requires Final(fs, Init(threads), labels).main.Waited? || Final(fs, Init(threads), labels).main.Destroying?
    ensures
      var s := Final(fs, Init(threads), labels);
      rec in s.drained <==> CalledFor(fs, s.roots, rec)
  {
    var s := Final(fs, Init(threads), labels);
    ScanRefinesWalk(fs, threads, labels);
    WalkRecordsIff(fs, s.roots, rec);
    assert rec in s.drained <==> rec in multiset(s.drained);
  }

  // ----- How often a record is delivered -----

  ghost predicate Distinct(paths: seq<string>) {
    forall j, k :: 0 <= j < k < |paths| ==> paths[j] != paths[k]
  }

  lemma CollectedAreDistinct(path: string, entries: seq<Entry>, kind: EntryKind, suffix: string, out: seq<string>)
    requires ProperNames(entries) && Collects(path, entries, kind, suffix, out)
    ensures Distinct(out)
  {
    var from :| Places(entries, kind, from) && PathsAt(path, entries, from, suffix, out);
    forall j, k | 0 <= j < k < |out|
      ensures out[j] != out[k]
    {
      var a, b := TwoPlaces(path, entries, kind, suffix, out, from, j, k);
      NamesInPaths(path, entries[a].name, entries[b].name, suffix);
    }
  }

  lemma TwoPlaces(path: string, entries: seq<Entry>, kind: EntryKind, suffix: string, out: seq<string>, from: seq<nat>, j: nat, k: nat)
      returns (a: nat, b: nat)
    requires Places(entries, kind, from) && PathsAt(path, entries, from, suffix, out) && j < k < |out|
    ensures a < b < |entries| && out[j] == path + entries[a].name + suffix && out[k] == path + entries[b].name + suffix
  {
    a, b := from[j], from[k];
  }

  lemma NamesInPaths(path: string, a: string, b: string, suffix: string)
    requires a != b
    ensures path + a + suffix != path + b + suffix
  {
    if |a| == |b| {
      var i :| 0 <= i < |a| && a[i] != b[i];
      assert (path + a + suffix)[|path| + i] == a[i] && (path + b + suffix)[|path| + i] == b[i];
    }
  }

  lemma {:induction false} FileRecordedOnce(fs: FileSystem, files: seq<string>, rec: Record)
    requires Distinct(files)
    ensures multiset(AllFileRecords(fs, files))[rec] <= 1
  {
    if files != [] {
      FileRecordedOnce(fs, files[1..], rec);
      FileRecordIff(fs, files[0], rec);
      FileRecordsIff(fs, files[1..], rec);
    }
  }

  lemma {:induction false} LinkRecordedOnce(fs: FileSystem, links: seq<string>, rec: Record)
    requires Distinct(links)
    ensures multiset(AllLinkRecords(fs, links))[rec] <= 1
  {
    if links != [] {
      LinkRecordedOnce(fs, links[1..], rec);
      LinkRecordIff(fs, links[0], rec);
      LinkRecordsIff(fs, links[1..], rec);
    }
  }

  lemma OneKind(entries: seq<Entry>, name: string, a: EntryKind, b: EntryKind)
    ensures ProperNames(entries) && Entry(name, a) in entries && Entry(name, b) in entries ==> a == b
  {
    forall i, j | 0 <= i < |entries| && 0 <= j < |entries| && entries[i] == Entry(name, a) && entries[j] == Entry(name, b)
      ensures ProperNames(entries) ==> a == b
    {
      assert entries[i].name == entries[j].name;
    }
  }

  /** With distinct names no path is both a file and a symlink. */
  lemma FileIsNoLink(fs: FileSystem, d: string, p: string)
    requires Proper(fs)
    ensures p !in ListDir(fs, d).files || p !in ListDir(fs, d).links
  {
    FileIsListedIff(fs, d, p);
    LinkIsListedIff(fs, d, p);
    forall a, b | HasEntry(fs, d, a, Regular) && HasEntry(fs, d, b, Symlink)
      ensures d + a != d + b
    {
      OneKind(fs.dirs[d], a, Regular, Symlink);
      NamesInPaths(d, a, b, "");
      assert d + a + "" == d + a && d + b + "" == d + b;
    }
  }

  lemma RecordedOnce(fs: FileSystem, d: string, rec: Record)
    requires Proper(fs)
    ensures multiset(OwnRecords(fs, ListDir(fs, d)))[rec] <= 1
  {
    var out := ListDir(fs, d);
    if d in fs.dirs {
      ListingOf(fs, d);
      CollectedAreDistinct(d, fs.dirs[d], Regular, "", out.files);
      CollectedAreDistinct(d, fs.dirs[d], Symlink, "", out.links);
    }
    FileRecordedOnce(fs, out.files, rec);
    LinkRecordedOnce(fs, out.links, rec);
    FileRecordsIff(fs, out.files, rec);
    LinkRecordsIff(fs, out.links, rec);
    FileIsNoLink(fs, d, rec.path);
  }

  /** If only directory d has the record, it is recorded once for each time that d is handled. */
  lemma {:induction false} RecordsOfCount(fs: FileSystem, dirs: seq<string>, d: string, rec: Record)
    requires multiset(OwnRecords(fs, ListDir(fs, d)))[rec] == 1
    requires forall e :: e in dirs && e != d ==> rec !in OwnRecords(fs, ListDir(fs, e))
    ensures multiset(RecordsOf(fs, dirs))[rec] == multiset(dirs)[d]
  {
    if dirs != [] {
      RecordsOfCount(fs, dirs[1..], d, rec);
      assert dirs == [dirs[0]] + dirs[1..];
      assert dirs[0] in dirs;
    }
  }

  lemma {:induction false} ChainEndsInSlash(fs: FileSystem, r: string, d: string, chain: seq<string>)
    requires Chain(fs, r, d, chain) && (r == "" || EndsInSlash(r))
    ensures d == "" || EndsInSlash(d)
  {
    var last := |chain| - 1;
    if last > 0 {
      assert LeadsTo(fs, chain[last - 1], chain[last - 1 + 1]);
    }
  }

  /** A path belongs to one directory only, the part of it up to its last slash. */
  lemma OneDirectory(fs: FileSystem, d: string, name: string, e: string, other: string, rec: Record)
    requires Proper(fs) && Reports(fs, d, name, rec) && Reports(fs, e, other, rec)
    requires (d == "" || EndsInSlash(d)) && (e == "" || EndsInSlash(e))
    ensures d == e
  {
    NameIsClean(fs, d, name, rec);
    NameIsClean(fs, e, other, rec);
    assert rec.path[|d|..] == name && rec.path[|e|..] == other;
    TrimNameUnique(rec.path, d);
    TrimNameUnique(rec.path, e);
  }

  lemma NameIsClean(fs: FileSystem, d: string, name: string, rec: Record)
    requires Proper(fs) && Reports(fs, d, name, rec)
    ensures Tokens.Clean(name, SLASH)
  {
    var i :| 0 <= i < |fs.dirs[d]| && fs.dirs[d][i].name == name;
    assert ProperNames(fs.dirs[d]) && '/' !in fs.dirs[d][i].name;
  }

  ghost predicate AllSlashed(roots: seq<string>) {
    forall i :: 0 <= i < |roots| ==> roots[i] == "" || EndsInSlash(roots[i])
  }

  lemma HandledEndsInSlash(fs: FileSystem, roots: seq<string>, d: string)
    requires AllSlashed(roots) && d in PreorderAll(fs, roots)
    ensures d == "" || EndsInSlash(d)
  {
    WalkAllAccountsForPreorder(fs, roots);
    assert d in multiset(PreorderAll(fs, roots));
    HandledMeansReachedAndValid(fs, roots, d);
    var r, chain :| r in roots && Chain(fs, r, d, chain);
    ChainEndsInSlash(fs, r, d, chain);
  }

  /** The walk records an entry as often as it handles its directory. */
  lemma RecordedAsOftenAsHandled(fs: FileSystem, roots: seq<string>, d: string, name: string, rec: Record)
    requires Proper(fs) && AllSlashed(roots) && Reports(fs, d, name, rec) && (d == "" || EndsInSlash(d))
    ensures WalkAll(fs, roots).records[rec] == WalkAll(fs, roots).visits[d]
  {
    var dirs := PreorderAll(fs, roots);
    WalkAllAccountsForPreorder(fs, roots);
    OwnRecordsIff(fs, d, rec);
    RecordedOnce(fs, d, rec);
    forall e | e in dirs && e != d
      ensures rec !in OwnRecords(fs, ListDir(fs, e))
    {
      if rec in OwnRecords(fs, ListDir(fs, e)) {
        HandledEndsInSlash(fs, roots, e);
        var other := OwnRecordHasEntry(fs, e, rec);
        OneDirectory(fs, d, name, e, other, rec);
        assert false;
      }
    }
    RecordsOfCount(fs, dirs, d, rec);
  }

  /**
   When wait() returns and nobody has called stop(), an executable, shared object or symlink has been delivered
   exactly once for each root from which its directory is reached, and never if the directory is skipped.
   */
  lemma DeliveredOncePerRoot(fs: FileSystem, threads: nat, labels: seq<Label>, d: string, name: string, rec: Record)
    requires Proper(fs) && CanRun(fs, Init(threads), labels) && !Final(fs, Init(threads), labels).stopped
    requires Final(fs, Init(threads), labels).main.Waited? || Final(fs, Init(threads), labels).main.Destroying?
    requires AllSlashed(Final(fs, Init(threads), labels).roots)
    requires Reports(fs, d, name, rec) && (d == "" || EndsInSlash(d))
    ensures
      var s := Final(fs, Init(threads), labels);
      multiset(s.drained)[rec] == if Skipped(d) then 0 else RootsReaching(fs, s.roots, d)
  {
    var s := Final(fs, Init(threads), labels);
    ScanRefinesWalk(fs, threads, labels);
    FinishedScanHandledEachOnce(fs, threads, labels, d);
    RecordedAsOftenAsHandled(fs, s.roots, d, name, rec);
  }
}
