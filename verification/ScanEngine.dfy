/**
 The scan_private object of Linux/scan_engine/scan_private.cpp: what each of its methods does when no
 other thread runs in between.  ScanMachine interleaves the same statements; the functions of FileTree
 that the contracts below use are the ones its steps use.
 */
module ScanEngine {
  import opened FileTree
  import opened Listings
  import opened ScanAlone
  import opened ThreadObject
  import opened ThreadPoolObject
  import M = ScanMachine
  import Cost = ScanMeasure
  import Pool = PoolMachine

  class ScanEngine {
    const fs: FileSystem
    const taskPool: ThreadPool<string>
    const recorder: Thread
    const notifier: Thread
    var running: bool
    var unscannedDirs: seq<string>
    var fileInfos: seq<Record>
    var fileCounts: int

    constructor (fs: FileSystem, hint: nat, hardware: nat)
      ensures this.fs == fs && fresh(taskPool) && taskPool.Valid() && taskPool.pushed == []
      ensures taskPool.View() == Pool.Shared(true, false, false, [], 0)
      ensures taskPool.threadCount == DetermineThreadCount(hint, hardware)
      ensures fresh(recorder) && fresh(notifier) && recorder != notifier && !recorder.joinable && !notifier.joinable
      ensures !recorder.stopRequest && !notifier.stopRequest
      ensures !running && unscannedDirs == [] && fileInfos == [] && fileCounts == 0
    {
      this.fs := fs;
      recorder := new Thread();
      notifier := new Thread();
      taskPool := new ThreadPool(hint, hardware);
      running, unscannedDirs, fileInfos, fileCounts := false, [], [], 0;
    }

    method SetPath(path: string)
      modifies this`unscannedDirs
      ensures unscannedDirs == old(unscannedDirs) + [path]
    {
      unscannedDirs := unscannedDirs + [path];
    }

    /** A worker that looks for a task now takes the oldest one and scans it. */
    predicate Ready()
      reads this, taskPool
    {
      running && taskPool.running && !taskPool.paused
    }

    /**
     Every path added so far becomes one task, in the order of the additions; then the recorder and the
     notifier are started.  A second launch before wait() ends the program.
     */
    method Launch() returns (terminated: bool)
      requires taskPool.Valid() && recorder != notifier
      modifies this`running, this`fileCounts, taskPool, recorder, notifier
      ensures terminated <==> old(recorder.joinable) || old(notifier.joinable)
      ensures recorder.joinable && notifier.joinable && !recorder.stopRequest && !notifier.stopRequest
      ensures taskPool.Valid() && running && fileCounts == M.Wrap(|unscannedDirs|)
      ensures taskPool.View()
           == old(taskPool.View()).(tasks := old(taskPool.tasks) + unscannedDirs, total := old(taskPool.total) + |unscannedDirs|)
      ensures taskPool.pushed == old(taskPool.pushed) + unscannedDirs && taskPool.started == old(taskPool.started)
      ensures taskPool.finished == old(taskPool.finished) && taskPool.active == old(taskPool.active)
      ensures old(taskPool.running) && !old(taskPool.paused) ==> Ready()
    {
      running := true;
      fileCounts := M.Wrap(|unscannedDirs|);
      for i := 0 to |unscannedDirs|
        invariant running && fileCounts == M.Wrap(|unscannedDirs|)
        invariant recorder.joinable == old(recorder.joinable) && notifier.joinable == old(notifier.joinable)
        invariant taskPool.Valid()
        invariant taskPool.View() == old(taskPool.View()).(tasks := old(taskPool.tasks) + unscannedDirs[..i], total := old(taskPool.total) + i)
        invariant taskPool.pushed == old(taskPool.pushed) + unscannedDirs[..i] && taskPool.started == old(taskPool.started)
        invariant taskPool.finished == old(taskPool.finished) && taskPool.active == old(taskPool.active)
      {
        taskPool.PushTask(unscannedDirs[i]);
        assert unscannedDirs[..i + 1] == unscannedDirs[..i] + [unscannedDirs[i]];
      }
      assert unscannedDirs[..|unscannedDirs|] == unscannedDirs;
      var recorderLost := recorder.Start();
      var notifierLost := notifier.Start();
      terminated := recorderLost || notifierLost;
    }

    /** Returns once the notifier and the recorder have ended. */
    method Wait()
      modifies recorder, notifier
      ensures !recorder.joinable && !notifier.joinable && !recorder.stopRequest && !notifier.stopRequest
    {
      notifier.Wait();
      recorder.Wait();
    }

    method Stop()
      modifies this`running, taskPool`paused
      ensures !running && taskPool.paused
    {
      running := false;
      taskPool.Pause();
    }

    /** The scan is over exactly when nothing is queued and no task is in flight. */
    method IsScanOver() returns (over: bool)
      requires taskPool.Valid()
      ensures over <==> taskPool.tasks == [] && taskPool.active == multiset{}
    {
      var n := taskPool.GetTasksCount();
      over := n == 0;
      assert |taskPool.active| == 0 <==> taskPool.active == multiset{};
    }

    /**
     The readdir loop.  `stopAt` is the number of entries after which running_ is first read as false
     because another thread has cleared it.
     */
    method TraverseDir(path: string, stopAt: nat) returns (dirs: seq<string>, files: seq<string>, links: seq<string>)
      ensures path !in fs.dirs ==> dirs == [] && files == [] && links == []
      ensures path in fs.dirs && stopAt < |fs.dirs[path]| ==> SortedOut(path, fs.dirs[path][..stopAt], Listing(dirs, files, links))
      ensures path in fs.dirs && stopAt >= |fs.dirs[path]| ==> SortedOut(path, fs.dirs[path], Listing(dirs, files, links))
      ensures path in fs.dirs ==>
        Listing(dirs, files, links)
        == ListEntries(path, fs.dirs[path][..if stopAt < |fs.dirs[path]| then stopAt else |fs.dirs[path]|])
    {
      dirs, files, links := [], [], [];
      if path !in fs.dirs {
        return;
      }
      var entries := fs.dirs[path];
      var next := 0;
      while next < |entries| && next < stopAt
        invariant next <= |entries| && (next <= stopAt)
        invariant Listing(dirs, files, links) == ListEntries(path, entries[..next])
      {
        var e := entries[next];
        assert entries[..next + 1][..next] == entries[..next];
        if e.name != "." && e.name != ".." {
          var fullPath := path + e.name;
          match e.kind {
            case Directory => dirs := dirs + [fullPath + "/"];
            case Regular => files := files + [fullPath];
            case Symlink => links := links + [fullPath];
            case Special =>
          }
        }
        next := next + 1;
      }
      ListingIsSortedOut(path, entries[..next]);
      assert next == |entries| ==> entries[..next] == entries;
    }

    method FileChecker(path: string)
      modifies this`fileInfos
      ensures path in fs.elf && fs.elf[path] == 2 ==> fileInfos == old(fileInfos) + [Record(path, 4, "to be determined")]
      ensures path in fs.elf && fs.elf[path] == 3 ==> fileInfos == old(fileInfos) + [Record(path, 3, "to be determined")]
      ensures path !in fs.elf || fs.elf[path] !in {2, 3} ==> fileInfos == old(fileInfos)
      ensures fileInfos == old(fileInfos) + FileRecords(fs, path)
    {
      if path in fs.elf {
        if fs.elf[path] == ET_EXEC {
          fileInfos := fileInfos + [Record(path, KIND_EXE, Md5(path))];
        } else if fs.elf[path] == ET_DYN {
          fileInfos := fileInfos + [Record(path, KIND_DYN, Md5(path))];
        }
      }
    }

    /** The link has a target, outside the skipped trees, that is an ELF file. */
    ghost predicate Resolves(link: string) {
      link in fs.target && !Skipped(fs.target[link]) && fs.target[link] in fs.elf
    }

    method SymbolReloader(link: string)
      modifies this`fileInfos
      ensures Resolves(link) && fs.elf[fs.target[link]] == 2 ==> fileInfos == old(fileInfos) + [Record(link, 4, "to be determined")]
      ensures Resolves(link) && fs.elf[fs.target[link]] == 3 ==> fileInfos == old(fileInfos) + [Record(link, 3, "to be determined")]
      ensures !Resolves(link) || fs.elf[fs.target[link]] !in {2, 3} ==> fileInfos == old(fileInfos)
      ensures fileInfos == old(fileInfos) + LinkRecords(fs, link)
    {
      if link !in fs.target {
        return;
      }
      var target := fs.target[link];
      RejectedMeansSkipped(target);
      if !ValidPath(target) {
        return;
      }
      if target in fs.elf {
        if fs.elf[target] == ET_EXEC {
          fileInfos := fileInfos + [Record(link, KIND_EXE, Md5(target))];
        } else if fs.elf[target] == ET_DYN {
          fileInfos := fileInfos + [Record(link, KIND_DYN, Md5(target))];
        }
      }
    }

    method RecordFiles(files: seq<string>)
      modifies this`fileInfos
      ensures fileInfos == old(fileInfos) + AllFileRecords(fs, files)
    {
      assert files[0..] == files;
      for i := 0 to |files|
        invariant fileInfos + AllFileRecords(fs, files[i..]) == old(fileInfos) + AllFileRecords(fs, files)
      {
        assert files[i..][1..] == files[i + 1..];
        FileChecker(files[i]);
      }
      assert fileInfos + [] == fileInfos;
    }

    method RecordLinks(links: seq<string>)
      modifies this`fileInfos
      ensures fileInfos == old(fileInfos) + AllLinkRecords(fs, links)
    {
      assert links[0..] == links;
      for i := 0 to |links|
        invariant fileInfos + AllLinkRecords(fs, links[i..]) == old(fileInfos) + AllLinkRecords(fs, links)
      {
        assert links[i..][1..] == links[i + 1..];
        SymbolReloader(links[i]);
      }
      assert fileInfos + [] == fileInfos;
    }

    /** The loop under dir_mutex_ pushes one task per subdirectory, in order. */
    method PushAll(dirs: seq<string>)
      requires taskPool.Valid()
      modifies taskPool
      ensures taskPool.Valid() && taskPool.pushed == old(taskPool.pushed) + dirs
      ensures taskPool.View() == old(taskPool.View()).(tasks := old(taskPool.tasks) + dirs, total := old(taskPool.total) + |dirs|)
      ensures taskPool.started == old(taskPool.started) && taskPool.finished == old(taskPool.finished)
      ensures taskPool.active == old(taskPool.active)
    {
      for i := 0 to |dirs|
        invariant taskPool.Valid() && taskPool.pushed == old(taskPool.pushed) + dirs[..i]
        invariant taskPool.View() == old(taskPool.View()).(tasks := old(taskPool.tasks) + dirs[..i], total := old(taskPool.total) + i)
        invariant taskPool.started == old(taskPool.started) && taskPool.finished == old(taskPool.finished)
        invariant taskPool.active == old(taskPool.active)
      {
        taskPool.PushTask(dirs[i]);
        assert dirs[..i + 1] == dirs[..i] + [dirs[i]];
      }
      assert dirs[..|dirs|] == dirs;
    }

    /** do_scan, with running_ read as false after `stopAt` entries if the listing is that long. */
    method DoScan(path: string, stopAt: nat)
      requires taskPool.Valid()
      modifies this`fileInfos, this`fileCounts, taskPool
      ensures taskPool.Valid() && taskPool.started == old(taskPool.started) && taskPool.active == old(taskPool.active)
      ensures taskPool.finished == old(taskPool.finished)
      ensures !running || Skipped(path) ==>
        fileInfos == old(fileInfos) && fileCounts == old(fileCounts) && taskPool.View() == old(taskPool.View())
      ensures running && !Skipped(path) ==>
        var out := SeenBy(path, stopAt);
        && fileInfos == old(fileInfos) + OwnRecords(fs, out)
        && fileCounts == M.Wrap(old(fileCounts) + out.Size())
        && taskPool.View()
           == old(taskPool.View()).(tasks := old(taskPool.tasks) + out.dirs, total := old(taskPool.total) + |out.dirs|)
    {
      RejectedMeansSkipped(path);
      if !running || !ValidPath(path) {
        return;
      }
      var dirs, files, links := TraverseDir(path, stopAt);
      fileCounts := M.Wrap(fileCounts + |dirs| + |files| + |links|);
      assert Listing(dirs, files, links) == SeenBy(path, stopAt);
      PushAll(dirs);
      RecordFiles(files);
      RecordLinks(links);
    }

    /** What traverse_dir_ finds before it stops; all of the directory if it is not interrupted. */
    function SeenBy(path: string, stopAt: nat): (out: Listing)
      ensures path !in fs.dirs ==> out == Listing([], [], [])
    {
      if path !in fs.dirs then NOTHING
      else ListEntries(path, fs.dirs[path][..if stopAt < |fs.dirs[path]| then stopAt else |fs.dirs[path]|])
    }

    lemma SeenToTheEnd(path: string, stopAt: nat)
      requires path in fs.dirs ==> stopAt >= |fs.dirs[path]|
      ensures SeenBy(path, stopAt) == ListDir(fs, path)
    {
      if path in fs.dirs {
        assert fs.dirs[path][..|fs.dirs[path]|] == fs.dirs[path];
      }
    }

    lemma SeenIsSortedOut(path: string, stopAt: nat)
      requires path in fs.dirs
      ensures stopAt >= |fs.dirs[path]| ==> SortedOut(path, fs.dirs[path], SeenBy(path, stopAt))
      ensures stopAt < |fs.dirs[path]| ==> SortedOut(path, fs.dirs[path][..stopAt], SeenBy(path, stopAt))
    {
      var n := if stopAt < |fs.dirs[path]| then stopAt else |fs.dirs[path]|;
      assert n == |fs.dirs[path]| ==> fs.dirs[path][..n] == fs.dirs[path];
      ListingIsSortedOut(path, fs.dirs[path][..n]);
    }

    /** One round of the recorder: it takes out everything recorded so far. */
    method DrainOnce() returns (batch: seq<Record>)
      modifies this`fileInfos
      ensures batch == old(fileInfos) && fileInfos == []
    {
      batch := [];
      batch, fileInfos := fileInfos, batch;
    }

    /** do_scan as a task that nobody interrupts. */
    method RunTask(path: string)
      requires taskPool.Valid() && running
      modifies this`fileInfos, this`fileCounts, taskPool
      ensures taskPool.Valid() && taskPool.started == old(taskPool.started) && taskPool.active == old(taskPool.active)
      ensures taskPool.finished == old(taskPool.finished)
      ensures
        var out := Yields(fs, path);
        && fileInfos == old(fileInfos) + OwnRecords(fs, out)
        && fileCounts == (if Skipped(path) then old(fileCounts) else M.Wrap(old(fileCounts) + out.Size()))
        && taskPool.View()
           == old(taskPool.View()).(tasks := old(taskPool.tasks) + out.dirs, total := old(taskPool.total) + |out.dirs|)
    {
      var entries := if path in fs.dirs then |fs.dirs[path]| else 0;
      SeenToTheEnd(path, entries);
      DoScan(path, entries);
    }

    lemma TakenAndReturned(active: multiset<string>, path: string)
      ensures path in active + multiset{path} && active + multiset{path} - multiset{path} == active
    {
    }

    /**
     One round of a worker: it takes the oldest task, scans it and reports it done.  The path's work
     passes from the queue to the records and the queued subdirectories, nothing being lost.
     */
    method WorkerRound() returns (path: string)
      requires taskPool.Valid() && Ready() && taskPool.tasks != []
      modifies this`fileInfos, this`fileCounts, taskPool
      ensures taskPool.Valid() && Ready() && path == old(taskPool.tasks)[0]
      ensures taskPool.started == old(taskPool.started) + [path] && taskPool.active == old(taskPool.active)
      ensures taskPool.finished == old(taskPool.finished) + [path]
      ensures
        var out := Yields(fs, path);
        && fileInfos == old(fileInfos) + OwnRecords(fs, out)
        && fileCounts == (if Skipped(path) then old(fileCounts) else M.Wrap(old(fileCounts) + out.Size()))
        && taskPool.View()
           == old(taskPool.View()).(tasks := old(taskPool.tasks)[1..] + out.dirs, total := old(taskPool.total) - 1 + |out.dirs|)
    {
      var task := taskPool.TakeTask();
      path := task.value;
      RunTask(path);
      TakenAndReturned(old(taskPool.active), path);
      var notify := taskPool.TaskDone(path);
    }

    /** A round keeps the sum of what there is and what the queue calls for, and makes the queue cheaper. */
    method RoundAlone(ghost infos: multiset<Record>, ghost counts: int, ghost whole: nat)
      requires taskPool.Valid() && Ready() && taskPool.tasks != []
      requires Remains(fs, taskPool.tasks, fileInfos, infos, fileCounts, counts, whole)
      modifies this`fileInfos, this`fileCounts, taskPool
      ensures taskPool.Valid() && Ready() && taskPool.active == old(taskPool.active)
      ensures Remains(fs, taskPool.tasks, fileInfos, infos, fileCounts, counts, whole)
      ensures Cost.DirsCost(fs, taskPool.tasks) < old(Cost.DirsCost(fs, taskPool.tasks))
    {
      ghost var tasks, infosBefore, countsBefore := taskPool.tasks, fileInfos, fileCounts;
      var path := WorkerRound();
      assert fileCounts == if Skipped(tasks[0]) then countsBefore else M.Wrap(countsBefore + Yields(fs, tasks[0]).Size());
      RoundIsCheaper(fs, tasks, taskPool.tasks);
      RoundLeaves(fs, tasks, taskPool.tasks, infosBefore, fileInfos, infos, countsBefore, fileCounts, counts, whole);
    }

    /**
     The loop of a worker that is left alone with the queue: round after round it does the whole work of the
     sequential walk of the queued paths, and it stops when the queue is empty.
     */
    method WorkAlone()
      requires taskPool.Valid() && Ready() && -0x8000_0000 <= fileCounts < 0x8000_0000
      modifies this`fileInfos, this`fileCounts, taskPool
      ensures taskPool.Valid() && Ready() && taskPool.tasks == [] && taskPool.active == old(taskPool.active)
      ensures multiset(fileInfos) == multiset(old(fileInfos)) + WalkAll(fs, old(taskPool.tasks)).records
      ensures fileCounts == M.Wrap(old(fileCounts) + WalkAll(fs, old(taskPool.tasks)).entries)
    {
      ghost var counts, whole := fileCounts, Due(fs, taskPool.tasks);
      ghost var infos := multiset(fileInfos) + WalkAll(fs, taskPool.tasks).records;
      AllRemains(fs, taskPool.tasks, fileInfos, fileCounts);
      while taskPool.tasks != []
        invariant taskPool.Valid() && Ready() && taskPool.active == old(taskPool.active)
        invariant Remains(fs, taskPool.tasks, fileInfos, infos, fileCounts, counts, whole)
        decreases Cost.DirsCost(fs, taskPool.tasks)
      {
        RoundAlone(infos, counts, whole);
      }
      NothingRemains(fs, fileInfos, infos, fileCounts, counts, whole);
    }
  }
}
