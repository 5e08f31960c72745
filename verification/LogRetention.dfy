/**
 The log retention sweep (retention/log_retention.py): rows of tool_calls and files on disk are aged
 out and reconciled with each other.

 Paths are component sequences with one spelling per file, the log directory is absolute, and the
 unspecified orders of the row scans and of the directory walk are left open.
 */
module LogRetention {
  import opened Common

  type Path = seq<string>

  // tool_calls.log_path
  datatype LogPath = Absolute(parts: Path) | Relative(parts: Path)

  datatype Call = Call(taskId: string, startedAt: int, logPath: Option<LogPath>)

  type Calls = map<string, Call>

  // retention_orphan_detected events
  datatype Orphan = OrphanFile(path: Path) | OrphanRow(callId: string, taskId: string, path: Path)

  datatype Counts = Counts(nulled: nat, deletedFiles: nat, deletedMetadata: nat, orphanFiles: nat, staleMetadata: nat)

  datatype Store = Store(rows: Calls, files: set<Path>)

  const DAY := 86_400
  const FULL_LOG_RETAIN := 30 * DAY
  const DIGEST_RETAIN := 180 * DAY
  const SUFFIX := ".jsonl.zst"

  predicate Expired(c: Call, now: int) {
    c.startedAt < now - DIGEST_RETAIN
  }

  predicate Aged(c: Call, now: int) {
    !Expired(c, now) && c.logPath.Some? && c.startedAt < now - FULL_LOG_RETAIN
  }

  // _resolve_db_path
  function Resolve(base: Path, p: LogPath): Path {
    match p
    case Absolute(parts) => parts
    case Relative(parts) => base + parts
  }

  // The files of rglob("*.jsonl.zst").
  predicate IsLog(base: Path, f: Path) {
    base < f && EndsWith(f[|f| - 1], SUFFIX)
  }

  predicate EndsWith(s: string, suffix: string) {
    |suffix| <= |s| && s[|s| - |suffix|..] == suffix
  }

  // Row id names file f.
  predicate Names(base: Path, rows: Calls, id: string, f: Path) {
    id in rows && rows[id].logPath.Some? && Resolve(base, rows[id].logPath.value) == f
  }

  function AgedIds(rows: Calls, now: int): set<string> {
    set id | id in rows && Aged(rows[id], now)
  }

  function ExpiredIds(rows: Calls, now: int): set<string> {
    set id | id in rows && Expired(rows[id], now)
  }

  function PathsOf(base: Path, rows: Calls, ids: set<string>): set<Path> {
    set id | id in ids && id in rows && rows[id].logPath.Some? :: Resolve(base, rows[id].logPath.value)
  }

  function WithoutPaths(rows: Calls, ids: set<string>): Calls {
    map id | id in rows :: if id in ids then rows[id].(logPath := None) else rows[id]
  }

  function Orphans(base: Path, rows: Calls, files: set<Path>): set<Path> {
    set f | f in files && IsLog(base, f) && f !in PathsOf(base, rows, rows.Keys)
  }

  function StaleIds(base: Path, rows: Calls, files: set<Path>): set<string> {
    set id | id in rows && rows[id].logPath.Some? && Resolve(base, rows[id].logPath.value) !in files
  }

  // The three stages of a sweep and its result.
  function Kept(rows: Calls, now: int): Calls {
    WithoutPaths(rows, AgedIds(rows, now)) - ExpiredIds(rows, now)
  }

  function FilesLeft(base: Path, s: Store, now: int): set<Path> {
    s.files - PathsOf(base, s.rows, AgedIds(s.rows, now))
  }

  function Swept(base: Path, s: Store, now: int): Store {
    var rows, left := Kept(s.rows, now), FilesLeft(base, s, now);
    var files := left - Orphans(base, rows, left);
    Store(WithoutPaths(rows, StaleIds(base, rows, files)), files)
  }

  function CountsOf(base: Path, s: Store, now: int): Counts {
    var rows, left := Kept(s.rows, now), FilesLeft(base, s, now);
    var orphans := Orphans(base, rows, left);
    Counts(|AgedIds(s.rows, now)|, |s.files - left|, |ExpiredIds(s.rows, now)|, |orphans|,
        |StaleIds(base, rows, left - orphans)|)
  }

  function FileReports(orphans: set<Path>): set<Orphan> {
    set f | f in orphans :: OrphanFile(f)
  }

  function RowReports(base: Path, rows: Calls, ids: set<string>): set<Orphan> {
    set id | id in ids && id in rows && rows[id].logPath.Some? :: RowReport(base, rows, id)
  }

  function Reports(base: Path, s: Store, now: int): set<Orphan> {
    var rows, left := Kept(s.rows, now), FilesLeft(base, s, now);
    var orphans := Orphans(base, rows, left);
    FileReports(orphans) + RowReports(base, rows, StaleIds(base, rows, left - orphans))
  }

  lemma ReportsAdd(files: set<Orphan>, rows: set<Orphan>)
    requires (forall o :: o in files ==> o.OrphanFile?) && (forall o :: o in rows ==> o.OrphanRow?)
    ensures multiset(files + rows) == multiset(files) + multiset(rows)
  {
    forall o ensures multiset(files + rows)[o] == (multiset(files) + multiset(rows))[o] {}
  }

  // One element of a worklist that is searched for targets.
  lemma Visit<T>(targets: set<T>, todo: set<T>, found: set<T>, x: T)
    requires found == targets - todo && x in todo
    ensures x !in found
    ensures x in targets ==> found + {x} == targets - (todo - {x}) && |found + {x}| == |found| + 1
    ensures x !in targets ==> found == targets - (todo - {x})
  {
  }

  lemma FileReportsAdd(events: multiset<Orphan>, gone: set<Path>, f: Path)
    requires f !in gone
    ensures events + multiset(FileReports(gone)) + multiset{OrphanFile(f)} == events + multiset(FileReports(gone + {f}))
  {
    assert FileReports(gone + {f}) == FileReports(gone) + {OrphanFile(f)};
    assert OrphanFile(f) !in FileReports(gone);
  }

  function RowReport(base: Path, rows: Calls, id: string): Orphan
    requires id in rows && rows[id].logPath.Some?
  {
    OrphanRow(id, rows[id].taskId, Resolve(base, rows[id].logPath.value))
  }

  lemma RowReportsAdd(events: multiset<Orphan>, base: Path, rows: Calls, ids: set<string>, id: string)
    requires id !in ids && id in rows && rows[id].logPath.Some?
    ensures events + multiset(RowReports(base, rows, ids)) + multiset{RowReport(base, rows, id)}
         == events + multiset(RowReports(base, rows, ids + {id}))
  {
    assert RowReports(base, rows, ids + {id}) == RowReports(base, rows, ids) + {RowReport(base, rows, id)};
    assert RowReport(base, rows, id) !in RowReports(base, rows, ids);
  }

  lemma NullOneMore(rows: Calls, done: set<string>, id: string)
    requires id in rows && id !in done
    ensures WithoutPaths(rows, done)[id := rows[id].(logPath := None)] == WithoutPaths(rows, done + {id})
    ensures WithoutPaths(rows, done)[id] == rows[id]
  {
  }

  lemma NamedPaths(base: Path, rows: Calls, paths: map<string, Path>)
    requires forall id :: id in paths ==> Names(base, rows, id, paths[id])
    ensures paths.Values == PathsOf(base, rows, paths.Keys)
  {
    forall f ensures f in paths.Values <==> f in PathsOf(base, rows, paths.Keys) {
      if f in paths.Values {
        var id :| id in paths && paths[id] == f;
        assert Names(base, rows, id, f);
      }
      if f in PathsOf(base, rows, paths.Keys) {
        var id :| id in paths.Keys && id in rows && rows[id].logPath.Some?
            && Resolve(base, rows[id].logPath.value) == f;
        assert Names(base, rows, id, paths[id]);
      }
    }
  }

  class LogRetention {
    const base: Path
    var rows: Calls
    var files: set<Path>
    var events: multiset<Orphan>

    constructor (base: Path)
      ensures this.base == base && rows == map[] && files == {} && events == multiset{}
    {
      this.base, rows, files, events := base, map[], {}, multiset{};
    }

    // now is the sweep's clock reading.
    method Sweep(now: int) returns (counts: Counts)
      modifies this
      ensures Store(rows, files) == Swept(base, old(Store(rows, files)), now)
      ensures counts == CountsOf(base, old(Store(rows, files)), now)
      ensures events == old(events) + multiset(Reports(base, old(Store(rows, files)), now))
    {
      ghost var start := Store(rows, files);
      var nulled, deletedFiles, deletedMetadata := RemoveOld(now);
      ghost var kept, left := rows, files;
      var orphanFiles := UnlinkOrphans();
      var staleMetadata := NullStale();
      ghost var orphans := Orphans(base, kept, left);
      ReportsAdd(FileReports(orphans), RowReports(base, kept, StaleIds(base, kept, left - orphans)));
      counts := Counts(nulled, deletedFiles, deletedMetadata, orphanFiles, staleMetadata);
    }

    // The first three phases: aged rows lose their paths and files, expired rows go.
    method RemoveOld(now: int) returns (nulled: nat, deletedFiles: nat, deletedMetadata: nat)
      modifies this`rows, this`files
      ensures rows == Kept(old(rows), now) && files == FilesLeft(base, old(Store(rows, files)), now)
      ensures nulled == |AgedIds(old(rows), now)| && deletedMetadata == |ExpiredIds(old(rows), now)|
      ensures deletedFiles == |old(files) - files|
    {
      var toNull, toDelete := Classify(now);
      NamedPaths(base, rows, toNull);
      nulled := NullAged(toNull.Keys);
      deletedFiles := UnlinkAged(toNull);
      deletedMetadata := DeleteMetadata(toDelete);
    }

    method Classify(now: int) returns (toNull: map<string, Path>, toDelete: set<string>)
      ensures toNull.Keys == AgedIds(rows, now) && toDelete == ExpiredIds(rows, now)
      ensures forall id :: id in toNull ==> Names(base, rows, id, toNull[id])
    {
      toNull, toDelete := map[], {};
      var todo := rows.Keys;
      while todo != {}
        invariant todo <= rows.Keys
        invariant toDelete == ExpiredIds(rows, now) - todo && toNull.Keys == AgedIds(rows, now) - todo
        invariant forall id :: id in toNull ==> Names(base, rows, id, toNull[id])
        decreases |todo|
      {
        var id :| id in todo;
        todo := todo - {id};
        if Expired(rows[id], now) {
          toDelete := toDelete + {id};
          continue;
        }
        if rows[id].logPath.Some? && rows[id].startedAt < now - FULL_LOG_RETAIN {
          toNull := toNull[id := Resolve(base, rows[id].logPath.value)];
        }
      }
    }

    // UPDATE ... WHERE log_path IS NOT NULL, counting the rows changed
    method NullAged(ids: set<string>) returns (nulled: nat)
      requires forall id :: id in ids ==> id in rows && rows[id].logPath.Some?
      modifies this`rows
      ensures rows == WithoutPaths(old(rows), ids) && nulled == |ids|
    {
      nulled := 0;
      var todo := ids;
      while todo != {}
        invariant todo <= ids && nulled == |ids| - |todo|
        invariant rows == WithoutPaths(old(rows), ids - todo)
        decreases |todo|
      {
        var id :| id in todo;
        todo := todo - {id};
        rows := rows[id := rows[id].(logPath := None)];
        nulled := nulled + 1;
      }
    }

    method UnlinkAged(paths: map<string, Path>) returns (deleted: nat)
      modifies this`files
      ensures files == old(files) - paths.Values && deleted == |old(files) - files|
    {
      deleted := 0;
      var todo, gone: set<Path> := paths.Keys, {};
      while todo != {}
        invariant todo <= paths.Keys && gone <= old(files) && deleted == |gone|
        invariant files == old(files) - gone
        invariant forall f :: f in gone ==> f in paths.Values
        invariant forall id :: id in paths && id !in todo ==> paths[id] !in files
        decreases |todo|
      {
        var id :| id in todo;
        todo := todo - {id};
        if paths[id] in files {
          files := files - {paths[id]};
          gone := gone + {paths[id]};
          deleted := deleted + 1;
        }
      }
      assert old(files) - files == gone;
    }

    method DeleteMetadata(ids: set<string>) returns (deleted: nat)
      requires ids <= rows.Keys
      modifies this`rows
      ensures rows == old(rows) - ids && deleted == |ids|
    {
      deleted := 0;
      var todo := ids;
      while todo != {}
        invariant todo <= ids && deleted == |ids| - |todo|
        invariant rows == old(rows) - (ids - todo)
        decreases |todo|
      {
        var id :| id in todo;
        todo := todo - {id};
        rows := rows - {id};
        deleted := deleted + 1;
      }
    }

    method UnlinkOrphans() returns (removed: nat)
      modifies this`files, this`events
      ensures files == old(files) - Orphans(base, rows, old(files)) && removed == |Orphans(base, rows, old(files))|
      ensures events == old(events) + multiset(FileReports(Orphans(base, rows, old(files))))
    {
      var referenced := PathsOf(base, rows, rows.Keys);
      var logs := set f | f in files && IsLog(base, f);
      assert logs - referenced == Orphans(base, rows, files);
      removed := UnlinkUnreferenced(logs, referenced);
    }

    method UnlinkUnreferenced(logs: set<Path>, referenced: set<Path>) returns (removed: nat)
      modifies this`files, this`events
      ensures files == old(files) - (logs - referenced) && removed == |logs - referenced|
      ensures events == old(events) + multiset(FileReports(logs - referenced))
    {
      removed := 0;
      ghost var targets := logs - referenced;
      var todo := logs;
      ghost var gone: set<Path> := {};
      while todo != {}
        invariant todo <= logs && gone == targets - todo && removed == |gone|
        invariant files == old(files) - gone
        invariant events == old(events) + multiset(FileReports(gone))
        decreases |todo|
      {
        var f :| f in todo;
        Visit(targets, todo, gone, f);
        if f !in referenced {
          UnlinkOrphan(f, old(files), old(events), gone);
          gone := gone + {f};
          removed := removed + 1;
        }
        todo := todo - {f};
      }
      assert gone == targets;
    }

    // One transaction of the file loop, behind those for the files in `gone`.
    method UnlinkOrphan(f: Path, ghost before: set<Path>, ghost log: multiset<Orphan>, ghost gone: set<Path>)
      requires f !in gone && files == before - gone && events == log + multiset(FileReports(gone))
      modifies this`files, this`events
      ensures files == before - (gone + {f}) && events == log + multiset(FileReports(gone + {f}))
    {
      FileReportsAdd(log, gone, f);
      files := files - {f};
      events := events + multiset{OrphanFile(f)};
    }

    method NullStale() returns (nulled: nat)
      modifies this`rows, this`events
      ensures rows == WithoutPaths(old(rows), StaleIds(base, old(rows), files))
          && nulled == |StaleIds(base, old(rows), files)|
      ensures events == old(events) + multiset(RowReports(base, old(rows), StaleIds(base, old(rows), files)))
    {
      ghost var targets := StaleIds(base, rows, files);
      var named := set id | id in rows && rows[id].logPath.Some?;
      assert forall id :: id in named ==> Judged(rows, files, targets, id);
      nulled := NullMissing(named, targets);
    }

    // The row, behind those in `done` that were found without a file, loses its path in a transaction of
    // its own if it is found so.
    method NullIfMissing(id: string, ghost before: Calls, ghost log: multiset<Orphan>, ghost done: set<string>)
      returns (missing: bool, ghost found: set<string>)
      requires id in before && id !in done && before[id].logPath.Some?
      requires rows == WithoutPaths(before, done) && events == log + multiset(RowReports(base, before, done))
      modifies this`rows, this`events
      ensures missing <==> Resolve(base, before[id].logPath.value) !in files
      ensures found == if missing then done + {id} else done
      ensures rows == WithoutPaths(before, found) && events == log + multiset(RowReports(base, before, found))
    {
      found := done;
      NullOneMore(before, done, id);
      var path := Resolve(base, rows[id].logPath.value);
      missing := path !in files;
      if missing {
        RowReportsAdd(log, base, before, done, id);
        found := done + {id};
        events := events + multiset{OrphanRow(id, rows[id].taskId, path)};
        rows := rows[id := rows[id].(logPath := None)];
      }
    }

    // The row has a path, and is a target exactly if no file is there.
    predicate Judged(rows: Calls, files: set<Path>, targets: set<string>, id: string) {
      id in rows && rows[id].logPath.Some? && (id in targets <==> Resolve(base, rows[id].logPath.value) !in files)
    }

    method NullMissing(named: set<string>, ghost targets: set<string>) returns (nulled: nat)
      requires targets <= named
      requires forall id :: id in named ==> Judged(rows, files, targets, id)
      modifies this`rows, this`events
      ensures rows == WithoutPaths(old(rows), targets) && nulled == |targets|
      ensures events == old(events) + multiset(RowReports(base, old(rows), targets))
    {
      nulled := 0;
      ghost var before, log := rows, events;
      var todo := named;
      ghost var done: set<string> := {};
      assert WithoutPaths(rows, done) == rows;
      while todo != {}
        invariant todo <= named && done == targets - todo && nulled == |done|
        invariant rows == WithoutPaths(before, done)
        invariant events == log + multiset(RowReports(base, before, done))
        decreases |todo|
      {
        var id :| id in todo;
        assert Judged(before, files, targets, id);
        var one;
        one, done := Round(id, before, log, targets, todo, done);
        nulled := nulled + one;
        todo := todo - {id};
      }
      assert done == targets;
    }

    // One round of the row loop, which clears the row exactly if it is a target.
    method Round(id: string, ghost before: Calls, ghost log: multiset<Orphan>, ghost targets: set<string>,
        ghost todo: set<string>, ghost done: set<string>)
      returns (one: nat, ghost found: set<string>)
      requires id in todo && done == targets - todo && Judged(before, files, targets, id)
      requires rows == WithoutPaths(before, done) && events == log + multiset(RowReports(base, before, done))
      modifies this`rows, this`events
      ensures found == targets - (todo - {id}) && |found| == |done| + one
      ensures rows == WithoutPaths(before, found) && events == log + multiset(RowReports(base, before, found))
    {
      Visit(targets, todo, done, id);
      var missing;
      missing, found := NullIfMissing(id, before, log, done);
      one := if missing then 1 else 0;
    }
  }

  // ---- what a sweep establishes, from any state

  lemma KeptAt(base: Path, rows: Calls, now: int, id: string, f: Path)
    ensures Names(base, Kept(rows, now), id, f) <==>
      Names(base, rows, id, f) && !Expired(rows[id], now) && !Aged(rows[id], now)
  {
  }

  lemma SweptNames(base: Path, s: Store, now: int, id: string, f: Path)
    ensures Names(base, Swept(base, s, now).rows, id, f) <==>
      Names(base, Kept(s.rows, now), id, f) && f in Swept(base, s, now).files
  {
  }

  // Each side agrees with the other, and nothing outlives its retention.
  lemma SweepReconciles(base: Path, s: Store, now: int)
    ensures var r := Swept(base, s, now);
      && (forall id, f :: Names(base, r.rows, id, f) ==> f in r.files)
      && (forall f :: f in r.files && IsLog(base, f) ==> exists id :: Names(base, r.rows, id, f))
      && (forall id :: id in r.rows <==> id in s.rows && !Expired(s.rows[id], now))
      && (forall id :: id in r.rows ==> !Expired(r.rows[id], now) && !Aged(r.rows[id], now))
  {
    var r, kept := Swept(base, s, now), Kept(s.rows, now);
    forall id, f | Names(base, r.rows, id, f) ensures f in r.files { SweptNames(base, s, now, id, f); }
    forall f | f in r.files && IsLog(base, f) ensures exists id :: Names(base, r.rows, id, f) {
      assert f in PathsOf(base, kept, kept.Keys);
      var id :| id in kept && kept[id].logPath.Some? && Resolve(base, kept[id].logPath.value) == f;
      assert Names(base, kept, id, f);
      SweptNames(base, s, now, id, f);
    }
  }

  // A file survives exactly when no aged row names it and, being a log, some fresh row does.
  lemma FileSurvives(base: Path, s: Store, now: int, f: Path)
    ensures f in Swept(base, s, now).files <==>
      && f in s.files
      && (forall id :: Names(base, s.rows, id, f) ==> !Aged(s.rows[id], now))
      && (IsLog(base, f) ==> exists id :: Names(base, s.rows, id, f) && !Expired(s.rows[id], now))
  {
    var kept, left := Kept(s.rows, now), FilesLeft(base, s, now);
    assert f in left <==> f in s.files && forall id :: Names(base, s.rows, id, f) ==> !Aged(s.rows[id], now) by {
      if f in s.files && f !in left {
        var id :| id in AgedIds(s.rows, now) && id in s.rows && s.rows[id].logPath.Some?
            && Resolve(base, s.rows[id].logPath.value) == f;
        assert Names(base, s.rows, id, f);
      }
    }
    if f in left {
      assert f in PathsOf(base, kept, kept.Keys) <==> exists id :: Names(base, kept, id, f) by {
        if f in PathsOf(base, kept, kept.Keys) {
          var id :| id in kept && kept[id].logPath.Some? && Resolve(base, kept[id].logPath.value) == f;
          assert Names(base, kept, id, f);
        }
      }
      forall id ensures Names(base, kept, id, f) <==> Names(base, s.rows, id, f) && !Expired(s.rows[id], now) {
        KeptAt(base, s.rows, now, id, f);
      }
    }
  }

  // A row keeps its path exactly when it is fresh and its file survives; nothing else of a row changes.
  lemma PathSurvives(base: Path, s: Store, now: int, id: string)
    requires id in s.rows && !Expired(s.rows[id], now)
    ensures var r := Swept(base, s, now);
      && id in r.rows && r.rows[id] == s.rows[id].(logPath := r.rows[id].logPath)
      && (r.rows[id].logPath.Some? <==>
            s.rows[id].logPath.Some? && !Aged(s.rows[id], now) && Resolve(base, s.rows[id].logPath.value) in r.files)
      && (r.rows[id].logPath.Some? ==> r.rows[id] == s.rows[id])
  {
  }

  // Rows live for 180 days and keep their paths for 30, each to the second.
  lemma RowsByAge(base: Path, s: Store, now: int, id: string)
    requires id in s.rows
    ensures var age, r := now - s.rows[id].startedAt, Swept(base, s, now);
      && (id in r.rows <==> age <= 15_552_000)
      && (id in r.rows && r.rows[id].logPath.Some? ==> age <= 2_592_000)
      && (id in r.rows && age <= 2_592_000 && s.rows[id].logPath.Some? ==>
            (r.rows[id].logPath.Some? <==> Resolve(base, s.rows[id].logPath.value) in r.files))
  {
    if !Expired(s.rows[id], now) { PathSurvives(base, s, now, id); }
  }

  // A file is reported exactly when it is a log that only expired rows name, and a row exactly when it
  // is fresh and its file is gone.
  lemma ReportsMeaning(base: Path, s: Store, now: int)
    ensures forall f :: OrphanFile(f) in Reports(base, s, now) <==>
      f in s.files && IsLog(base, f) && forall id :: Names(base, s.rows, id, f) ==> Expired(s.rows[id], now)
    ensures forall id, task, f :: OrphanRow(id, task, f) in Reports(base, s, now) <==>
      && Names(base, s.rows, id, f) && !Expired(s.rows[id], now) && !Aged(s.rows[id], now)
      && s.rows[id].taskId == task && f !in Swept(base, s, now).files
  {
    var kept, left := Kept(s.rows, now), FilesLeft(base, s, now);
    forall f ensures OrphanFile(f) in Reports(base, s, now) <==>
      f in s.files && IsLog(base, f) && forall id :: Names(base, s.rows, id, f) ==> Expired(s.rows[id], now)
    {
      OrphanMeaning(base, s, now, f);
    }
    forall id, task, f ensures OrphanRow(id, task, f) in Reports(base, s, now) <==>
      && Names(base, s.rows, id, f) && !Expired(s.rows[id], now) && !Aged(s.rows[id], now)
      && s.rows[id].taskId == task && f !in Swept(base, s, now).files
    {
      KeptAt(base, s.rows, now, id, f);
      StaleMeaning(base, kept, Swept(base, s, now).files, id, task, f);
    }
  }

  lemma OrphanMeaning(base: Path, s: Store, now: int, f: Path)
    ensures f in Orphans(base, Kept(s.rows, now), FilesLeft(base, s, now)) <==>
      f in s.files && IsLog(base, f) && forall id :: Names(base, s.rows, id, f) ==> Expired(s.rows[id], now)
  {
    var kept, left := Kept(s.rows, now), FilesLeft(base, s, now);
    InPaths(base, s.rows, AgedIds(s.rows, now), f);
    InPaths(base, kept, kept.Keys, f);
    forall id ensures Names(base, kept, id, f) <==>
      Names(base, s.rows, id, f) && !Expired(s.rows[id], now) && !Aged(s.rows[id], now)
    {
      KeptAt(base, s.rows, now, id, f);
    }
  }

  lemma InPaths(base: Path, rows: Calls, ids: set<string>, f: Path)
    ensures f in PathsOf(base, rows, ids) <==> exists id :: id in ids && Names(base, rows, id, f)
  {
    if f in PathsOf(base, rows, ids) {
      var id :| id in ids && id in rows && rows[id].logPath.Some? && Resolve(base, rows[id].logPath.value) == f;
      assert Names(base, rows, id, f);
    }
  }

  lemma StaleMeaning(base: Path, rows: Calls, files: set<Path>, id: string, task: string, f: Path)
    ensures OrphanRow(id, task, f) in RowReports(base, rows, StaleIds(base, rows, files))
            <==> Names(base, rows, id, f) && f !in files && rows[id].taskId == task
  {
    if Names(base, rows, id, f) && f !in files && rows[id].taskId == task {
      assert id in StaleIds(base, rows, files) && RowReport(base, rows, id) == OrphanRow(id, task, f);
    }
  }

  // A row that stays changes exactly where it was aged, or fresh without its file.
  lemma RowChanges(base: Path, s: Store, now: int, id: string)
    ensures var kept, r := Kept(s.rows, now), Swept(base, s, now);
      && (id in r.rows && r.rows[id] != s.rows[id]
          <==> id in AgedIds(s.rows, now) || id in StaleIds(base, kept, r.files))
      && !(id in AgedIds(s.rows, now) && id in StaleIds(base, kept, r.files))
  {
  }

  lemma UnionSize<T>(all: set<T>, a: set<T>, b: set<T>)
    requires forall x :: x in all <==> x in a || x in b
    requires forall x :: !(x in a && x in b)
    ensures |all| == |a| + |b|
  {
    assert all == a + b && a !! b;
  }

  // The counts are those of what a sweep takes away: files, rows, and paths.
  lemma CountsMeaning(base: Path, s: Store, now: int)
    ensures var c, r := CountsOf(base, s, now), Swept(base, s, now);
      && c.deletedFiles + c.orphanFiles == |s.files - r.files|
      && c.deletedMetadata == |s.rows.Keys - r.rows.Keys|
      && c.nulled + c.staleMetadata == |set id | id in r.rows && r.rows[id] != s.rows[id]|
  {
    GoneCounts(base, s, now, Swept(base, s, now));
    PathCounts(base, s, now, Swept(base, s, now));
  }

  lemma GoneCounts(base: Path, s: Store, now: int, r: Store)
    requires r == Swept(base, s, now)
    ensures var left := FilesLeft(base, s, now);
      |s.files - r.files| == |s.files - left| + |Orphans(base, Kept(s.rows, now), left)|
    ensures s.rows.Keys - r.rows.Keys == ExpiredIds(s.rows, now)
  {
    var left := FilesLeft(base, s, now);
    UnionSize(s.files - r.files, s.files - left, Orphans(base, Kept(s.rows, now), left));
  }

  lemma PathCounts(base: Path, s: Store, now: int, r: Store)
    requires r == Swept(base, s, now)
    ensures |set id | id in r.rows && r.rows[id] != s.rows[id]|
         == |AgedIds(s.rows, now)| + |StaleIds(base, Kept(s.rows, now), r.files)|
  {
    var changed := set id | id in r.rows && r.rows[id] != s.rows[id];
    forall id { RowChanges(base, s, now, id); }
    UnionSize(changed, AgedIds(s.rows, now), StaleIds(base, Kept(s.rows, now), r.files));
  }

  lemma NothingStale(base: Path, rows: Calls, files: set<Path>)
    requires forall id, f :: Names(base, rows, id, f) ==> f in files
    ensures StaleIds(base, rows, files) == {}
  {
    forall id | id in rows && rows[id].logPath.Some? ensures Resolve(base, rows[id].logPath.value) in files {
      assert Names(base, rows, id, Resolve(base, rows[id].logPath.value));
    }
  }

  lemma NoOrphans(base: Path, rows: Calls, files: set<Path>)
    requires forall f :: f in files && IsLog(base, f) ==> exists id :: Names(base, rows, id, f)
    ensures Orphans(base, rows, files) == {}
  {
    forall f | f in files && IsLog(base, f) ensures f in PathsOf(base, rows, rows.Keys) {
      var id :| Names(base, rows, id, f);
    }
  }

  lemma NothingOld(base: Path, r: Store, now: int)
    requires forall id :: id in r.rows ==> !Expired(r.rows[id], now) && !Aged(r.rows[id], now)
    ensures AgedIds(r.rows, now) == {} && ExpiredIds(r.rows, now) == {}
    ensures Kept(r.rows, now) == r.rows && FilesLeft(base, r, now) == r.files
  {
    assert AgedIds(r.rows, now) == {} && ExpiredIds(r.rows, now) == {};
    assert PathsOf(base, r.rows, {}) == {};
  }

  // A second sweep at the same time finds nothing to do.
  lemma SweepAgain(base: Path, s: Store, now: int)
    ensures var r := Swept(base, s, now);
      Swept(base, r, now) == r && CountsOf(base, r, now) == Counts(0, 0, 0, 0, 0) && Reports(base, r, now) == {}
  {
    var r := Swept(base, s, now);
    SweepReconciles(base, s, now);
    NothingToDo(base, r, now);
  }

  lemma NothingToDo(base: Path, r: Store, now: int)
    requires forall id :: id in r.rows ==> !Expired(r.rows[id], now) && !Aged(r.rows[id], now)
    requires forall f :: f in r.files && IsLog(base, f) ==> exists id :: Names(base, r.rows, id, f)
    requires forall id, f :: Names(base, r.rows, id, f) ==> f in r.files
    ensures Swept(base, r, now) == r && CountsOf(base, r, now) == Counts(0, 0, 0, 0, 0) && Reports(base, r, now) == {}
  {
    NothingOld(base, r, now);
    NoOrphans(base, r.rows, r.files);
    assert r.files - {} == r.files;
    NothingStale(base, r.rows, r.files);
    assert WithoutPaths(r.rows, {}) == r.rows;
    assert RowReports(base, r.rows, {}) == {} && FileReports({}) == {};
  }
}
