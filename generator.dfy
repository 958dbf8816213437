/** The snapshot generator (`StaticDataGenerator`): reads today's rows, writes
    the current snapshot and a timestamped backup, or on any failure only the
    fallback snapshot. The store answer, the clock and the file-system faults
    are parameters; the file system is an object mapping paths to documents. */
module Generator {
  import opened Records
  import opened Stats

  datatype Meta =
    | SnapshotMeta(generatedAt: string, generatedBy: string, date: string, lastUpdate: string,
                   totalRecords: int, dataSource: string, version: string)
    | FallbackMeta(generatedAt: string, generatedBy: string, date: string, error: bool)

  /** A snapshot file's content. */
  datatype Document = Document(success: bool, message: string, data: seq<ZoneRecord>, stats: StatsBlock, meta: Meta)

  const PublicDir := "public"
  const DataDir := "public/data"
  const CurrentFile := "public/data/fire-data.json"

  /** The four readings of `new Date()` one run makes: the snapshot's
      `generated_at`, the local time used when there is no record, the backup
      name's timestamp and the fallback's `generated_at`. */
  datatype Clock = Clock(snapshotIso: string, localTime: string, backupIso: string, fallbackIso: string)

  /** The document `generateJsonWithStats` builds around the rows and their stats. */
  function SnapshotWith(data: seq<ZoneRecord>, stats: StatsBlock, date: string, generatedAt: string,
                        localTime: string): Document {
    Document(
      true, "Données générées automatiquement par GitHub Actions", data, stats,
      SnapshotMeta(generatedAt, "GitHub Actions", date,
                   if |data| > 0 then data[0].updateTime else localTime,
                   |data|, "supabase", "1.0.0"))
  }

  /** Specification of `generateJsonWithStats`. */
  function SnapshotOf(data: seq<ZoneRecord>, date: string, generatedAt: string, localTime: string): Document {
    SnapshotWith(data, StatsOf(data), date, generatedAt, localTime)
  }

  /** `generateJsonWithStats`: a successful document holding the rows unchanged,
      their stats, their count, and the first row's update time as last update. */
  method GenerateJsonWithStats(data: seq<ZoneRecord>, date: string, generatedAt: string, localTime: string)
    returns (doc: Document)
    ensures doc == SnapshotOf(data, date, generatedAt, localTime)
    ensures doc.success && doc.data == data && doc.stats == StatsOf(data)
    ensures doc.meta.SnapshotMeta? && doc.meta.totalRecords == |data| && doc.meta.date == date
    ensures |data| > 0 ==> doc.meta.lastUpdate == data[0].updateTime
    ensures data == [] ==> doc.meta.lastUpdate == localTime
  {
    var stats := CalculateStats(data);
    doc := SnapshotWith(data, stats, date, generatedAt, localTime);
  }

  /** The stats block of the fallback document: zeroed, no distribution, `error`. */
  const FallbackStats := StatsBlock(0, 0, 0.0, None, Error)

  /** The document `generateFallbackJson` writes. */
  function FallbackDocument(date: string, generatedAt: string): Document {
    Document(false, "Données indisponibles - Fichier de secours", [], FallbackStats,
             FallbackMeta(generatedAt, "GitHub Actions (Fallback)", date, true))
  }

  /** The snapshot invariant: a failed snapshot carries no rows and zeroed stats. */
  predicate SnapshotInvariant(doc: Document) {
    !doc.success ==> doc.data == [] && doc.stats.totalZones == 0 && doc.stats.highRiskZones == 0
                     && doc.stats.averageRisk == 0.0
  }

  /** Both documents the generator writes keep the snapshot invariant; only the
      fallback is unsuccessful, and it is marked as an error in stats and meta. */
  lemma DocumentsKeepInvariant(data: seq<ZoneRecord>, date: string, generatedAt: string, localTime: string)
    ensures SnapshotInvariant(SnapshotOf(data, date, generatedAt, localTime))
    ensures var f := FallbackDocument(date, generatedAt);
      SnapshotInvariant(f) && !f.success && f.data == [] && f.stats.status == Error
      && f.meta.FallbackMeta? && f.meta.error
  {
  }

  // ------------------------------------------------------------ backup name

  /** The timestamp of a backup name: `replace(/[:.]/g, '-')`. */
  function Sanitize(s: string): (r: string)
    ensures |r| == |s|
    ensures forall i :: 0 <= i < |s| ==> r[i] == (if s[i] == ':' || s[i] == '.' then '-' else s[i])
    ensures ':' !in r && '.' !in r
  {
    if s == [] then []
    else Sanitize(s[..|s| - 1]) + [if s[|s| - 1] == ':' || s[|s| - 1] == '.' then '-' else s[|s| - 1]]
  }

  /** Sanitising twice changes nothing more. */
  lemma SanitizeIdempotent(s: string)
    ensures Sanitize(Sanitize(s)) == Sanitize(s)
  {
  }

  /** `path.join(dataDir, `backup-${timestamp}.json`)`: the name sits in the data
      directory, carries the whole timestamp, and holds no `:` and no `.`
      except the one of its extension. */
  function BackupPath(iso: string): (p: string)
    ensures |p| == |DataDir| + 8 + |iso| + 5
    ensures p[..|DataDir| + 8] == DataDir + "/backup-" && p[|p| - 5..] == ".json"
    ensures p[|DataDir| + 8..|p| - 5] == Sanitize(iso)
    ensures forall i :: 0 <= i < |p| - 5 ==> p[i] != ':' && p[i] != '.'
  {
    var p := DataDir + "/backup-" + Sanitize(iso) + ".json";
    assert forall i :: |DataDir| + 8 <= i < |p| - 5 ==> p[i] == Sanitize(iso)[i - |DataDir| - 8];
    p
  }

  /** A backup never lands on the current file, whatever the timestamp. */
  lemma BackupIsNotCurrent(iso: string)
    ensures BackupPath(iso) != CurrentFile
  {
    assert BackupPath(iso)[12] == 'b';
    assert CurrentFile[12] == 'f';
  }

  // ------------------------------------------------------------ file system

  /** The part of the file system the generator touches. A call's `fails`
      flag says whether the underlying `fs` call throws. */
  class FileSystem {
    var files: map<string, Document>
    var dirs: set<string>

    constructor(files: map<string, Document>, dirs: set<string>)
      ensures this.files == files && this.dirs == dirs
    {
      this.files := files;
      this.dirs := dirs;
    }

    /** `mkdirSync`. */
    method MakeDir(path: string, fails: bool) returns (ok: bool)
      modifies this`dirs
      ensures ok == !fails
      ensures dirs == if ok then old(dirs) + {path} else old(dirs)
    {
      ok := !fails;
      if ok {
        dirs := dirs + {path};
      }
    }

    /** `writeFileSync`: the document replaces whatever the path held. */
    method WriteFile(path: string, doc: Document, fails: bool) returns (ok: bool)
      modifies this`files
      ensures ok == !fails
      ensures files == if ok then old(files)[path := doc] else old(files)
    {
      ok := !fails;
      if ok {
        files := files[path := doc];
      }
    }
  }

  /** The directories after `ensureDirectories` has succeeded. */
  function EnsuredDirs(dirs: set<string>): (r: set<string>)
    ensures PublicDir in r && DataDir in r && dirs <= r
  {
    dirs + {PublicDir, DataDir}
  }

  /** `ensureDirectories` is idempotent: once done, doing it again changes nothing. */
  lemma EnsuredDirsIdempotent(dirs: set<string>)
    ensures EnsuredDirs(EnsuredDirs(dirs)) == EnsuredDirs(dirs)
  {
  }

  /** Which of the two `mkdirSync` calls of one `ensureDirectories` throw. */
  datatype DirFaults = DirFaults(publicFails: bool, dataFails: bool)

  /** `ensureDirectories` returns normally: no missing directory's `mkdirSync` throws. */
  predicate EnsureSucceeds(dirs: set<string>, f: DirFaults) {
    (PublicDir in dirs || !f.publicFails) && (DataDir in dirs || !f.dataFails)
  }

  /** The directories after `ensureDirectories`, which stops at the first throwing
      call; the public directory may have been created when the data one fails. */
  function DirsAfterEnsure(dirs: set<string>, f: DirFaults): set<string> {
    if PublicDir !in dirs && f.publicFails then dirs
    else if DataDir !in dirs && f.dataFails then dirs + {PublicDir}
    else EnsuredDirs(dirs)
  }

  /** `ensureDirectories` adds at most the two directories, adds both exactly when
      it returns normally, and cannot fail once both exist. */
  lemma {:induction false} EnsureProperties(dirs: set<string>, f: DirFaults)
    ensures dirs <= DirsAfterEnsure(dirs, f) <= EnsuredDirs(dirs)
    ensures EnsureSucceeds(dirs, f) <==> DirsAfterEnsure(dirs, f) == EnsuredDirs(dirs)
    ensures PublicDir in dirs && DataDir in dirs ==> EnsureSucceeds(dirs, f)
    ensures EnsureSucceeds(DirsAfterEnsure(dirs, f), f) ==> EnsureSucceeds(dirs, f)
  {
    if PublicDir !in dirs && f.publicFails {
      assert PublicDir !in DirsAfterEnsure(dirs, f);
    } else if DataDir !in dirs && f.dataFails {
      assert DataDir != PublicDir;
      assert DataDir !in DirsAfterEnsure(dirs, f);
    }
  }

  /** `ensureDirectories`: creates each missing directory; a directory that
      already exists is not created again, so with both present it cannot fail. */
  method EnsureDirectories(fs: FileSystem, f: DirFaults) returns (ok: bool)
    modifies fs`dirs
    ensures ok == EnsureSucceeds(old(fs.dirs), f)
    ensures fs.dirs == DirsAfterEnsure(old(fs.dirs), f)
  {
    ok := true;
    if PublicDir !in fs.dirs {
      ok := fs.MakeDir(PublicDir, f.publicFails);
      if !ok {
        return;
      }
    }
    if DataDir !in fs.dirs {
      ok := fs.MakeDir(DataDir, f.dataFails);
    }
  }

  // ---------------------------------------------------------------- run

  /** The store's answer to today's query. */
  datatype QueryResult = QueryError(message: string) | Rows(data: Option<seq<ZoneRecord>>)

  /** `data || []`: a missing row list counts as no rows. */
  function RowsOf(q: QueryResult): (r: seq<ZoneRecord>)
    requires q.Rows?
    ensures q.data.None? ==> r == []
    ensures q.data.Some? ==> r == q.data.value
  {
    q.data.GetOr([])
  }

  /** Which `fs` calls throw: those of the `try` block, then those of the
      fallback run from the `catch` block. */
  datatype Faults = Faults(mkdir: DirFaults, currentWriteFails: bool, backupWriteFails: bool,
                           fallbackMkdir: DirFaults, fallbackWriteFails: bool)

  /** The `try` block runs to its end. */
  predicate PipelineSucceeds(dirs: set<string>, query: QueryResult, faults: Faults) {
    && EnsureSucceeds(dirs, faults.mkdir)
    && query.Rows?
    && !faults.currentWriteFails
    && !faults.backupWriteFails
  }

  /** The files when the `try` block ends, normally or at its first throw. */
  function TryFiles(files: map<string, Document>, dirs: set<string>, date: string, query: QueryResult,
                    faults: Faults, clock: Clock): map<string, Document>
  {
    if !EnsureSucceeds(dirs, faults.mkdir) || query.QueryError? || faults.currentWriteFails then files
    else
      var doc := SnapshotOf(RowsOf(query), date, clock.snapshotIso, clock.localTime);
      if faults.backupWriteFails then files[CurrentFile := doc]
      else files[CurrentFile := doc][BackupPath(clock.backupIso) := doc]
  }

  /** `generateFallbackJson` returns normally, starting from the directories `dirs`. */
  predicate FallbackSucceeds(dirs: set<string>, faults: Faults) {
    EnsureSucceeds(dirs, faults.fallbackMkdir) && !faults.fallbackWriteFails
  }

  /** The directories the `try` block leaves for the `catch` block. */
  function TryDirs(dirs: set<string>, faults: Faults): set<string> {
    DirsAfterEnsure(dirs, faults.mkdir)
  }

  /** Specification of the files after `run`. */
  function RunFiles(files: map<string, Document>, dirs: set<string>, date: string, query: QueryResult,
                    faults: Faults, clock: Clock): map<string, Document>
  {
    var t := TryFiles(files, dirs, date, query, faults, clock);
    if PipelineSucceeds(dirs, query, faults) || !FallbackSucceeds(TryDirs(dirs, faults), faults) then t
    else t[CurrentFile := FallbackDocument(date, clock.fallbackIso)]
  }

  /** Specification of the directories after `run`. */
  function RunDirs(dirs: set<string>, query: QueryResult, faults: Faults): set<string> {
    if PipelineSucceeds(dirs, query, faults) then TryDirs(dirs, faults)
    else DirsAfterEnsure(TryDirs(dirs, faults), faults.fallbackMkdir)
  }

  /** `generateFallbackJson`: ensures the directories and overwrites the
      current file with the fallback document; a throwing call ends it early. */
  method GenerateFallbackJson(fs: FileSystem, date: string, generatedAt: string,
                              mkdir: DirFaults, writeFails: bool)
    returns (ok: bool)
    modifies fs
    ensures ok == (EnsureSucceeds(old(fs.dirs), mkdir) && !writeFails)
    ensures fs.files == if ok then old(fs.files)[CurrentFile := FallbackDocument(date, generatedAt)]
                        else old(fs.files)
    ensures fs.dirs == DirsAfterEnsure(old(fs.dirs), mkdir)
  {
    ok := EnsureDirectories(fs, mkdir);
    if !ok {
      return;
    }
    ok := fs.WriteFile(CurrentFile, FallbackDocument(date, generatedAt), writeFails);
  }

  /** The `try` block of `run`: directories, query answer, snapshot, current
      file, backup. Returns whether it threw. */
  method RunPipeline(fs: FileSystem, date: string, query: QueryResult, faults: Faults, clock: Clock)
    returns (failed: bool)
    modifies fs
    ensures fs.files == TryFiles(old(fs.files), old(fs.dirs), date, query, faults, clock)
    ensures fs.dirs == TryDirs(old(fs.dirs), faults)
    ensures failed == !PipelineSucceeds(old(fs.dirs), query, faults)
  {
    failed := true;
    var ok := EnsureDirectories(fs, faults.mkdir);
    if !ok || query.QueryError? {
      return;
    }
    var doc := GenerateJsonWithStats(RowsOf(query), date, clock.snapshotIso, clock.localTime);
    ok := fs.WriteFile(CurrentFile, doc, faults.currentWriteFails);
    if !ok {
      return;
    }
    ok := fs.WriteFile(BackupPath(clock.backupIso), doc, faults.backupWriteFails);
    failed := !ok;
  }

  /** `run`: the try/catch pipeline. Returns the process exit code: 0 when the
      `try` block completes, 1 otherwise, whether through `process.exit(1)` or
      through the rejection a throwing fallback leaves unhandled. */
  method Run(fs: FileSystem, date: string, query: QueryResult, faults: Faults, clock: Clock)
    returns (exitCode: int)
    modifies fs
    ensures fs.files == RunFiles(old(fs.files), old(fs.dirs), date, query, faults, clock)
    ensures fs.dirs == RunDirs(old(fs.dirs), query, faults)
    ensures exitCode == if PipelineSucceeds(old(fs.dirs), query, faults) then 0 else 1
  {
    var failed := RunPipeline(fs, date, query, faults, clock);
    if failed {
      var _ := GenerateFallbackJson(fs, date, clock.fallbackIso, faults.fallbackMkdir, faults.fallbackWriteFails);
      exitCode := 1;
    } else {
      exitCode := 0;
    }
  }

  /** A successful run writes the snapshot to the current file and the same
      snapshot to one new backup path, and touches nothing else. */
  lemma RunSuccessWritesBoth(files: map<string, Document>, dirs: set<string>, date: string,
                             query: QueryResult, faults: Faults, clock: Clock)
    requires PipelineSucceeds(dirs, query, faults)
    ensures var r := RunFiles(files, dirs, date, query, faults, clock);
      var backup := BackupPath(clock.backupIso);
      && r.Keys == files.Keys + {CurrentFile, backup}
      && r[CurrentFile].success && r[CurrentFile].data == RowsOf(query)
      && r[backup] == r[CurrentFile]
      && forall p :: p in files && p != CurrentFile && p != backup ==> r[p] == files[p]
  {
    BackupIsNotCurrent(clock.backupIso);
    var doc := SnapshotOf(RowsOf(query), date, clock.snapshotIso, clock.localTime);
    assert RunFiles(files, dirs, date, query, faults, clock) == files[CurrentFile := doc][BackupPath(clock.backupIso) := doc];
  }

  /** A failed run whose fallback goes through leaves only the fallback, at the
      current file; every other path keeps what it held and no new path appears. */
  lemma RunFailureWritesOnlyFallback(files: map<string, Document>, dirs: set<string>, date: string,
                                     query: QueryResult, faults: Faults, clock: Clock)
    requires !PipelineSucceeds(dirs, query, faults) && FallbackSucceeds(TryDirs(dirs, faults), faults)
    ensures var r := RunFiles(files, dirs, date, query, faults, clock);
      && r.Keys == files.Keys + {CurrentFile}
      && r[CurrentFile] == FallbackDocument(date, clock.fallbackIso)
      && !r[CurrentFile].success && r[CurrentFile].data == []
      && forall p :: p in files && p != CurrentFile ==> r[p] == files[p]
  {
  }

  /** When the fallback throws as well, the current file holds either what it
      held before or the fresh snapshot (when only the backup write threw), and
      no backup appears. */
  lemma {:induction false} RunFallbackFailureKeepsFiles(files: map<string, Document>, dirs: set<string>,
                                                        date: string, query: QueryResult, faults: Faults,
                                                        clock: Clock)
    requires !PipelineSucceeds(dirs, query, faults) && !FallbackSucceeds(TryDirs(dirs, faults), faults)
    requires BackupPath(clock.backupIso) !in files
    ensures var r := RunFiles(files, dirs, date, query, faults, clock);
      && BackupPath(clock.backupIso) !in r
      && (r == files || (query.Rows? && r == files[CurrentFile := SnapshotOf(RowsOf(query), date,
                                                                           clock.snapshotIso, clock.localTime)]))
      && (CurrentFile !in files && (query.QueryError? || !EnsureSucceeds(dirs, faults.mkdir)) ==> CurrentFile !in r)
  {
    BackupIsNotCurrent(clock.backupIso);
  }

  /** The backup file appears iff the whole pipeline succeeded. */
  lemma {:induction false} BackupIffSuccess(files: map<string, Document>, dirs: set<string>, date: string,
                                            query: QueryResult, faults: Faults, clock: Clock)
    requires BackupPath(clock.backupIso) !in files
    ensures BackupPath(clock.backupIso) in RunFiles(files, dirs, date, query, faults, clock)
            <==> PipelineSucceeds(dirs, query, faults)
  {
    BackupIsNotCurrent(clock.backupIso);
  }

  const NoFaults := Faults(DirFaults(false, false), false, false, DirFaults(false, false), false)

  /** A store-query failure leaves an unsuccessful, empty current file and no
      backup, even when the file system works. */
  lemma QueryFailureExample(files: map<string, Document>, dirs: set<string>, date: string, clock: Clock)
    requires BackupPath(clock.backupIso) !in files
    ensures var r := RunFiles(files, dirs, date, QueryError("Erreur Supabase"), NoFaults, clock);
      && !r[CurrentFile].success && r[CurrentFile].data == []
      && BackupPath(clock.backupIso) !in r
  {
    BackupIsNotCurrent(clock.backupIso);
  }
}
