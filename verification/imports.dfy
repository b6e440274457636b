/** `setImportArgs` and the import loop of `restore`: which exported table files
    are imported, the `rethinkdb import` argument vector built for each, and the
    one-at-a-time loop that stops at the first import that exits non-zero. The
    file list found after decompression, the sidecar files' contents and the
    imports' exit statuses are parameters. */
module Imports {
  import opened JsValues
  import Seqs
  import Paths
  import Processes
  import Config

  /** A `.info` sidecar that `fs.readJson` could open: it either fails to parse
      or yields an object whose `primary_key` is absent or a string. */
  datatype Sidecar = Unparsable | Json(primaryKey: Option<string>)

  /** The sidecar files present, by path; a path not in the map cannot be read. */
  type Sidecars = map<string, Sidecar>

  /** `path.basename(file, '.json')`: the table a data file restores. */
  function Table(file: string): (t: string)
    ensures '/' !in t
    ensures var name := Paths.LastSegment(file);
            if 5 < |name| && Paths.EndsWith(name, ".json") then t + ".json" == name else t == name
  {
    Paths.Basename(file, ".json")
  }

  /** The include-list, when non-empty, keeps exactly the files of listed tables
      and the exclude-list is not consulted; otherwise a non-empty exclude-list
      drops exactly the files of listed tables; otherwise nothing is dropped.
      Either way the order of the discovered files is kept. */
  function SelectFiles(includeTables: seq<string>, excludeTables: seq<string>, files: seq<string>): (r: seq<string>)
    ensures includeTables != [] ==> forall f :: f in r <==> f in files && Table(f) in includeTables
    ensures includeTables != [] ==> forall f :: multiset(r)[f] == if Table(f) in includeTables then multiset(files)[f] else 0
    ensures includeTables == [] && excludeTables != [] ==> forall f :: f in r <==> f in files && Table(f) !in excludeTables
    ensures includeTables == [] && excludeTables != [] ==>
              forall f :: multiset(r)[f] == if Table(f) in excludeTables then 0 else multiset(files)[f]
    ensures includeTables == [] && excludeTables == [] ==> r == files
    ensures Seqs.IsSubsequence(r, files)
  {
    if includeTables != [] then
      Seqs.FilterIsSubsequence(files, f => Table(f) in includeTables);
      Seqs.Filter(files, f => Table(f) in includeTables)
    else if excludeTables != [] then
      Seqs.FilterIsSubsequence(files, f => Table(f) !in excludeTables);
      Seqs.Filter(files, f => Table(f) !in excludeTables)
    else
      Seqs.SubsequenceReflexive(files);
      files
  }

  /** The sidecar names a primary key: it was read, it parsed, and its
      `primary_key` is truthy. */
  predicate NamesPrimaryKey(sidecars: Sidecars, infoFile: string) {
    && infoFile in sidecars
    && sidecars[infoFile].Json?
    && sidecars[infoFile].primaryKey.Some?
    && sidecars[infoFile].primaryKey.value != ""
  }

  /** The `--pkey` value the sidecar supplies, if any; a failed read or parse
      supplies none and is not an error. */
  function PrimaryKeyHint(sidecars: Sidecars, infoFile: string): (pk: Option<string>)
    ensures pk.Some? <==> NamesPrimaryKey(sidecars, infoFile)
    ensures pk.Some? ==> pk.value == sidecars[infoFile].primaryKey.value
  {
    if infoFile !in sidecars then None
    else match sidecars[infoFile]
      case Unparsable => None
      case Json(key) =>
        match key
        case None => None
        case Some(k) => if k != "" then Some(k) else None
  }

  /** What `rethinkdb import` reads from its command line. */
  datatype ImportCall = ImportCall(file: string, passwordFile: string, target: string, primaryKey: Option<string>)

  /** Reads an import command line laid out as the script lays it out. */
  function ParseImport(args: seq<string>): Option<ImportCall> {
    if |args| < 10 || args[0] != "import" || args[1] != "-f" || args[3] != "--password-file"
       || args[5] != "--table" || args[7] != "--format" || args[8] != "json"
    then None
    else if args[9..] == ["--force"] then Some(ImportCall(args[2], args[4], args[6], None))
    else if |args| == 12 && args[9] == "--pkey" && args[11] == "--force"
    then Some(ImportCall(args[2], args[4], args[6], Some(args[10])))
    else None
  }

  /** The argument vector of one import: the fixed part, then `--pkey <key>`
      when a key is known, then `--force` last. */
  function ImportArgs(file: string, passwordFile: string, target: string, pk: Option<string>): (args: seq<string>)
    ensures |args| == if pk.Some? then 12 else 10
    ensures args[..9] == ["import", "-f", file, "--password-file", passwordFile, "--table", target, "--format", "json"]
    ensures args[|args| - 1] == "--force"
    ensures ParseImport(args) == Some(ImportCall(file, passwordFile, target, pk))
  {
    var base := ["import", "-f", file, "--password-file", passwordFile, "--table", target, "--format", "json"];
    var args := (if pk.Some? then base + ["--pkey", pk.value] else base) + ["--force"];
    assert args[9..] == if pk.Some? then ["--pkey", pk.value, "--force"] else ["--force"];
    args
  }

  /** The record `setImportArgs` yields for one file: `{args, table, db}`. */
  datatype ImportRecord = ImportRecord(args: seq<string>, table: string, db: string)

  /** One file's record: the import targets `<db>.<table>`, reads the local
      password file, and carries `--pkey` exactly when the sidecar
      (`.json` replaced by `.info`) names a primary key. */
  function ImportFor(db: string, passwordFile: string, sidecars: Sidecars, file: string): (rec: ImportRecord)
    ensures rec.table == Table(file) && rec.db == db
    ensures |rec.args| == 10 || |rec.args| == 12
    ensures |rec.args| == 12 <==> NamesPrimaryKey(sidecars, Paths.InfoFile(file))
    ensures ParseImport(rec.args)
            == Some(ImportCall(file, passwordFile, db + "." + Table(file), PrimaryKeyHint(sidecars, Paths.InfoFile(file))))
  {
    var table := Table(file);
    ImportRecord(ImportArgs(file, passwordFile, db + "." + table, PrimaryKeyHint(sidecars, Paths.InfoFile(file))),
                 table, db)
  }

  /** For `<dir>/<stem>.json` whose sidecar `<dir>/<stem>.info` holds a
      non-empty `primary_key`, the import targets `<db>.<stem>` with `--pkey <key>`. */
  lemma PrimaryKeyPropagates(db: string, passwordFile: string, sidecars: Sidecars, dir: string, stem: string, key: string)
    requires '/' !in stem && stem != "" && key != ""
    requires Paths.Join(dir, stem + ".info") in sidecars
    requires sidecars[Paths.Join(dir, stem + ".info")] == Json(Some(key))
    ensures var file := Paths.Join(dir, stem + ".json");
            ParseImport(ImportFor(db, passwordFile, sidecars, file).args)
            == Some(ImportCall(file, passwordFile, db + "." + stem, Some(key)))
  {
    Paths.BasenameOfJoin(dir, stem);
    Paths.InfoFileOfJoin(dir, stem);
  }

  /** Without a readable sidecar the import of `<dir>/<stem>.json` has no `--pkey`
      and is still built. */
  lemma MissingSidecarOmitsKey(db: string, passwordFile: string, sidecars: Sidecars, dir: string, stem: string)
    requires '/' !in stem && stem != ""
    requires Paths.Join(dir, stem + ".info") !in sidecars || sidecars[Paths.Join(dir, stem + ".info")] == Unparsable
    ensures var file := Paths.Join(dir, stem + ".json");
            ParseImport(ImportFor(db, passwordFile, sidecars, file).args)
            == Some(ImportCall(file, passwordFile, db + "." + stem, None))
  {
    Paths.BasenameOfJoin(dir, stem);
    Paths.InfoFileOfJoin(dir, stem);
  }

  /** `setImportArgs(settings, files)` once the run's local password file is named:
      one record per selected file, in the selected files' order. */
  function ImportRecords(s: Config.Settings, localPasswordFile: string, sidecars: Sidecars, files: seq<string>)
    : (recs: seq<ImportRecord>)
    ensures var selected := SelectFiles(s.includeTables, s.excludeTables, files);
            && |recs| == |selected|
            && forall i :: 0 <= i < |recs| ==> recs[i] == ImportFor(Text(s.localDb), localPasswordFile, sidecars, selected[i])
  {
    var selected := SelectFiles(s.includeTables, s.excludeTables, files);
    seq(|selected|, i requires 0 <= i < |selected| => ImportFor(Text(s.localDb), localPasswordFile, sidecars, selected[i]))
  }

  /** The imports before k exited cleanly (or by signal) and import k failed. */
  predicate FirstFailureAt(exits: seq<Processes.ExitStatus>, k: int) {
    0 <= k < |exits| && Processes.Failed(exits[k]) && forall j :: 0 <= j < k ==> !Processes.Failed(exits[j])
  }

  /** The records whose imports were spawned, and how the loop settled. */
  datatype ImportRun = ImportRun(attempted: seq<ImportRecord>, outcome: Processes.Settled)

  /** Bluebird's `.each` over the records: each import is spawned only after the
      previous one resolved; the first rejection ends the loop with that exit
      code. `exits[i]` is how import i would exit if spawned. */
  function RunImports(recs: seq<ImportRecord>, exits: seq<Processes.ExitStatus>): (r: ImportRun)
    requires |exits| == |recs|
    ensures Seqs.IsPrefix(r.attempted, recs)
    ensures r.outcome.Resolved? <==> forall j :: 0 <= j < |exits| ==> !Processes.Failed(exits[j])
    ensures r.outcome.Resolved? ==> r.attempted == recs
    ensures r.outcome.Rejected? ==>
              && FirstFailureAt(exits, |r.attempted| - 1)
              && exits[|r.attempted| - 1] == Processes.Exited(r.outcome.code)
    decreases |recs|
  {
    if |recs| == 0 then ImportRun([], Processes.Resolved)
    else
      match Processes.Settle(exits[0])
      case Rejected(c) => ImportRun([recs[0]], Processes.Rejected(c))
      case Resolved =>
        var rest := RunImports(recs[1..], exits[1..]);
        assert forall j :: 0 <= j < |exits| - 1 ==> exits[1..][j] == exits[j + 1];
        assert rest.outcome.Rejected? ==> FirstFailureAt(exits, |rest.attempted|);
        ImportRun([recs[0]] + rest.attempted, rest.outcome)
  }

  /** Fail-fast: when import k is the first to fail, exactly tables 0..k were
      spawned, the loop rejects with k's exit code, and no later table is touched. */
  lemma FailFast(recs: seq<ImportRecord>, exits: seq<Processes.ExitStatus>, k: nat)
    requires |exits| == |recs|
    requires FirstFailureAt(exits, k)
    ensures RunImports(recs, exits) == ImportRun(recs[..k + 1], Processes.Rejected(exits[k].code))
  {
    var r := RunImports(recs, exits);
    assert r.outcome.Rejected?;
    assert |r.attempted| - 1 == k;
  }

  /** When every import exits cleanly, all tables are imported in order and the
      loop resolves ("Updates complete"). */
  lemma AllImported(recs: seq<ImportRecord>, exits: seq<Processes.ExitStatus>)
    requires |exits| == |recs|
    requires forall j :: 0 <= j < |exits| ==> exits[j] == Processes.Exited(0)
    ensures RunImports(recs, exits) == ImportRun(recs, Processes.Resolved)
  {
  }
}
