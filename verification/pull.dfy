/** `tasks.pull` once the tunnel is up: write the remote password file, write
    the local password file, dump, restore (decompress, then import table by
    table), clean — each step started only when the previous one resolved, and
    one `.catch` for any rejection. What each step's I/O would report is a
    parameter (the World). Removing the workspace is reached only on full
    success; a failure before the dump leaves the tunnel open. */
module Pull {
  import opened JsValues
  import Seqs
  import Processes
  import Config
  import Staging
  import Imports
  import Dump

  datatype Stage = WriteRemotePassword | WriteLocalPassword | RunDump | Decompress | Import(table: string) | Clean

  /** What the `.catch` receives: an exit code, or an I/O error object. */
  datatype Reason = ExitCode(code: int) | IoError

  datatype Outcome = Completed | Caught(reason: Reason)

  /** What the outside world reports at each step, if the step is reached.
      `globOk` is whether the search for the decompressed `.json` files resolves;
      it belongs to the decompress step, after which `files` is what it found. */
  datatype World = World(remoteWriteOk: bool, localWriteOk: bool, dumpExit: Processes.ExitStatus,
                         decompressOk: bool, globOk: bool, files: seq<string>, sidecars: Imports.Sidecars,
                         importExits: seq<Processes.ExitStatus>)

  /** The steps started, in order; the tunnel's fate; how the chain ended. */
  datatype PullRun = PullRun(stages: seq<Stage>, tunnelClosed: bool, outcome: Outcome)

  /** The run's import records. */
  function Records(s: Config.Settings, files: Staging.PasswordFiles, w: World): seq<Imports.ImportRecord> {
    Imports.ImportRecords(s, files.local, w.sidecars, w.files)
  }

  function ImportStages(recs: seq<Imports.ImportRecord>): (st: seq<Stage>)
    ensures |st| == |recs|
    ensures forall i :: 0 <= i < |st| ==> st[i] == Import(recs[i].table)
  {
    seq(|recs|, i requires 0 <= i < |recs| => Import(recs[i].table))
  }

  const Prelude: seq<Stage> := [WriteRemotePassword, WriteLocalPassword, RunDump, Decompress]

  /** Every step of a run that nothing stops. */
  function Plan(recs: seq<Imports.ImportRecord>): seq<Stage> {
    Prelude + ImportStages(recs) + [Clean]
  }

  /** The exit status step i reports, for the steps that are subprocesses. */
  function StepExit(w: World, i: nat): Option<Processes.ExitStatus> {
    if i == 2 then Some(w.dumpExit)
    else if 4 <= i < 4 + |w.importExits| then Some(w.importExits[i - 4])
    else None
  }

  /** Whether step i of the plan resolves. */
  predicate StepOk(w: World, i: nat) {
    if i == 0 then w.remoteWriteOk
    else if i == 1 then w.localWriteOk
    else if i == 3 then w.decompressOk && w.globOk
    else match StepExit(w, i)
      case Some(e) => !Processes.Failed(e)
      case None => true
  }

  /** The chain after the tunnel callback, for the run's import records. */
  function Chain(recs: seq<Imports.ImportRecord>, w: World): (r: PullRun)
    requires |w.importExits| == |recs|
    ensures Seqs.IsPrefix(r.stages, Plan(recs))
    ensures |r.stages| > 0
    ensures forall i :: 0 <= i < |r.stages| - 1 ==> StepOk(w, i)
    ensures r.outcome.Caught? ==> !StepOk(w, |r.stages| - 1)
    ensures r.outcome.Completed? <==> r.stages == Plan(recs)
    ensures r.outcome.Caught? && r.outcome.reason.ExitCode? ==>
              StepExit(w, |r.stages| - 1) == Some(Processes.Exited(r.outcome.reason.code))
    ensures r.outcome.Caught? && r.outcome.reason.IoError? ==> StepExit(w, |r.stages| - 1).None?
    ensures r.tunnelClosed <==> RunDump in r.stages
  {
    if !w.remoteWriteOk then
      PullRun([WriteRemotePassword], false, Caught(IoError))
    else if !w.localWriteOk then
      PullRun([WriteRemotePassword, WriteLocalPassword], false, Caught(IoError))
    else
      var closed := Dump.OnDumpClose(w.dumpExit, true);
      match closed.settled
      case Rejected(c) =>
        PullRun([WriteRemotePassword, WriteLocalPassword, RunDump], closed.closesTunnel, Caught(ExitCode(c)))
      case Resolved =>
        if !w.decompressOk || !w.globOk then PullRun(Prelude, closed.closesTunnel, Caught(IoError))
        else Restore(recs, w)
  }

  /** The import loop and `clean`, once the prelude has resolved. */
  function Restore(recs: seq<Imports.ImportRecord>, w: World): (r: PullRun)
    requires |w.importExits| == |recs|
    requires StepOk(w, 0) && StepOk(w, 1) && StepOk(w, 2) && StepOk(w, 3)
    ensures Seqs.IsPrefix(r.stages, Plan(recs)) && |r.stages| > 4 && r.stages[2] == RunDump
    ensures forall i :: 0 <= i < |r.stages| - 1 ==> StepOk(w, i)
    ensures r.outcome.Caught? ==> r.outcome.reason.ExitCode? && !StepOk(w, |r.stages| - 1)
    ensures r.outcome.Caught? ==> StepExit(w, |r.stages| - 1) == Some(Processes.Exited(r.outcome.reason.code))
    ensures r.outcome.Completed? <==> r.stages == Plan(recs)
    ensures r.tunnelClosed
  {
    var run := Imports.RunImports(recs, w.importExits);
    var done := Prelude + ImportStages(run.attempted);
    assert ImportStages(run.attempted) == ImportStages(recs)[..|run.attempted|];
    assert done == Plan(recs)[..|done|];
    match run.outcome
    case Rejected(c) =>
      assert Imports.FirstFailureAt(w.importExits, |run.attempted| - 1);
      assert forall i :: 4 <= i < |done| - 1 ==> StepExit(w, i) == Some(w.importExits[i - 4]);
      PullRun(done, true, Caught(ExitCode(c)))
    case Resolved =>
      assert |done + [Clean]| == |Plan(recs)|;
      PullRun(done + [Clean], true, Completed)
  }

  /** The chain for a launched run's settings and password files. */
  function RunPull(s: Config.Settings, files: Staging.PasswordFiles, w: World): PullRun
    requires |w.importExits| == |Records(s, files, w)|
  {
    Chain(Records(s, files, w), w)
  }

  /** Every step that can fail succeeds. */
  predicate AllSucceed(w: World) {
    && w.remoteWriteOk && w.localWriteOk && !Processes.Failed(w.dumpExit) && w.decompressOk && w.globOk
    && forall j :: 0 <= j < |w.importExits| ==> !Processes.Failed(w.importExits[j])
  }

  lemma {:induction false} ChainCleans(recs: seq<Imports.ImportRecord>, w: World)
    requires |w.importExits| == |recs|
    ensures Clean in Chain(recs, w).stages <==> AllSucceed(w)
  {
    var r := Chain(recs, w);
    var plan := Plan(recs);
    assert plan[|plan| - 1] == Clean;
    assert forall i :: 0 <= i < |plan| - 1 ==> plan[i] != Clean;
    if Clean in r.stages {
      var k :| 0 <= k < |r.stages| && r.stages[k] == Clean;
      assert plan[k] == Clean;
      assert StepOk(w, 0) && StepOk(w, 1) && StepOk(w, 2) && StepOk(w, 3);
      forall j | 0 <= j < |w.importExits| ensures !Processes.Failed(w.importExits[j]) {
        assert StepOk(w, j + 4);
      }
    }
    if AllSucceed(w) {
      assert forall i: nat :: i < |plan| ==> StepOk(w, i);
      assert r.outcome.Completed?;
      assert r.stages[|plan| - 1] == Clean;
    }
  }

  /** The workspace is removed (`clean` runs) exactly when both password
      files were written, the dump resolved, the archive was decompressed, its
      `.json` files were found and every import resolved. */
  lemma CleanOnlyOnSuccess(s: Config.Settings, files: Staging.PasswordFiles, w: World)
    requires |w.importExits| == |Records(s, files, w)|
    ensures var r := RunPull(s, files, w);
            Clean in r.stages <==>
              (&& w.remoteWriteOk && w.localWriteOk && !Processes.Failed(w.dumpExit) && w.decompressOk && w.globOk
               && forall j :: 0 <= j < |w.importExits| ==> !Processes.Failed(w.importExits[j]))
  {
    ChainCleans(Records(s, files, w), w);
  }

  /** A failing search for the decompressed files reaches the one `.catch` after
      the decompress step: no table is imported and the workspace stays. */
  lemma GlobFailureStops(recs: seq<Imports.ImportRecord>, w: World)
    requires |w.importExits| == |recs|
    requires w.remoteWriteOk && w.localWriteOk && !Processes.Failed(w.dumpExit) && w.decompressOk
    requires !w.globOk
    ensures var r := Chain(recs, w);
            && r.stages == Prelude
            && r.outcome == Caught(IoError)
            && r.tunnelClosed
            && Clean !in r.stages
  {
  }

  /** The tunnel is closed exactly when the dump ran, that is when both password
      files were written; the dump's exit status does not matter. */
  lemma TunnelClosedIffDumpRan(s: Config.Settings, files: Staging.PasswordFiles, w: World)
    requires |w.importExits| == |Records(s, files, w)|
    ensures RunPull(s, files, w).tunnelClosed <==> w.remoteWriteOk && w.localWriteOk
  {
    var r := RunPull(s, files, w);
    if !w.remoteWriteOk {
      assert r.stages == [WriteRemotePassword];
    } else if !w.localWriteOk {
      assert r.stages == [WriteRemotePassword, WriteLocalPassword];
    } else {
      assert r.stages[2] == RunDump;
    }
  }

  /** A failing import k stops the chain there: the stages run are the prelude
      and the imports of tables 0..k, and the catch receives k's exit code. */
  lemma ImportFailureSkipsRest(s: Config.Settings, files: Staging.PasswordFiles, w: World, k: nat)
    requires |w.importExits| == |Records(s, files, w)|
    requires w.remoteWriteOk && w.localWriteOk && !Processes.Failed(w.dumpExit) && w.decompressOk && w.globOk
    requires Imports.FirstFailureAt(w.importExits, k)
    ensures var r := RunPull(s, files, w);
            && r.stages == Plan(Records(s, files, w))[..5 + k]
            && r.outcome == Caught(ExitCode(w.importExits[k].code))
            && r.tunnelClosed
  {
    ChainImportFailure(Records(s, files, w), w, k);
  }

  lemma ChainImportFailure(recs: seq<Imports.ImportRecord>, w: World, k: nat)
    requires |w.importExits| == |recs|
    requires w.remoteWriteOk && w.localWriteOk && !Processes.Failed(w.dumpExit) && w.decompressOk && w.globOk
    requires Imports.FirstFailureAt(w.importExits, k)
    ensures var r := Chain(recs, w);
            && r.stages == Plan(recs)[..5 + k]
            && r.outcome == Caught(ExitCode(w.importExits[k].code))
            && r.tunnelClosed
  {
    Imports.FailFast(recs, w.importExits, k);
    assert Chain(recs, w) == Restore(recs, w);
  }
}
