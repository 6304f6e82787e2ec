/** The upgrade orchestrator of src/Command/Upgrade.php as a pure function.

    Inputs: a `World` of facts the command reads from its surroundings
    (file tests, `realpath`, the `.env` values, `time()`, the manifest, the
    archive listing, the PACKAGES file), a script of yes/no answers to the
    confirmation prompts, and an oracle telling what each shell command
    yields. Output: the terminal outcome and the ordered trace of what was
    done: every shell command issued plus the file effects PHP performs
    directly (copying `.env`, rewriting `composer.json`, replacing the
    symlink). */
module Upgrade {
  import Strings
  import Runner
  import Naming
  import Unpack

  /** Which shell commands succeed (with their output) and which fail (with
      the message `RunCmd` raises). */
  type Oracle = string -> Runner.CmdResult

  /** A `repositories` entry of `composer.json`. */
  datatype Repository = Repository(kind: string, url: string)

  /** The parts of a build's `composer.json` the command touches; all other
      keys are kept as they are. A missing `repositories` key behaves as an
      empty list. */
  datatype Manifest = Manifest(version: string, repositories: seq<Repository>, other: map<string, string>)

  const PrivatePackagist := Repository("composer", "https://processmaker.repo.packagist.com/example-customer")

  /** `addPrivatePackagist` on the decoded manifest: one registry appended
      after the existing ones, nothing else changed. */
  function AddPrivatePackagist(m: Manifest): (r: Manifest)
    ensures |r.repositories| == |m.repositories| + 1
    ensures r.repositories[..|m.repositories|] == m.repositories
    ensures r.repositories[|m.repositories|] == PrivatePackagist
    ensures r.version == m.version && r.other == m.other
  {
    m.(repositories := m.repositories + [PrivatePackagist])
  }

  /** What the command finds around it. Each boolean is the answer a file
      test gives at the moment the command asks. */
  datatype World = World(
    cwd: string,                    // getcwd()
    symlinkArg: string,             // the `symlink` argument
    installExists: bool,            // file_exists(<old path>)
    installIsLink: bool,            // is_link(<old path>)
    parentReal: string,             // realpath(<old path>/../)
    envLoads: bool,                 // Dotenv loads the old build's .env
    envError: string,               // the message Dotenv raises when it does not
    env: map<string, string>,       // the old build's .env values
    primaryTime: nat,               // time() during the primary dump
    dataTime: nat,                  // time() during the DATA_ dump
    archive: string,                // the `archive` argument
    archiveIsDir: bool,             // is_dir(<archive>)
    archiveExists: bool,            // file_exists(<archive>)
    tmp: string,                    // sys_get_temp_dir()
    staleUnzipDir: bool,            // file_exists(<tmp>/pm4_unzipped) before unzipping
    staleUntarDir: bool,            // file_exists(<tmp>/pm4_untared) before untarring
    archiveOpens: bool,             // ZipArchive::open / PharData accept the archive
    tarError: string,               // the message PharData raises when it does not
    unpackedEntries: seq<string>,   // scandir(<scratch dir>, 1) after unpacking
    manifest: Manifest,             // the new build's composer.json
    targetExists: bool,             // file_exists(<target path>)
    vendorExists: bool,             // file_exists(<new path>/vendor)
    mixManifestExists: bool,        // file_exists(<new path>/public/mix-manifest.json)
    packagesFile: Naming.PackagesFile)

  /** One thing the run did, in order. */
  datatype Action =
    | Run(cmd: string)
    | CopyFile(from: string, to: string)
    | WriteManifest(path: string, manifest: Manifest)
    | RemoveLink(link: string)
    | MakeLink(target: string, link: string)

  /** How a run ends. `Done` and `Aborted` both exit successfully: the
      command ends through `ExitException` either way. `Failed` is an
      uncaught exception carrying `msg`. */
  datatype Outcome = Done | Aborted | Failed(msg: string)

  datatype Run = RunOf(outcome: Outcome, trace: seq<Action>)

  /** The state threaded through the stages: what has been done, the answers
      not yet consumed, and the new build's path and version once known. */
  datatype Ctx = Ctx(trace: seq<Action>, answers: seq<bool>, newPath: string, version: string)

  /** A stage either hands on the state or stops the run. */
  datatype Res = Go(ctx: Ctx) | Halt(outcome: Outcome, stopTrace: seq<Action>)
  {
    predicate IsFailure() { Halt? }

    function PropagateFailure(): Res
      requires Halt?
    {
      this
    }

    function Extract(): Ctx
      requires Go?
    {
      ctx
    }

    function Trace(): seq<Action>
    {
      if Go? then ctx.trace else stopTrace
    }
  }

  // ---------------------------------------------------------------------------
  // Stage contracts

  /** Every shell command in `t` succeeded. */
  predicate AllSucceed(o: Oracle, t: seq<Action>)
  {
    forall i | 0 <= i < |t| :: !t[i].Run? || o(t[i].cmd).Succeeded?
  }

  /** `t` ends with a failed command, every earlier command succeeded, and the
      run failed with that command's message. */
  predicate StopsAtFailure(o: Oracle, t: seq<Action>, out: Outcome)
  {
    && |t| > 0
    && t[|t| - 1].Run?
    && o(t[|t| - 1].cmd).CmdFailed?
    && AllSucceed(o, t[..|t| - 1])
    && out == Failed(o(t[|t| - 1].cmd).message)
  }

  /** What every stage promises: it only appends to the trace, it never ends
      the run as `Done`, and it stops at the first failing command, with that
      command's message. */
  predicate Step(o: Oracle, ctx: Ctx, r: Res)
  {
    match r
    case Go(c) =>
      && ctx.trace <= c.trace
      && (AllSucceed(o, ctx.trace) ==> AllSucceed(o, c.trace))
    case Halt(out, t) =>
      && ctx.trace <= t
      && !out.Done?
      && (AllSucceed(o, ctx.trace) ==> AllSucceed(o, t) || StopsAtFailure(o, t, out))
  }

  /** What stages after the extraction also promise: the new build's path and
      version stay as they are, and no confirmation is asked. */
  predicate Later(ctx: Ctx, r: Res)
  {
    && (r.Go? ==> r.ctx.newPath == ctx.newPath && r.ctx.version == ctx.version && r.ctx.answers == ctx.answers)
    && (r.Halt? ==> r.outcome.Failed?)
  }

  /** Every shell command succeeds. */
  ghost predicate Reliable(o: Oracle)
  {
    forall c :: o(c).Succeeded?
  }

  /** Stage contracts compose: a stage that hands on the state followed by
      any stage is again a stage. */
  lemma StepThen(o: Oracle, c0: Ctx, c1: Ctx, r: Res)
    requires Step(o, c0, Go(c1)) && Step(o, c1, r)
    ensures Step(o, c0, r)
  {
  }

  lemma LaterThen(c0: Ctx, c1: Ctx, r: Res)
    requires Later(c0, Go(c1)) && Later(c1, r)
    ensures Later(c0, r)
  {
  }

  // ---------------------------------------------------------------------------
  // Primitives

  /** `cmd`: the command is issued; a runner failure becomes a fatal error
      carrying the runner's message. */
  function Cmd(o: Oracle, c: string, ctx: Ctx): (r: Res)
    ensures Step(o, ctx, r) && Later(ctx, r)
    ensures r.Trace() == ctx.trace + [Run(c)]
    ensures r.Go? <==> o(c).Succeeded?
    ensures r.Halt? ==> r.outcome == Failed(o(c).message)
  {
    var t := ctx.trace + [Run(c)];
    match o(c)
    case Succeeded(_) => Go(ctx.(trace := t))
    case CmdFailed(m) =>
      assert t[..|t| - 1] == ctx.trace;
      Halt(Failed(m), t)
  }

  function RepoLine(newPath: string, c: string): string
  {
    "cd " + newPath + " && " + c
  }

  function ArtisanLine(newPath: string, c: string): string
  {
    RepoLine(newPath, "php artisan " + c)
  }

  /** `repoCmd`: a command run inside the new build. */
  function RepoCmd(o: Oracle, c: string, ctx: Ctx): (r: Res)
    ensures Step(o, ctx, r) && Later(ctx, r)
    ensures r.Trace() == ctx.trace + [Run(RepoLine(ctx.newPath, c))]
    ensures Reliable(o) ==> r.Go?
  {
    Cmd(o, RepoLine(ctx.newPath, c), ctx)
  }

  /** `artisan`: an artisan subcommand run inside the new build. */
  function Artisan(o: Oracle, c: string, ctx: Ctx): (r: Res)
    ensures Step(o, ctx, r) && Later(ctx, r)
    ensures r.Trace() == ctx.trace + [Run(ArtisanLine(ctx.newPath, c))]
    ensures Reliable(o) ==> r.Go?
  {
    RepoCmd(o, "php artisan " + c, ctx)
  }

  function ArtisanRuns(newPath: string, cmds: seq<string>): (t: seq<Action>)
    ensures |t| == |cmds|
  {
    if |cmds| == 0 then [] else [Run(ArtisanLine(newPath, cmds[0]))] + ArtisanRuns(newPath, cmds[1..])
  }

  /** A `foreach` over artisan subcommands: they run in order, and the first
      failure stops the run. */
  function ArtisanEach(o: Oracle, cmds: seq<string>, ctx: Ctx): (r: Res)
    ensures Step(o, ctx, r) && Later(ctx, r)
    ensures r.Go? ==> r.ctx.trace == ctx.trace + ArtisanRuns(ctx.newPath, cmds)
    ensures r.Trace() <= ctx.trace + ArtisanRuns(ctx.newPath, cmds)
    ensures Reliable(o) ==> r.Go?
    decreases |cmds|
  {
    if |cmds| == 0 then Go(ctx)
    else
      var first := [Run(ArtisanLine(ctx.newPath, cmds[0]))];
      var rest := ArtisanRuns(ctx.newPath, cmds[1..]);
      assert ArtisanRuns(ctx.newPath, cmds) == first + rest;
      SeqAssoc(ctx.trace, first, rest);
      var a := Artisan(o, cmds[0], ctx);
      if a.Halt? then a
      else
        var c := a.ctx;
        assert c.newPath == ctx.newPath && c.trace == ctx.trace + first;
        var r := ArtisanEach(o, cmds[1..], c);
        StepThen(o, ctx, c, r);
        LaterThen(ctx, c, r);
        r
  }

  /** `error`: an uncaught exception. The run stops where it is, does nothing
      more, and fails with `msg`. */
  function Error(msg: string, ctx: Ctx): (r: Res)
    ensures r.IsFailure() && r.Trace() == ctx.trace
    ensures r.outcome == Failed(msg) && Later(ctx, r)
  {
    Halt(Failed(msg), ctx.trace)
  }

  /** `exit`: the clean stop. The run does nothing more and ends through
      `ExitException`, which `execute` turns into success without the run
      having finished. */
  function Exit(ctx: Ctx): (r: Res)
    ensures r.IsFailure() && r.Trace() == ctx.trace
    ensures !r.outcome.Failed? && !r.outcome.Done?
  {
    Halt(Aborted, ctx.trace)
  }

  /** `confirm`: the next scripted answer, "no" once the script is exhausted
      (the question's default). Each question consumes one answer, so the
      `i`-th question reads the `i`-th answer; asking changes nothing else. */
  function Confirm(ctx: Ctx): (r: (bool, Ctx))
    ensures r.0 == Answer(ctx.answers, 0)
    ensures forall i: nat :: Answer(r.1.answers, i) == Answer(ctx.answers, i + 1)
    ensures |ctx.answers| > 0 ==> |r.1.answers| == |ctx.answers| - 1
    ensures r.1.trace == ctx.trace && r.1.newPath == ctx.newPath && r.1.version == ctx.version
  {
    if |ctx.answers| == 0 then (false, ctx) else (ctx.answers[0], ctx.(answers := ctx.answers[1..]))
  }

  // ---------------------------------------------------------------------------
  // Paths and command lines

  function OldPath(w: World): string
  {
    w.cwd + "/" + w.symlinkArg
  }

  function ExtractPath(w: World): string { w.tmp + "/pm4_extracted" }
  function UnzipDir(w: World): string { w.tmp + "/pm4_unzipped" }
  function UntarDir(w: World): string { w.tmp + "/pm4_untared" }

  function TargetPath(w: World): string
  {
    Naming.TargetPath(w.parentReal, Strings.Basename(OldPath(w)), w.manifest.version)
  }

  /** Where the new build lives once the archive has been dealt with. */
  function NewBuildPath(w: World): string
  {
    if w.archiveIsDir then w.archive else TargetPath(w)
  }

  function DownOldLine(w: World): string
  {
    "cd " + OldPath(w) + " && php artisan down --message=\"Upgrade in process\""
  }

  function DumpLine(w: World, prefix: string, time: nat): string
  {
    var env := w.env;
    var database := Naming.EnvLookup(env, prefix + "DB_DATABASE");
    var output := Naming.BackupPath(w.parentReal, Strings.Basename(OldPath(w)), prefix, database, time);
    "mysqldump -u " + Naming.EnvLookup(env, prefix + "DB_USERNAME")
      + " -p'" + Naming.EnvLookup(env, prefix + "DB_PASSWORD")
      + "' -h " + Naming.EnvLookup(env, prefix + "DB_HOSTNAME")
      + " -P " + Naming.EnvLookup(env, prefix + "DB_PORT")
      + " " + database + " > " + output
  }

  /** The commands every run that gets past the path checks starts with:
      the old build goes down, then both databases are dumped. */
  function Prelude(w: World): seq<Action>
  {
    [Run(DownOldLine(w))] + Dumps(w)
  }

  function MoveLine(w: World, tempDir: string): string
  {
    "mv " + Unpack.DirToMove(tempDir, w.unpackedEntries) + " " + ExtractPath(w)
  }

  function CopyLine(w: World): string
  {
    "cp -r " + ExtractPath(w) + " " + TargetPath(w)
  }

  /** Every command the unpacking of an archive may issue. */
  function UnpackLines(w: World): set<string>
  {
    { "rm -rf " + ExtractPath(w), "rm -rf " + UnzipDir(w), "rm -rf " + UntarDir(w),
      MoveLine(w, UnzipDir(w)), MoveLine(w, UntarDir(w)) }
  }

  /** Only commands from `lines` were added after `before`. */
  ghost predicate OnlyRuns(t: seq<Action>, before: nat, lines: set<string>)
  {
    forall i | before <= i < |t| :: t[i].Run? && t[i].cmd in lines
  }

  // ---------------------------------------------------------------------------
  // Stages, in the order `call` runs them

  /** The two path checks on the installation, before anything is run. */
  function Validate(w: World, ctx: Ctx): (r: Res)
    ensures r.Trace() == ctx.trace
    ensures r.Go? <==> w.installExists && w.installIsLink
    ensures r.Go? ==> r.ctx == ctx
    ensures !w.installExists ==> r.Halt? && r.outcome == Failed("Folder not found: " + OldPath(w))
    ensures w.installExists && !w.installIsLink ==> r.Halt? && r.outcome == Failed("Folder not a symlink: " + OldPath(w))
  {
    if !w.installExists then Error("Folder not found: " + OldPath(w), ctx)
    else if !w.installIsLink then Error("Folder not a symlink: " + OldPath(w), ctx)
    else Go(ctx)
  }

  /** `maintenanceMode` then `backupMysql`: the old build goes down, then the
      primary and the `DATA_` database are dumped. When Dotenv cannot load
      the old build's `.env`, the run fails with Dotenv's message and the old
      build stays down. */
  function PrepareOld(w: World, o: Oracle, ctx: Ctx): (r: Res)
    ensures Step(o, ctx, r) && Later(ctx, r)
    ensures r.Go? ==> w.envLoads && r.ctx.trace == ctx.trace + Prelude(w)
    ensures r.Trace() <= ctx.trace + Prelude(w)
    ensures !w.envLoads && o(DownOldLine(w)).Succeeded? ==>
      r == Halt(Failed(w.envError), ctx.trace + [Run(DownOldLine(w))])
    ensures Reliable(o) && w.envLoads ==> r.Go?
  {
    var down := Run(DownOldLine(w));
    var dumps := Dumps(w);
    assert Prelude(w) == [down] + dumps;
    var e := Cmd(o, down.cmd, ctx);
    if e.Halt? then
      PrefixGrows(e.Trace(), ctx.trace, [down], dumps);
      e
    else
      var c1 := e.ctx;
      var r := BackupMysql(w, o, c1);
      StepThen(o, ctx, c1, r);
      LaterThen(ctx, c1, r);
      SeqAssoc(ctx.trace, [down], dumps);
      r
  }

  /** The two dumps of `backupMysql`, the primary database first. */
  function Dumps(w: World): seq<Action>
  {
    [Run(DumpLine(w, "", w.primaryTime)), Run(DumpLine(w, "DATA_", w.dataTime))]
  }

  /** `backupMysql`: both databases are dumped with the credentials of the
      old build's `.env`, which Dotenv must load first. */
  function BackupMysql(w: World, o: Oracle, ctx: Ctx): (r: Res)
    ensures Step(o, ctx, r) && Later(ctx, r)
    ensures r.Go? ==> w.envLoads && r.ctx.trace == ctx.trace + Dumps(w)
    ensures r.Trace() <= ctx.trace + Dumps(w)
    ensures !w.envLoads ==> r == Halt(Failed(w.envError), ctx.trace)
    ensures Reliable(o) && w.envLoads ==> r.Go?
  {
    if !w.envLoads then Error(w.envError, ctx)
    else
      var e := Cmd(o, DumpLine(w, "", w.primaryTime), ctx);
      if e.Halt? then e
      else
        var c1 := e.ctx;
        var r := Cmd(o, DumpLine(w, "DATA_", w.dataTime), c1);
        StepThen(o, ctx, c1, r);
        r
  }

  /** Exactly one visible entry was unpacked: a wrapper folder is moved out
      of the scratch directory, which is therefore still there afterwards. */
  predicate WrapperMoved(w: World)
  {
    |Unpack.Visibles(w.unpackedEntries)| == 1
  }

  /** What unpacking through the scratch directory `tempDir` does when every
      step goes through: a stale scratch directory is removed, the unpacked
      tree is moved to the extract path, and the scratch directory is removed
      if a wrapper was moved out of it. */
  function ScratchActions(w: World, tempDir: string, stale: bool): seq<Action>
  {
    StaleActions(tempDir, stale)
    + [Run(MoveLine(w, tempDir))]
    + (if WrapperMoved(w) then [Run("rm -rf " + tempDir)] else [])
  }

  /** The removal of a stale scratch directory, if there is one. */
  function StaleActions(tempDir: string, stale: bool): seq<Action>
  {
    if stale then [Run("rm -rf " + tempDir)] else []
  }

  /** A stale scratch directory puts its removal in front of the rest. */
  lemma ScratchStale(w: World, tempDir: string, stale: bool)
    ensures ScratchActions(w, tempDir, stale) == StaleActions(tempDir, stale) + ScratchActions(w, tempDir, false)
  {
    assert StaleActions(tempDir, false) == [];
  }

  /** The archive's name ends in `.zip` or `.tar.gz`. */
  predicate KnownArchive(w: World)
  {
    Strings.EndsWith(w.archive, ".zip") || Strings.EndsWith(w.archive, ".tar.gz")
  }

  /** What unpacking the archive does when every step goes through: the
      extract path is cleared, then a `.zip` goes through `pm4_unzipped` and
      anything else (a `.tar.gz`) through `pm4_untared`. */
  function UnpackPlan(w: World): seq<Action>
  {
    [Run("rm -rf " + ExtractPath(w))] + ArchivePlan(w)
  }

  /** The part of `UnpackPlan` that depends on the extension. */
  function ArchivePlan(w: World): seq<Action>
  {
    if Strings.EndsWith(w.archive, ".zip") then ScratchActions(w, UnzipDir(w), w.staleUnzipDir)
    else ScratchActions(w, UntarDir(w), w.staleUntarDir)
  }

  /** `moveToExtractPath`: the wrapper (or the scratch directory) is moved to
      the extract path, and the scratch directory is removed if it is still
      there, which it is exactly when only its wrapper was moved out. */
  function MoveToExtractPath(w: World, o: Oracle, tempDir: string, ctx: Ctx): (r: Res)
    ensures Step(o, ctx, r) && Later(ctx, r)
    ensures OnlyRuns(r.Trace(), |ctx.trace|, {MoveLine(w, tempDir), "rm -rf " + tempDir})
    ensures |r.Trace()| > |ctx.trace| && r.Trace()[|ctx.trace|] == Run(MoveLine(w, tempDir))
    ensures r.Go? ==> r.ctx.trace == ctx.trace + ScratchActions(w, tempDir, false)
    ensures r.Trace() <= ctx.trace + ScratchActions(w, tempDir, false)
    ensures Reliable(o) ==> r.Go?
  {
    var dir := Unpack.DirToMove(tempDir, w.unpackedEntries);
    assert dir != tempDir <==> WrapperMoved(w);
    var c1 :- Cmd(o, MoveLine(w, tempDir), ctx);
    if dir != tempDir then Cmd(o, "rm -rf " + tempDir, c1) else Go(c1)
  }

  /** `unZip`: a stale scratch directory is removed, the archive is opened
      (an unreadable one is a fatal error) and unpacked, then moved. */
  function UnZip(w: World, o: Oracle, ctx: Ctx): (r: Res)
    ensures Step(o, ctx, r) && Later(ctx, r)
    ensures OnlyRuns(r.Trace(), |ctx.trace|, {MoveLine(w, UnzipDir(w)), "rm -rf " + UnzipDir(w)})
    ensures r.Go? ==> w.archiveOpens && r.ctx.trace == ctx.trace + ScratchActions(w, UnzipDir(w), w.staleUnzipDir)
    ensures r.Trace() <= ctx.trace + ScratchActions(w, UnzipDir(w), w.staleUnzipDir)
    ensures !w.archiveOpens && (w.staleUnzipDir ==> o("rm -rf " + UnzipDir(w)).Succeeded?) ==>
      r == Halt(Failed("Error unzipping " + w.archive + " to " + UnzipDir(w)),
                ctx.trace + if w.staleUnzipDir then [Run("rm -rf " + UnzipDir(w))] else [])
    ensures Reliable(o) && w.archiveOpens ==> r.Go?
  {
    var tempDir := UnzipDir(w);
    var stale := StaleActions(tempDir, w.staleUnzipDir);
    ScratchStale(w, tempDir, w.staleUnzipDir);
    var e1 := if w.staleUnzipDir then Cmd(o, "rm -rf " + tempDir, ctx) else Go(ctx);
    if e1.Halt? then
      PrefixGrows(e1.Trace(), ctx.trace, stale, ScratchActions(w, tempDir, false));
      e1
    else if !w.archiveOpens then
      PrefixGrows(e1.Trace(), ctx.trace, stale, ScratchActions(w, tempDir, false));
      Error("Error unzipping " + w.archive + " to " + tempDir, e1.ctx)
    else
      var c1 := e1.ctx;
      var r := MoveToExtractPath(w, o, tempDir, c1);
      StepThen(o, ctx, c1, r);
      SeqAssoc(ctx.trace, stale, ScratchActions(w, tempDir, false));
      r
  }

  /** `unTar`: as `unZip`, with PharData's own exception when the archive
      cannot be read. */
  function UnTar(w: World, o: Oracle, ctx: Ctx): (r: Res)
    ensures Step(o, ctx, r) && Later(ctx, r)
    ensures OnlyRuns(r.Trace(), |ctx.trace|, {MoveLine(w, UntarDir(w)), "rm -rf " + UntarDir(w)})
    ensures r.Go? ==> w.archiveOpens && r.ctx.trace == ctx.trace + ScratchActions(w, UntarDir(w), w.staleUntarDir)
    ensures r.Trace() <= ctx.trace + ScratchActions(w, UntarDir(w), w.staleUntarDir)
    ensures !w.archiveOpens && (w.staleUntarDir ==> o("rm -rf " + UntarDir(w)).Succeeded?) ==>
      r == Halt(Failed(w.tarError), ctx.trace + if w.staleUntarDir then [Run("rm -rf " + UntarDir(w))] else [])
    ensures Reliable(o) && w.archiveOpens ==> r.Go?
  {
    var tempDir := UntarDir(w);
    var stale := StaleActions(tempDir, w.staleUntarDir);
    ScratchStale(w, tempDir, w.staleUntarDir);
    var e1 := if w.staleUntarDir then Cmd(o, "rm -rf " + tempDir, ctx) else Go(ctx);
    if e1.Halt? then
      PrefixGrows(e1.Trace(), ctx.trace, stale, ScratchActions(w, tempDir, false));
      e1
    else if !w.archiveOpens then
      PrefixGrows(e1.Trace(), ctx.trace, stale, ScratchActions(w, tempDir, false));
      Error(w.tarError, e1.ctx)
    else
      var c1 := e1.ctx;
      var r := MoveToExtractPath(w, o, tempDir, c1);
      StepThen(o, ctx, c1, r);
      SeqAssoc(ctx.trace, stale, ScratchActions(w, tempDir, false));
      r
  }

  /** The `i`-th scripted answer, "no" past the end of the script. */
  function Answer(answers: seq<bool>, i: nat): bool
  {
    i < |answers| && answers[i]
  }

  /** The script says no to the version, or to the overwrite when it is asked. */
  predicate Declined(answers: seq<bool>, targetExists: bool)
  {
    !Answer(answers, 0) || (targetExists && !Answer(answers, 1))
  }

  lemma OnlyRunsThen(t1: seq<Action>, t2: seq<Action>, n: nat, a: set<string>, b: set<string>)
    requires n <= |t1| && t1 <= t2
    requires OnlyRuns(t1, n, a) && OnlyRuns(t2, |t1|, b)
    ensures OnlyRuns(t2, n, a + b)
  {
    forall i | n <= i < |t2|
      ensures t2[i].Run? && t2[i].cmd in a + b
    {
      if i < |t1| {
        assert t2[i] == t1[i];
      }
    }
  }

  /** The choice of unpacker by the archive's extension: `.zip` is tried
      before `.tar.gz`, and any other name is a fatal error. */
  function UnpackByExtension(w: World, o: Oracle, ctx: Ctx): (r: Res)
    ensures Step(o, ctx, r) && Later(ctx, r)
    ensures OnlyRuns(r.Trace(), |ctx.trace|, UnpackLines(w))
    ensures Strings.EndsWith(w.archive, ".zip") ==>
      OnlyRuns(r.Trace(), |ctx.trace|, {MoveLine(w, UnzipDir(w)), "rm -rf " + UnzipDir(w)})
    ensures !Strings.EndsWith(w.archive, ".zip") && Strings.EndsWith(w.archive, ".tar.gz") ==>
      OnlyRuns(r.Trace(), |ctx.trace|, {MoveLine(w, UntarDir(w)), "rm -rf " + UntarDir(w)})
    ensures r.Go? ==>
      && KnownArchive(w) && w.archiveOpens
      && r.ctx.trace == ctx.trace + ArchivePlan(w)
    ensures r.Trace() <= ctx.trace + ArchivePlan(w)
    ensures Reliable(o) && KnownArchive(w) && w.archiveOpens ==> r.Go?
    ensures !KnownArchive(w) ==> r == Halt(Failed("Unknown file extension " + w.archive), ctx.trace)
  {
    if Strings.EndsWith(w.archive, ".zip") then UnZip(w, o, ctx)
    else if Strings.EndsWith(w.archive, ".tar.gz") then UnTar(w, o, ctx)
    else Error("Unknown file extension " + w.archive, ctx)
  }

  /** The archive branch of `extractRepo` up to the unpacked build: the
      extract path is cleared first, then `.zip` is tried before `.tar.gz`,
      each with its own scratch directory, and any other name is a fatal
      error. */
  function UnpackArchive(w: World, o: Oracle, ctx: Ctx): (r: Res)
    ensures Step(o, ctx, r) && Later(ctx, r)
    ensures OnlyRuns(r.Trace(), |ctx.trace|, UnpackLines(w))
    ensures |r.Trace()| > |ctx.trace| && r.Trace()[|ctx.trace|] == Run("rm -rf " + ExtractPath(w))
    ensures Strings.EndsWith(w.archive, ".zip") ==>
      OnlyRuns(r.Trace(), |ctx.trace| + 1, {MoveLine(w, UnzipDir(w)), "rm -rf " + UnzipDir(w)})
    ensures !Strings.EndsWith(w.archive, ".zip") && Strings.EndsWith(w.archive, ".tar.gz") ==>
      OnlyRuns(r.Trace(), |ctx.trace| + 1, {MoveLine(w, UntarDir(w)), "rm -rf " + UntarDir(w)})
    ensures r.Go? ==> KnownArchive(w) && w.archiveOpens && r.ctx.trace == ctx.trace + UnpackPlan(w)
    ensures r.Trace() <= ctx.trace + UnpackPlan(w)
    ensures Reliable(o) && KnownArchive(w) && w.archiveOpens ==> r.Go?
    ensures o("rm -rf " + ExtractPath(w)).Succeeded?
            && !Strings.EndsWith(w.archive, ".zip") && !Strings.EndsWith(w.archive, ".tar.gz")
        ==> r == Halt(Failed("Unknown file extension " + w.archive), ctx.trace + [Run("rm -rf " + ExtractPath(w))])
  {
    var c1 :- Cmd(o, "rm -rf " + ExtractPath(w), ctx);
    var r := UnpackByExtension(w, o, c1);
    SeqAssoc(ctx.trace, [Run("rm -rf " + ExtractPath(w))], ArchivePlan(w));
    StepThen(o, ctx, c1, r);
    LaterThen(ctx, c1, r);
    OnlyRunsThen(c1.trace, r.Trace(), |ctx.trace|, {"rm -rf " + ExtractPath(w)}, UnpackLines(w));
    assert r.Trace()[|ctx.trace|] == c1.trace[|ctx.trace|];
    r
  }

  /** The answers are read in order: the version prompt takes the first, the
      overwrite prompt (asked only when the target exists) the second. */
  function PlaceBuild(w: World, o: Oracle, ctx: Ctx): (r: Res)
    ensures Step(o, ctx, r)
    ensures r.Go? ==> r.ctx.newPath == TargetPath(w) && r.ctx.version == w.manifest.version
    ensures r.Go? ==> r.ctx.trace == ctx.trace + [Run("rm -rf " + TargetPath(w)), Run(CopyLine(w))]
    ensures r.Trace() <= ctx.trace + [Run("rm -rf " + TargetPath(w)), Run(CopyLine(w))]
    ensures r.Halt? && r.outcome.Aborted? <==> Declined(ctx.answers, w.targetExists)
    ensures r.Halt? && r.outcome.Aborted? ==> r.stopTrace == ctx.trace
    ensures Reliable(o) && !Declined(ctx.answers, w.targetExists) ==> r.Go?
  {
    var version := w.manifest.version;
    var (proceed, c1) := Confirm(ctx);
    if !proceed then Exit(c1)
    else
      var newPath := TargetPath(w);
      var (overwrite, c2) := if w.targetExists then Confirm(c1) else (true, c1);
      if !overwrite then Exit(c2)
      else
        var c3 :- Cmd(o, "rm -rf " + newPath, c2.(newPath := newPath, version := version));
        Cmd(o, CopyLine(w), c3)
  }

  /** What `extractRepo` adds to the trace when it hands on: nothing for a
      directory; for an archive, the unpacking, then clearing the target and
      copying the extracted build there. */
  function ExtractActions(w: World): seq<Action>
  {
    if w.archiveIsDir then []
    else UnpackPlan(w) + [Run("rm -rf " + TargetPath(w)), Run(CopyLine(w))]
  }

  /** Nothing but a failing command can stop the extraction: the argument is
      a directory, or an existing, readable `.zip` or `.tar.gz` archive whose
      version the operator accepts (and the overwrite, when asked). */
  predicate Proceeds(w: World, answers: seq<bool>)
  {
    || w.archiveIsDir
    || (w.archiveExists && KnownArchive(w) && w.archiveOpens && !Declined(answers, w.targetExists))
  }

  /** `extractRepo`. A directory is used as it is, with no confirmation; a
      missing archive is a fatal error; otherwise the archive is unpacked and
      placed at the target path once the operator agrees. */
  function ExtractRepo(w: World, o: Oracle, ctx: Ctx): (r: Res)
    ensures Step(o, ctx, r)
    ensures r.Go? ==> r.ctx.newPath == NewBuildPath(w) && r.ctx.version == w.manifest.version
    ensures w.archiveIsDir ==> r == Go(ctx.(newPath := w.archive, version := w.manifest.version))
    ensures !w.archiveIsDir && !w.archiveExists ==> r == Halt(Failed("Archive not found: " + w.archive), ctx.trace)
    ensures !w.archiveIsDir && w.archiveExists && o("rm -rf " + ExtractPath(w)).Succeeded?
            && !Strings.EndsWith(w.archive, ".zip") && !Strings.EndsWith(w.archive, ".tar.gz")
        ==> r == Halt(Failed("Unknown file extension " + w.archive), ctx.trace + [Run("rm -rf " + ExtractPath(w))])
    ensures r.Halt? && r.outcome.Aborted? ==>
      && !w.archiveIsDir
      && Declined(ctx.answers, w.targetExists)
      && OnlyRuns(r.stopTrace, |ctx.trace|, UnpackLines(w))
    ensures r.Go? ==> r.ctx.trace == ctx.trace + ExtractActions(w)
    ensures r.Trace() <= ctx.trace + ExtractActions(w)
    ensures Reliable(o) && Proceeds(w, ctx.answers) ==> r.Go?
  {
    if w.archiveIsDir then
      Go(ctx.(newPath := w.archive, version := w.manifest.version))
    else if !w.archiveExists then
      Error("Archive not found: " + w.archive, ctx)
    else
      ExtractArchive(w, o, ctx)
  }

  /** The archive branch of `extractRepo`: unpack, then confirm and copy. */
  function ExtractArchive(w: World, o: Oracle, ctx: Ctx): (r: Res)
    ensures Step(o, ctx, r)
    ensures r.Go? ==> r.ctx.newPath == TargetPath(w) && r.ctx.version == w.manifest.version
    ensures o("rm -rf " + ExtractPath(w)).Succeeded?
            && !Strings.EndsWith(w.archive, ".zip") && !Strings.EndsWith(w.archive, ".tar.gz")
        ==> r == Halt(Failed("Unknown file extension " + w.archive), ctx.trace + [Run("rm -rf " + ExtractPath(w))])
    ensures r.Halt? && r.outcome.Aborted? ==>
      && Declined(ctx.answers, w.targetExists)
      && OnlyRuns(r.stopTrace, |ctx.trace|, UnpackLines(w))
    ensures r.Go? ==>
      r.ctx.trace == ctx.trace + (UnpackPlan(w) + [Run("rm -rf " + TargetPath(w)), Run(CopyLine(w))])
    ensures r.Trace() <= ctx.trace + (UnpackPlan(w) + [Run("rm -rf " + TargetPath(w)), Run(CopyLine(w))])
    ensures Reliable(o) && KnownArchive(w) && w.archiveOpens && !Declined(ctx.answers, w.targetExists) ==> r.Go?
  {
    var c1 :- UnpackArchive(w, o, ctx);
    assert c1.answers == ctx.answers;
    var r := PlaceBuild(w, o, c1);
    StepThen(o, ctx, c1, r);
    SeqAssoc(ctx.trace, UnpackPlan(w), [Run("rm -rf " + TargetPath(w)), Run(CopyLine(w))]);
    r
  }

  /** Appends an effect PHP performs itself; these never stop the run. */
  function Do(o: Oracle, a: Action, ctx: Ctx): (r: Res)
    requires !a.Run?
    ensures Step(o, ctx, r) && Later(ctx, r)
    ensures r == Go(ctx.(trace := ctx.trace + [a]))
  {
    Go(ctx.(trace := ctx.trace + [a]))
  }

  /** `copyEnv`: the old build's `.env` is copied into the new build. */
  function CopyEnv(w: World, o: Oracle, ctx: Ctx): (r: Res)
    ensures Step(o, ctx, r) && Later(ctx, r)
    ensures r == Go(ctx.(trace := ctx.trace + [CopyFile(OldPath(w) + "/.env", ctx.newPath + "/.env")]))
  {
    Do(o, CopyFile(OldPath(w) + "/.env", ctx.newPath + "/.env"), ctx)
  }

  /** `addPrivatePackagist`: the new build's manifest is rewritten with the
      private registry appended. */
  function WritePrivatePackagist(w: World, o: Oracle, ctx: Ctx): (r: Res)
    ensures Step(o, ctx, r) && Later(ctx, r)
    ensures r == Go(ctx.(trace := ctx.trace + [WriteManifest(ctx.newPath + "/composer.json", AddPrivatePackagist(w.manifest))]))
    ensures r.ctx.trace[|ctx.trace|].manifest.repositories == w.manifest.repositories + [PrivatePackagist]
  {
    Do(o, WriteManifest(ctx.newPath + "/composer.json", AddPrivatePackagist(w.manifest)), ctx)
  }

  /** `composerInstall`: skipped when `vendor` is already there. */
  function ComposerInstall(w: World, o: Oracle, ctx: Ctx): (r: Res)
    ensures Step(o, ctx, r) && Later(ctx, r)
    ensures w.vendorExists ==> r == Go(ctx)
    ensures !w.vendorExists ==> r.Trace() == ctx.trace + [Run(RepoLine(ctx.newPath, "composer install"))]
    ensures r.Trace() == ctx.trace + ComposerActions(w, ctx.newPath)
    ensures Reliable(o) ==> r.Go?
  {
    if w.vendorExists then Go(ctx) else RepoCmd(o, "composer install", ctx)
  }

  /** `updateI18Next`: only for the legacy release. */
  function UpdateI18Next(o: Oracle, ctx: Ctx): (r: Res)
    ensures Step(o, ctx, r) && Later(ctx, r)
    ensures !Naming.IsLegacy(ctx.version) ==> r == Go(ctx)
    ensures Naming.IsLegacy(ctx.version) ==>
      r.Trace() == ctx.trace + [Run(RepoLine(ctx.newPath, "composer update processmaker/laravel-i18next"))]
    ensures r.Trace() == ctx.trace + I18NextActions(ctx.newPath, ctx.version)
    ensures Reliable(o) ==> r.Go?
  {
    if Naming.IsLegacy(ctx.version) then RepoCmd(o, "composer update processmaker/laravel-i18next", ctx)
    else Go(ctx)
  }

  /** `copyStorage`: the old storage is copied over and linked. */
  function CopyStorage(w: World, o: Oracle, ctx: Ctx): (r: Res)
    ensures Step(o, ctx, r) && Later(ctx, r)
    ensures r.Go? ==>
      r.ctx.trace == ctx.trace + [Run("rsync -a " + OldPath(w) + "/storage/* " + ctx.newPath + "/storage/"),
                                  Run(ArtisanLine(ctx.newPath, "storage:link"))]
    ensures r.Trace() <= ctx.trace + StorageActions(w, ctx.newPath)
    ensures Reliable(o) ==> r.Go?
  {
    var c1 :- Cmd(o, "rsync -a " + OldPath(w) + "/storage/* " + ctx.newPath + "/storage/", ctx);
    var r := Artisan(o, "storage:link", c1);
    StepThen(o, ctx, c1, r);
    r
  }

  /** `installBasePackages`: the fixed install subcommands in order, then
      horizon's legacy or current initialisation. */
  function InstallBasePackages(o: Oracle, ctx: Ctx): (r: Res)
    ensures Step(o, ctx, r) && Later(ctx, r)
    ensures r.Go? ==>
      r.ctx.trace == ctx.trace + ArtisanRuns(ctx.newPath, Naming.BasePackageInstall + [Naming.HorizonCommand(ctx.version)])
    ensures r.Trace() <= ctx.trace + ArtisanRuns(ctx.newPath, Naming.BasePackageInstall + [Naming.HorizonCommand(ctx.version)])
    ensures Reliable(o) ==> r.Go?
  {
    ArtisanEach(o, Naming.BasePackageInstall + [Naming.HorizonCommand(ctx.version)], ctx)
  }

  /** `installPrivatePackages`: one `composer require` naming every package
      of the PACKAGES file in order (issued even when there are none), then
      one `<name>:install` per package in the same order. */
  function InstallPrivatePackages(w: World, o: Oracle, ctx: Ctx): (r: Res)
    ensures Step(o, ctx, r) && Later(ctx, r)
    ensures var names := Naming.PrivatePackages(w.packagesFile);
      && |r.Trace()| > |ctx.trace|
      && r.Trace()[|ctx.trace|] == Run(RepoLine(ctx.newPath, "composer require " + Naming.RequireArgs(ctx.version, names)))
      && (r.Go? ==>
            r.ctx.trace == ctx.trace
              + [Run(RepoLine(ctx.newPath, "composer require " + Naming.RequireArgs(ctx.version, names)))]
              + ArtisanRuns(ctx.newPath, Naming.InstallCommands(names)))
      && r.Trace() <= ctx.trace
           + [Run(RepoLine(ctx.newPath, "composer require " + Naming.RequireArgs(ctx.version, names)))]
           + ArtisanRuns(ctx.newPath, Naming.InstallCommands(names))
    ensures Reliable(o) ==> r.Go?
  {
    var names := Naming.PrivatePackages(w.packagesFile);
    var c1 :- RepoCmd(o, "composer require " + Naming.RequireArgs(ctx.version, names), ctx);
    var r := ArtisanEach(o, Naming.InstallCommands(names), c1);
    StepThen(o, ctx, c1, r);
    LaterThen(ctx, c1, r);
    r
  }

  /** `installJavascriptAssets`: skipped when the mix manifest is already there. */
  function InstallJavascriptAssets(w: World, o: Oracle, ctx: Ctx): (r: Res)
    ensures Step(o, ctx, r) && Later(ctx, r)
    ensures w.mixManifestExists ==> r == Go(ctx)
    ensures !w.mixManifestExists ==>
      r.Trace() <= ctx.trace + [Run(RepoLine(ctx.newPath, "npm install")), Run(RepoLine(ctx.newPath, "npm run dev"))]
    ensures !w.mixManifestExists && r.Go? ==>
      r.ctx.trace == ctx.trace + [Run(RepoLine(ctx.newPath, "npm install")), Run(RepoLine(ctx.newPath, "npm run dev"))]
    ensures Reliable(o) ==> r.Go?
  {
    if w.mixManifestExists then Go(ctx)
    else
      var c1 :- RepoCmd(o, "npm install", ctx);
      var r := RepoCmd(o, "npm run dev", c1);
      StepThen(o, ctx, c1, r);
      r
  }

  /** The dependency steps of `call` (lines 77-79) when every command goes
      through: `composer install` unless `vendor` exists, the i18next update
      for the legacy release, then the storage copy and link. */
  function DependencyActions(w: World, newPath: string, version: string): seq<Action>
  {
    ComposerActions(w, newPath) + I18NextActions(newPath, version) + StorageActions(w, newPath)
  }

  /** What `composerInstall` does when it goes through. */
  function ComposerActions(w: World, newPath: string): seq<Action>
  {
    if w.vendorExists then [] else [Run(RepoLine(newPath, "composer install"))]
  }

  /** What `updateI18Next` does when it goes through. */
  function I18NextActions(newPath: string, version: string): seq<Action>
  {
    if Naming.IsLegacy(version) then [Run(RepoLine(newPath, "composer update processmaker/laravel-i18next"))] else []
  }

  /** What `copyStorage` does when it goes through. */
  function StorageActions(w: World, newPath: string): seq<Action>
  {
    [Run("rsync -a " + OldPath(w) + "/storage/* " + newPath + "/storage/"), Run(ArtisanLine(newPath, "storage:link"))]
  }

  /** The package steps of `call` (lines 81-82) when every command goes
      through: the base installs and horizon, then the private packages. */
  function PackageInstallActions(w: World, newPath: string, version: string): seq<Action>
  {
    var names := Naming.PrivatePackages(w.packagesFile);
    ArtisanRuns(newPath, Naming.BasePackageInstall + [Naming.HorizonCommand(version)])
    + [Run(RepoLine(newPath, "composer require " + Naming.RequireArgs(version, names)))]
    + ArtisanRuns(newPath, Naming.InstallCommands(names))
  }

  /** The closing steps before the cutover (lines 84-87) when every command
      goes through: the migration, npm unless the mix manifest exists, and
      the cache clear. */
  function FinishActions(w: World, newPath: string): seq<Action>
  {
    [Run(ArtisanLine(newPath, "migrate --force"))]
    + (if w.mixManifestExists then [] else [Run(RepoLine(newPath, "npm install")), Run(RepoLine(newPath, "npm run dev"))])
    + [Run(ArtisanLine(newPath, "optimize:clear"))]
  }

  /** The package and asset steps of `call` (lines 81-87). */
  function PackageActions(w: World, newPath: string, version: string): seq<Action>
  {
    PackageInstallActions(w, newPath, version) + FinishActions(w, newPath)
  }

  /** Lines 75-87 of `call` when every command goes through: the `.env`
      copy, the manifest rewrite, the dependency steps, then the package and
      asset steps. */
  function InstallActions(w: World, newPath: string, version: string): seq<Action>
  {
    [ CopyFile(OldPath(w) + "/.env", newPath + "/.env"),
      WriteManifest(newPath + "/composer.json", AddPrivatePackagist(w.manifest)) ]
    + DependencyActions(w, newPath, version)
    + PackageActions(w, newPath, version)
  }

  /** Lines 75-87 of `call`: everything done to the new build before the
      cutover. Its first effect is copying `.env`, which cannot fail. */
  function Install(w: World, o: Oracle, ctx: Ctx): (r: Res)
    ensures Step(o, ctx, r) && Later(ctx, r)
    ensures |r.Trace()| > |ctx.trace| && r.Trace()[|ctx.trace|] == CopyFile(OldPath(w) + "/.env", ctx.newPath + "/.env")
    ensures r.Go? ==> r.ctx.trace == ctx.trace + InstallActions(w, ctx.newPath, ctx.version)
    ensures r.Trace() <= ctx.trace + InstallActions(w, ctx.newPath, ctx.version)
    ensures Reliable(o) ==> r.Go?
  {
    var a := CopyFile(OldPath(w) + "/.env", ctx.newPath + "/.env");
    var c1 := CopyEnv(w, o, ctx).ctx;
    var r := InstallAfterEnv(w, o, c1);
    StepThen(o, ctx, c1, r);
    LaterThen(ctx, c1, r);
    var m := WriteManifest(ctx.newPath + "/composer.json", AddPrivatePackagist(w.manifest));
    AppendFront(ctx.trace, a, m, DependencyActions(w, ctx.newPath, ctx.version), PackageActions(w, ctx.newPath, ctx.version));
    r
  }

  lemma SeqAssoc(t: seq<Action>, a: seq<Action>, b: seq<Action>)
    ensures t + a + b == t + (a + b)
  {
  }

  /** A prefix of what one plan leaves is a prefix of what a longer plan leaves. */
  lemma PrefixGrows(x: seq<Action>, t: seq<Action>, p: seq<Action>, q: seq<Action>)
    requires x <= t + p
    ensures x <= t + (p + q)
  {
    assert t + (p + q) == t + p + q;
  }

  lemma SeqAssoc3(t: seq<Action>, a: seq<Action>, b: seq<Action>, c: seq<Action>)
    ensures t + a + b + c == t + (a + b + c)
  {
  }

  lemma AppendFront(t: seq<Action>, a: Action, m: Action, d: seq<Action>, p: seq<Action>)
    ensures t + ([a, m] + d + p) == t + [a] + [m] + d + p
  {
  }

  /** Lines 76-87 of `call`: the manifest rewrite, then the dependency steps,
      then the package and asset steps. */
  function InstallAfterEnv(w: World, o: Oracle, ctx: Ctx): (r: Res)
    ensures Step(o, ctx, r) && Later(ctx, r)
    ensures r.Go? ==>
      r.ctx.trace == ctx.trace + [WriteManifest(ctx.newPath + "/composer.json", AddPrivatePackagist(w.manifest))]
                     + DependencyActions(w, ctx.newPath, ctx.version) + PackageActions(w, ctx.newPath, ctx.version)
    ensures r.Trace() <= ctx.trace + [WriteManifest(ctx.newPath + "/composer.json", AddPrivatePackagist(w.manifest))]
                         + DependencyActions(w, ctx.newPath, ctx.version) + PackageActions(w, ctx.newPath, ctx.version)
    ensures Reliable(o) ==> r.Go?
  {
    var c1 := WritePrivatePackagist(w, o, ctx).ctx;
    var deps := DependencyActions(w, ctx.newPath, ctx.version);
    var packages := PackageActions(w, ctx.newPath, ctx.version);
    SeqAssoc(c1.trace, deps, packages);
    var e := Dependencies(w, o, c1);
    StepThen(o, ctx, c1, e);
    LaterThen(ctx, c1, e);
    if e.Halt? then
      PrefixGrows(e.Trace(), c1.trace, deps, packages);
      e
    else
      var c2 := e.ctx;
      var r := Packages(w, o, c2);
      StepThen(o, ctx, c2, r);
      LaterThen(ctx, c2, r);
      r
  }

  /** Lines 77-79 of `call`: `composerInstall`, `updateI18Next`, `copyStorage`. */
  function Dependencies(w: World, o: Oracle, ctx: Ctx): (r: Res)
    ensures Step(o, ctx, r) && Later(ctx, r)
    ensures r.Go? ==> r.ctx.trace == ctx.trace + DependencyActions(w, ctx.newPath, ctx.version)
    ensures r.Trace() <= ctx.trace + DependencyActions(w, ctx.newPath, ctx.version)
    ensures Reliable(o) ==> r.Go?
  {
    var composer := ComposerActions(w, ctx.newPath);
    var i18next := I18NextActions(ctx.newPath, ctx.version);
    var storage := StorageActions(w, ctx.newPath);
    SeqAssoc3(ctx.trace, composer, i18next, storage);
    var e1 := ComposerInstall(w, o, ctx);
    if e1.Halt? then
      PrefixGrows(e1.Trace(), ctx.trace, composer, i18next + storage);
      e1
    else
      var c1 := e1.ctx;
      var e2 := UpdateI18Next(o, c1);
      if e2.Halt? then
        StepThen(o, ctx, c1, e2);
        PrefixGrows(e2.Trace(), ctx.trace + composer, i18next, storage);
        e2
      else
        var c2 := e2.ctx;
        StepThen(o, ctx, c1, e2);
        LaterThen(ctx, c1, e2);
        var r := CopyStorage(w, o, c2);
        StepThen(o, ctx, c2, r);
        LaterThen(ctx, c2, r);
        r
  }

  /** Lines 81-87 of `call`: the package installs, then the closing steps. */
  function Packages(w: World, o: Oracle, ctx: Ctx): (r: Res)
    ensures Step(o, ctx, r) && Later(ctx, r)
    ensures r.Go? ==> r.ctx.trace == ctx.trace + PackageActions(w, ctx.newPath, ctx.version)
    ensures r.Trace() <= ctx.trace + PackageActions(w, ctx.newPath, ctx.version)
    ensures Reliable(o) ==> r.Go?
  {
    var installs := PackageInstallActions(w, ctx.newPath, ctx.version);
    var finish := FinishActions(w, ctx.newPath);
    var e := PackageInstalls(w, o, ctx);
    if e.Halt? then
      PrefixGrows(e.Trace(), ctx.trace, installs, finish);
      e
    else
      var c1 := e.ctx;
      assert c1.newPath == ctx.newPath && c1.version == ctx.version;
      var r := Finish(w, o, c1);
      StepThen(o, ctx, c1, r);
      LaterThen(ctx, c1, r);
      SeqAssoc(ctx.trace, installs, finish);
      r
  }

  /** Lines 81-82 of `call`: base packages, then private packages. */
  function PackageInstalls(w: World, o: Oracle, ctx: Ctx): (r: Res)
    ensures Step(o, ctx, r) && Later(ctx, r)
    ensures r.Go? ==> r.ctx.trace == ctx.trace + PackageInstallActions(w, ctx.newPath, ctx.version)
    ensures r.Trace() <= ctx.trace + PackageInstallActions(w, ctx.newPath, ctx.version)
    ensures Reliable(o) ==> r.Go?
  {
    var names := Naming.PrivatePackages(w.packagesFile);
    var base := ArtisanRuns(ctx.newPath, Naming.BasePackageInstall + [Naming.HorizonCommand(ctx.version)]);
    var require := [Run(RepoLine(ctx.newPath, "composer require " + Naming.RequireArgs(ctx.version, names)))];
    var installs := ArtisanRuns(ctx.newPath, Naming.InstallCommands(names));
    SeqAssoc3(ctx.trace, base, require, installs);
    var e := InstallBasePackages(o, ctx);
    if e.Halt? then
      PrefixGrows(e.Trace(), ctx.trace, base, require + installs);
      e
    else
      var c1 := e.ctx;
      assert c1.newPath == ctx.newPath && c1.version == ctx.version;
      var r := InstallPrivatePackages(w, o, c1);
      StepThen(o, ctx, c1, r);
      LaterThen(ctx, c1, r);
      r
  }

  /** Lines 84-87 of `call`: the migration, the javascript assets and the
      cache clear, in that order. */
  function Finish(w: World, o: Oracle, ctx: Ctx): (r: Res)
    ensures Step(o, ctx, r) && Later(ctx, r)
    ensures r.Go? ==> r.ctx.trace == ctx.trace + FinishActions(w, ctx.newPath)
    ensures r.Trace() <= ctx.trace + FinishActions(w, ctx.newPath)
    ensures Reliable(o) ==> r.Go?
  {
    var migrate := [Run(ArtisanLine(ctx.newPath, "migrate --force"))];
    var assets :=
      if w.mixManifestExists then [] else [Run(RepoLine(ctx.newPath, "npm install")), Run(RepoLine(ctx.newPath, "npm run dev"))];
    var clear := [Run(ArtisanLine(ctx.newPath, "optimize:clear"))];
    SeqAssoc3(ctx.trace, migrate, assets, clear);
    var e1 := Artisan(o, "migrate --force", ctx);
    if e1.Halt? then
      PrefixGrows(e1.Trace(), ctx.trace, migrate, assets + clear);
      e1
    else
      var c1 := e1.ctx;
      var e2 := InstallJavascriptAssets(w, o, c1);
      StepThen(o, ctx, c1, e2);
      LaterThen(ctx, c1, e2);
      if e2.Halt? then
        PrefixGrows(e2.Trace(), ctx.trace + migrate, assets, clear);
        e2
      else
        var c2 := e2.ctx;
        var r := Artisan(o, "optimize:clear", c2);
        StepThen(o, ctx, c2, r);
        LaterThen(ctx, c2, r);
        r
  }

  /** What the cutover does, in order: the new build goes down, the old link
      is removed and recreated to point at the new build, horizon is
      restarted, and the new build comes up. */
  function CutoverActions(oldPath: string, newPath: string): seq<Action>
  {
    [ Run(ArtisanLine(newPath, "down")), RemoveLink(oldPath), MakeLink(newPath, oldPath),
      Run(ArtisanLine(newPath, "horizon:terminate")), Run(ArtisanLine(newPath, "up")) ]
  }

  /** Lines 89-93 of `call`. */
  function Cutover(w: World, o: Oracle, ctx: Ctx): (r: Res)
    ensures Step(o, ctx, r) && Later(ctx, r)
    ensures r.Go? ==> r.ctx.trace == ctx.trace + CutoverActions(OldPath(w), ctx.newPath)
    ensures r.Trace() <= ctx.trace + CutoverActions(OldPath(w), ctx.newPath)
    ensures Reliable(o) ==> r.Go?
  {
    var e1 := Artisan(o, "down", ctx);
    if e1.Halt? then e1
    else
      var c1 := e1.ctx;
      var c2 := c1.(trace := c1.trace + [RemoveLink(OldPath(w)), MakeLink(ctx.newPath, OldPath(w))]);
      var e3 := Artisan(o, "horizon:terminate", c2);
      StepThen(o, ctx, c2, e3);
      if e3.Halt? then e3
      else
        var c3 := e3.ctx;
        var r := Artisan(o, "up", c3);
        StepThen(o, c2, c3, r);
        StepThen(o, ctx, c2, r);
        LaterThen(c2, c3, r);
        LaterThen(ctx, c2, r);
        r
  }

  function Start(answers: seq<bool>): Ctx
  {
    Ctx([], answers, "", "")
  }

  /** Lines 75-93 of `call`: the new build is prepared, then switched to. */
  function InstallAndCutover(w: World, o: Oracle, ctx: Ctx): (r: Res)
    ensures Step(o, ctx, r) && Later(ctx, r)
    ensures |r.Trace()| > |ctx.trace| && r.Trace()[|ctx.trace|] == CopyFile(OldPath(w) + "/.env", ctx.newPath + "/.env")
    ensures r.Go? ==>
      r.ctx.trace == ctx.trace + (InstallActions(w, ctx.newPath, ctx.version) + CutoverActions(OldPath(w), ctx.newPath))
    ensures r.Trace() <= ctx.trace + (InstallActions(w, ctx.newPath, ctx.version) + CutoverActions(OldPath(w), ctx.newPath))
    ensures r.Go? ==>
      && |r.ctx.trace| >= |ctx.trace| + 5
      && r.ctx.trace[|r.ctx.trace| - 5..] == CutoverActions(OldPath(w), ctx.newPath)
    ensures Reliable(o) ==> r.Go?
  {
    var install := InstallActions(w, ctx.newPath, ctx.version);
    var cutover := CutoverActions(OldPath(w), ctx.newPath);
    var e := Install(w, o, ctx);
    if e.Halt? then
      PrefixGrows(e.Trace(), ctx.trace, install, cutover);
      e
    else
      var c2 := e.ctx;
      assert c2.newPath == ctx.newPath;
      var r := Cutover(w, o, c2);
      StepThen(o, ctx, c2, r);
      LaterThen(ctx, c2, r);
      SeqAssoc(ctx.trace, install, cutover);
      r
  }

  /** Everything after the backups when every step goes through: the
      extraction, the preparation of the new build, and the cutover. */
  function BuildPlan(w: World): seq<Action>
  {
    ExtractActions(w) + (InstallActions(w, NewBuildPath(w), w.manifest.version)
                         + CutoverActions(OldPath(w), NewBuildPath(w)))
  }

  /** Lines 74-93 of `call`: everything after the backups. The archive is
      dealt with first; only `extractRepo` can end the run cleanly, and the
      run finishes with the cutover. */
  function BuildAndSwitch(w: World, o: Oracle, ctx: Ctx): (r: Res)
    ensures Step(o, ctx, r)
    ensures r.Halt? && r.outcome.Aborted? ==>
      && !w.archiveIsDir
      && Declined(ctx.answers, w.targetExists)
      && OnlyRuns(r.stopTrace, |ctx.trace|, UnpackLines(w))
    ensures w.archiveIsDir ==>
      && !(r.Halt? && r.outcome.Aborted?)
      && |r.Trace()| > |ctx.trace|
      && r.Trace()[|ctx.trace|] == CopyFile(OldPath(w) + "/.env", w.archive + "/.env")
    ensures !w.archiveIsDir && !w.archiveExists ==> r == Halt(Failed("Archive not found: " + w.archive), ctx.trace)
    ensures !w.archiveIsDir && w.archiveExists && o("rm -rf " + ExtractPath(w)).Succeeded?
            && !Strings.EndsWith(w.archive, ".zip") && !Strings.EndsWith(w.archive, ".tar.gz")
        ==> r == Halt(Failed("Unknown file extension " + w.archive), ctx.trace + [Run("rm -rf " + ExtractPath(w))])
  {
    var e := ExtractRepo(w, o, ctx);
    if e.Halt? then e
    else
      var c1 := e.ctx;
      assert c1.newPath == NewBuildPath(w);
      assert w.archiveIsDir ==> c1.trace == ctx.trace && c1.newPath == w.archive;
      var r := InstallAndCutover(w, o, c1);
      StepThen(o, ctx, c1, r);
      assert !(r.Halt? && r.outcome.Aborted?);
      r
  }

  /** The rest of the run hands on exactly when it has done the plan, and it
      does hand on when every command succeeds and nothing else stops the
      extraction. */
  lemma BuildAndSwitchFollowsPlan(w: World, o: Oracle, ctx: Ctx)
    ensures var r := BuildAndSwitch(w, o, ctx);
      r.Go? ==> r.ctx.trace == ctx.trace + BuildPlan(w)
    ensures var r := BuildAndSwitch(w, o, ctx);
      r.Go? ==>
        && |r.ctx.trace| >= |ctx.trace| + 5
        && r.ctx.trace[|r.ctx.trace| - 5..] == CutoverActions(OldPath(w), NewBuildPath(w))
    ensures BuildAndSwitch(w, o, ctx).Trace() <= ctx.trace + BuildPlan(w)
    ensures Reliable(o) && Proceeds(w, ctx.answers) ==> BuildAndSwitch(w, o, ctx).Go?
  {
    var e := ExtractRepo(w, o, ctx);
    if e.Go? {
      var c1 := e.ctx;
      assert c1.newPath == NewBuildPath(w) && c1.version == w.manifest.version;
      var r := InstallAndCutover(w, o, c1);
      assert BuildAndSwitch(w, o, ctx) == r;
      assert |c1.trace| >= |ctx.trace|;
      SeqAssoc(ctx.trace, ExtractActions(w),
               InstallActions(w, NewBuildPath(w), w.manifest.version) + CutoverActions(OldPath(w), NewBuildPath(w)));
    }
  }

  /** `call`: the path checks, the backups, then the rest; falling off the
      end is the normal finish. */
  function Call(w: World, o: Oracle, answers: seq<bool>): (r: Res)
    ensures Step(o, Start(answers), r)
  {
    var c0 :- Validate(w, Start(answers));
    var c1 :- PrepareOld(w, o, c0);
    var r := BuildAndSwitch(w, o, c1);
    StepThen(o, c0, c1, r);
    r
  }

  /** `execute` around `call`: the whole run, from the arguments to the
      outcome and everything it did. The run stops at the first command that
      fails and reports that command's message; a run that did not fail had
      every command succeed. */
  function Execute(w: World, answers: seq<bool>, o: Oracle): (run: Run)
    ensures !run.outcome.Failed? ==> AllSucceed(o, run.trace)
    ensures !AllSucceed(o, run.trace) ==> StopsAtFailure(o, run.trace, run.outcome)
  {
    match Call(w, o, answers)
    case Go(c) => RunOf(Done, c.trace)
    case Halt(out, t) => RunOf(out, t)
  }
}
