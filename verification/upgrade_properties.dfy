/** Properties of whole upgrade runs: what happens before anything else, what
    a declined confirmation leaves alone, how each archive argument is
    dispatched, and what a finished run ends with. */
module UpgradeProperties {
  import Strings
  import Unpack
  import opened Upgrade

  /** A missing installation path, or one that is not a symlink, is a fatal
      error before any command is issued or any file touched. */
  lemma InvalidInstallationDoesNothing(w: World, answers: seq<bool>, o: Oracle)
    requires !w.installExists || !w.installIsLink
    ensures Execute(w, answers, o).trace == []
    ensures !w.installExists ==> Execute(w, answers, o).outcome == Failed("Folder not found: " + OldPath(w))
    ensures w.installExists ==> Execute(w, answers, o).outcome == Failed("Folder not a symlink: " + OldPath(w))
  {
    assert Validate(w, Start(answers)).Halt?;
  }

  /** With a valid installation, a run opens with the old build going down
      and the two dumps, in that order: whatever it does later (extracting,
      copying, relinking) comes after all three, and a run that does not
      fail has issued all three. */
  lemma BackupsComeFirst(w: World, answers: seq<bool>, o: Oracle)
    requires w.installExists && w.installIsLink
    ensures Execute(w, answers, o).trace <= Prelude(w) || Prelude(w) <= Execute(w, answers, o).trace
    ensures !Execute(w, answers, o).outcome.Failed? ==> Prelude(w) <= Execute(w, answers, o).trace
  {
    CallAfterBackups(w, answers, o);
    RunTrace(w, answers, o);
    var p := PrepareOld(w, o, Start(answers));
    if p.Go? {
      assert Prelude(w) <= BuildAndSwitch(w, o, p.ctx).Trace();
    } else {
      assert [] + Prelude(w) == Prelude(w);
    }
  }

  /** Only a run on a valid installation can get anywhere but a failure. */
  lemma ValidUnlessFailed(w: World, answers: seq<bool>, o: Oracle)
    ensures !Execute(w, answers, o).outcome.Failed? ==> w.installExists && w.installIsLink
  {
    if !(w.installExists && w.installIsLink) {
      assert Validate(w, Start(answers)).Halt?;
    }
  }

  /** On a valid installation `call` is the backups, then, if they went
      through, the rest of the run started from the backups' trace. */
  lemma CallAfterBackups(w: World, answers: seq<bool>, o: Oracle)
    requires w.installExists && w.installIsLink
    ensures var p := PrepareOld(w, o, Start(answers));
      && (p.Go? ==> p.ctx.trace == Prelude(w) && Call(w, o, answers) == BuildAndSwitch(w, o, p.ctx))
      && (p.Halt? ==> Call(w, o, answers) == p)
  {
    var c0 := Start(answers);
    assert Validate(w, c0) == Go(c0);
  }

  /** A run that finishes has every command succeed, starts with the backups
      and ends with the cutover: the new build goes down, the link is
      replaced, horizon restarts, and `artisan up` on the new build is the
      last thing done. */
  lemma FinishedRunEndsWithCutover(w: World, answers: seq<bool>, o: Oracle)
    ensures Execute(w, answers, o).outcome == Done ==>
      var t := Execute(w, answers, o).trace;
      && AllSucceed(o, t)
      && Prelude(w) <= t
      && |t| >= |Prelude(w)| + 5
      && t[|t| - 5..] == CutoverActions(OldPath(w), NewBuildPath(w))
      && t[|t| - 1] == Run(ArtisanLine(NewBuildPath(w), "up"))
  {
    var c := DoneRun(w, answers, o);
    if Execute(w, answers, o).outcome == Done {
      var t := Execute(w, answers, o).trace;
      var r := BuildAndSwitch(w, o, c);
      BuildAndSwitchFollowsPlan(w, o, c);
      assert c.trace <= r.ctx.trace;
      var tail := t[|t| - 5..];
      assert tail == CutoverActions(OldPath(w), NewBuildPath(w));
      assert t[|t| - 1] == tail[4];
    }
  }

  /** A finished run is the backups followed by a finished rest of the run. */
  lemma DoneRun(w: World, answers: seq<bool>, o: Oracle) returns (c: Ctx)
    ensures Execute(w, answers, o).outcome == Done ==>
      && c.trace == Prelude(w)
      && BuildAndSwitch(w, o, c).Go?
      && Execute(w, answers, o).trace == BuildAndSwitch(w, o, c).ctx.trace
  {
    c := Start(answers);
    ValidUnlessFailed(w, answers, o);
    if w.installExists && w.installIsLink {
      CallAfterBackups(w, answers, o);
      var p := PrepareOld(w, o, Start(answers));
      if p.Go? {
        c := p.ctx;
      }
    }
  }

  /** The first two characters of a command line. */
  function Head(s: string): string
  {
    if |s| >= 2 then s[..2] else s
  }

  lemma HeadOf(a: string, b: string)
    requires |a| >= 2
    ensures Head(a + b) == a[..2]
  {
    assert (a + b)[..2] == a[..2];
  }

  /** Once the backups have gone through, the run is the rest of `call`
      started from the backups' trace. */
  lemma AfterPrelude(w: World, answers: seq<bool>, o: Oracle)
    requires w.installExists && w.installIsLink && w.envLoads
    requires AllSucceed(o, Prelude(w))
    ensures Call(w, o, answers) == BuildAndSwitch(w, o, Ctx(Prelude(w), answers, "", ""))
  {
    var c0 := Start(answers);
    assert Validate(w, c0) == Go(c0);
    PreludeSucceeds(w, o, c0);
    assert PrepareOld(w, o, c0).ctx == Ctx(Prelude(w), answers, "", "");
  }

  /** The backups go through when the `.env` loads and their three commands
      succeed. */
  lemma PreludeSucceeds(w: World, o: Oracle, ctx: Ctx)
    requires w.envLoads && AllSucceed(o, Prelude(w))
    ensures PrepareOld(w, o, ctx).Go?
  {
    var p := Prelude(w);
    assert o(p[0].cmd).Succeeded? && o(p[1].cmd).Succeeded? && o(p[2].cmd).Succeeded?;
  }

  /** When Dotenv cannot load the old build's `.env`, the run fails with
      Dotenv's message right after the old build went down: nothing is
      dumped, and the old build is left down. */
  lemma UnreadableEnvLeavesOldBuildDown(w: World, answers: seq<bool>, o: Oracle)
    requires w.installExists && w.installIsLink && !w.envLoads
    requires o(DownOldLine(w)).Succeeded?
    ensures Execute(w, answers, o) == RunOf(Failed(w.envError), [Run(DownOldLine(w))])
  {
  }

  /** The shape of a declined run: the backups, then unpacking commands only. */
  lemma AbortedShape(w: World, answers: seq<bool>, o: Oracle)
    ensures Execute(w, answers, o).outcome == Aborted ==>
      && w.installExists && w.installIsLink && !w.archiveIsDir
      && Declined(answers, w.targetExists)
      && Prelude(w) <= Execute(w, answers, o).trace
      && OnlyRuns(Execute(w, answers, o).trace, 3, UnpackLines(w))
  {
    if Execute(w, answers, o).outcome == Aborted {
      ValidUnlessFailed(w, answers, o);
      CallAfterBackups(w, answers, o);
      RunTrace(w, answers, o);
      var p := PrepareOld(w, o, Start(answers));
      assert p.Go?;
      assert |p.ctx.trace| == 3;
    }
  }

  /** The backup commands start with `cd` and `my`. */
  lemma PreludeHeads(w: World)
    ensures forall k | 0 <= k < 3 :: Prelude(w)[k].Run? && Head(Prelude(w)[k].cmd) in {"cd", "my"}
  {
    var d := DownOldLine(w);
    assert d == "cd " + d[3..];
    LineHead("cd ", d[3..], "cd");
    DumpHead(w, "", w.primaryTime);
    DumpHead(w, "DATA_", w.dataTime);
    var p := Prelude(w);
    assert p[0].cmd == d;
  }

  /** The unpacking commands start with `rm` or `mv`. */
  lemma UnpackHeads(w: World)
    ensures forall c | c in UnpackLines(w) :: Head(c) in {"rm", "mv"}
  {
    LineHead("rm -rf ", ExtractPath(w), "rm");
    LineHead("rm -rf ", UnzipDir(w), "rm");
    LineHead("rm -rf ", UntarDir(w), "rm");
    MoveHead(w, UnzipDir(w));
    MoveHead(w, UntarDir(w));
  }

  /** The copy into the target starts with `cp`. */
  lemma CopyHead(w: World)
    ensures Head(CopyLine(w)) == "cp"
  {
    LineHead("cp -r ", ExtractPath(w) + " " + TargetPath(w), "cp");
  }

  lemma LineHead(a: string, b: string, h: string)
    requires |a| >= 2 && a[..2] == h
    ensures Head(a + b) == h
  {
    HeadOf(a, b);
  }

  lemma DumpHead(w: World, prefix: string, time: nat)
    ensures Head(DumpLine(w, prefix, time)) == "my"
  {
    var line := DumpLine(w, prefix, time);
    var rest := line[|"mysqldump -u "|..];
    assert line == "mysqldump -u " + rest;
    LineHead("mysqldump -u ", rest, "my");
  }

  lemma MoveHead(w: World, d: string)
    ensures Head(MoveLine(w, d)) == "mv"
  {
    var rest := Unpack.DirToMove(d, w.unpackedEntries) + " " + ExtractPath(w);
    assert MoveLine(w, d) == "mv " + rest;
    LineHead("mv ", rest, "mv");
  }

  /** `rm -rf <x>` names its operand. */
  lemma RemoveLineInjective(x: string, y: string)
    requires "rm -rf " + x == "rm -rf " + y
    ensures x == y
  {
    assert x == ("rm -rf " + x)[7..];
    assert y == ("rm -rf " + y)[7..];
  }

  /** A trace of the backups followed by unpacking commands copies nothing
      to the target and clears it only when it is one of the scratch paths. */
  lemma UnpackTraceSparesTarget(w: World, t: seq<Action>)
    requires Prelude(w) <= t && OnlyRuns(t, 3, UnpackLines(w))
    ensures forall a | a in t :: a.Run? && a != Run(CopyLine(w))
    ensures Run("rm -rf " + TargetPath(w)) in t ==>
      TargetPath(w) in {ExtractPath(w), UnzipDir(w), UntarDir(w)}
  {
    PreludeHeads(w);
    UnpackHeads(w);
    CopyHead(w);
    var p := Prelude(w);
    var target := "rm -rf " + TargetPath(w);
    LineHead("rm -rf ", TargetPath(w), "rm");
    forall i | 0 <= i < |t|
      ensures t[i].Run? && t[i] != Run(CopyLine(w))
      ensures t[i] == Run(target) ==> TargetPath(w) in {ExtractPath(w), UnzipDir(w), UntarDir(w)}
    {
      if i < 3 {
        assert t[i] == p[i];
      } else if t[i] == Run(target) {
        var c := t[i].cmd;
        assert c in UnpackLines(w);
        if c == "rm -rf " + ExtractPath(w) {
          RemoveLineInjective(TargetPath(w), ExtractPath(w));
        } else if c == "rm -rf " + UnzipDir(w) {
          RemoveLineInjective(TargetPath(w), UnzipDir(w));
        } else if c == "rm -rf " + UntarDir(w) {
          RemoveLineInjective(TargetPath(w), UntarDir(w));
        } else {
          MoveHead(w, UnzipDir(w));
          MoveHead(w, UntarDir(w));
        }
      }
    }
  }

  /** A declined confirmation ends the run cleanly with the target left
      alone: nothing is copied to it, it is not cleared (unless it happens to
      be one of the scratch paths), and no later stage runs: the trace is the
      backups plus the unpacking commands. */
  lemma DeclineLeavesTargetAlone(w: World, answers: seq<bool>, o: Oracle)
    ensures Execute(w, answers, o).outcome == Aborted ==>
      && w.installExists && w.installIsLink && !w.archiveIsDir
      && Declined(answers, w.targetExists)
      && Prelude(w) <= Execute(w, answers, o).trace
      && (forall a | a in Execute(w, answers, o).trace :: a.Run? && a != Run(CopyLine(w)))
      && (Run("rm -rf " + TargetPath(w)) in Execute(w, answers, o).trace ==>
            TargetPath(w) in {ExtractPath(w), UnzipDir(w), UntarDir(w)})
  {
    AbortedShape(w, answers, o);
    if Execute(w, answers, o).outcome == Aborted {
      UnpackTraceSparesTarget(w, Execute(w, answers, o).trace);
    }
  }

  /** The target directory's last component is `<base>-<version>`, which
      holds a dash, while the scratch paths end in `pm4_extracted`,
      `pm4_unzipped` and `pm4_untared`, which do not; so when the version
      holds no `/`, the target is none of them. */
  lemma TargetIsNoScratchPath(w: World)
    requires '/' !in w.manifest.version
    ensures TargetPath(w) !in {ExtractPath(w), UnzipDir(w), UntarDir(w)}
  {
    var base := Strings.Basename(OldPath(w));
    DashedLeaf(w.parentReal, base, w.manifest.version);
    PlainLeaves();
    var t := TargetPath(w);
    assert t == w.parentReal + "/" + base + "-" + w.manifest.version;
    NotScratch(t, w.tmp, "pm4_extracted");
    assert ExtractPath(w) == w.tmp + "/" + "pm4_extracted";
    NotScratch(t, w.tmp, "pm4_unzipped");
    assert UnzipDir(w) == w.tmp + "/" + "pm4_unzipped";
    NotScratch(t, w.tmp, "pm4_untared");
    assert UntarDir(w) == w.tmp + "/" + "pm4_untared";
  }

  /** The last component of `<parent>/<base>-<version>` holds a dash when
      neither `base` nor `version` holds a `/`. */
  lemma DashedLeaf(parent: string, base: string, version: string)
    requires '/' !in base && '/' !in version
    ensures '-' in Strings.AfterLastSlash(parent + "/" + base + "-" + version)
  {
    var name := base + "-" + version;
    DashedName(base, version);
    Regroup(parent, "/", base, "-", version);
    Strings.AfterLastSlashOfComponent(parent, name);
  }

  lemma Regroup(a: string, b: string, c: string, d: string, e: string)
    ensures a + b + c + d + e == a + b + (c + d + e)
  {
  }

  /** `<base>-<version>` holds a dash and, when its parts do not, no `/`. */
  lemma DashedName(base: string, version: string)
    requires '/' !in base && '/' !in version
    ensures '/' !in base + "-" + version && '-' in base + "-" + version
  {
    var name := base + "-" + version;
    forall i | 0 <= i < |name| ensures name[i] != '/' {
      if i < |base| {
        assert name[i] == base[i];
      } else if i > |base| {
        assert name[i] == version[i - |base| - 1];
      }
    }
    assert name[|base|] == '-';
  }

  /** The scratch directories' names hold neither a `/` nor a dash. */
  lemma PlainLeaves()
    ensures '/' !in "pm4_extracted" && '-' !in "pm4_extracted"
    ensures '/' !in "pm4_unzipped" && '-' !in "pm4_unzipped"
    ensures '/' !in "pm4_untared" && '-' !in "pm4_untared"
  {
  }

  /** A path whose last component holds a dash is not `<dir>/<leaf>` for a
      dash-free, slash-free leaf. */
  lemma NotScratch(p: string, dir: string, leaf: string)
    requires '/' !in leaf && '-' !in leaf
    requires '-' in Strings.AfterLastSlash(p)
    ensures p != dir + "/" + leaf
  {
    Strings.AfterLastSlashOfComponent(dir, leaf);
  }

  /** A declined run never clears the target directory when the version
      holds no `/`: the only `rm -rf` lines it can have issued are the
      scratch paths'. */
  lemma DeclineNeverClearsTarget(w: World, answers: seq<bool>, o: Oracle)
    ensures Execute(w, answers, o).outcome == Aborted && '/' !in w.manifest.version ==>
      Run("rm -rf " + TargetPath(w)) !in Execute(w, answers, o).trace
  {
    DeclineLeavesTargetAlone(w, answers, o);
    if '/' !in w.manifest.version {
      TargetIsNoScratchPath(w);
    }
  }

  /** A finished run did exactly the plan: the backups, the extraction, the
      preparation of the new build and the cutover, each command once and in
      that order. */
  lemma FinishedRunFollowsPlan(w: World, answers: seq<bool>, o: Oracle)
    ensures Execute(w, answers, o).outcome == Done ==>
      Execute(w, answers, o).trace == Prelude(w) + BuildPlan(w)
  {
    var c := DoneRun(w, answers, o);
    BuildAndSwitchFollowsPlan(w, o, c);
  }

  /** Whatever stops it, every run has done a prefix of the plan: a run
      that fails or is declined has done the first steps of the plan, in
      order, and nothing besides. */
  lemma RunFollowsPlanPrefix(w: World, answers: seq<bool>, o: Oracle)
    ensures Execute(w, answers, o).trace <= Prelude(w) + BuildPlan(w)
  {
    if w.installExists && w.installIsLink {
      CallAfterBackups(w, answers, o);
      RunTrace(w, answers, o);
      var p := PrepareOld(w, o, Start(answers));
      if p.Go? {
        BuildAndSwitchFollowsPlan(w, o, p.ctx);
      } else {
        PrefixGrows(p.Trace(), [], Prelude(w), BuildPlan(w));
        assert [] + Prelude(w) + BuildPlan(w) == Prelude(w) + BuildPlan(w);
      }
    } else {
      InvalidInstallationDoesNothing(w, answers, o);
    }
  }

  /** A run's trace is what `call` did, however it ended. */
  lemma RunTrace(w: World, answers: seq<bool>, o: Oracle)
    ensures Execute(w, answers, o).trace == Call(w, o, answers).Trace()
    ensures Call(w, o, answers).Halt? ==> Execute(w, answers, o).outcome == Call(w, o, answers).outcome
    ensures Call(w, o, answers).Go? ==> Execute(w, answers, o).outcome == Done
  {
  }

  /** When every command succeeds, a run on a valid installation whose
      archive is usable (and whose overwrite is not declined) finishes, and
      its trace is the plan. */
  lemma ReliableRunFollowsPlan(w: World, answers: seq<bool>, o: Oracle)
    requires Reliable(o)
    requires w.installExists && w.installIsLink && w.envLoads
    requires Proceeds(w, answers)
    ensures Execute(w, answers, o) == RunOf(Done, Prelude(w) + BuildPlan(w))
  {
    AfterPrelude(w, answers, o);
    BuildAndSwitchFollowsPlan(w, o, Ctx(Prelude(w), answers, "", ""));
  }

  /** A directory argument is used as it is: no extraction, no confirmation,
      and once the backups are done the next thing is copying `.env` into
      that directory. */
  lemma DirectoryIsUsedAsIs(w: World, answers: seq<bool>, o: Oracle)
    requires w.installExists && w.installIsLink && w.archiveIsDir
    requires w.envLoads && AllSucceed(o, Prelude(w))
    ensures Execute(w, answers, o).outcome != Aborted
    ensures var t := Execute(w, answers, o).trace;
      && |t| > 3 && t[..3] == Prelude(w)
      && t[3] == CopyFile(OldPath(w) + "/.env", w.archive + "/.env")
  {
    AfterPrelude(w, answers, o);
    RunTrace(w, answers, o);
    var t := BuildAndSwitch(w, o, Ctx(Prelude(w), answers, "", "")).Trace();
    assert |Prelude(w)| == 3 && Prelude(w) <= t;
  }

  /** An archive path that does not exist is a fatal "Archive not found"
      error right after the backups. */
  lemma MissingArchiveFails(w: World, answers: seq<bool>, o: Oracle)
    requires w.installExists && w.installIsLink && !w.archiveIsDir && !w.archiveExists
    requires w.envLoads && AllSucceed(o, Prelude(w))
    ensures Execute(w, answers, o) == RunOf(Failed("Archive not found: " + w.archive), Prelude(w))
  {
    AfterPrelude(w, answers, o);
  }

  /** An archive that is neither `.zip` nor `.tar.gz` is a fatal error once
      the extract path has been cleared. */
  lemma UnknownExtensionFails(w: World, answers: seq<bool>, o: Oracle)
    requires w.installExists && w.installIsLink && !w.archiveIsDir && w.archiveExists
    requires !Strings.EndsWith(w.archive, ".zip") && !Strings.EndsWith(w.archive, ".tar.gz")
    requires w.envLoads && AllSucceed(o, Prelude(w)) && o("rm -rf " + ExtractPath(w)).Succeeded?
    ensures Execute(w, answers, o)
         == RunOf(Failed("Unknown file extension " + w.archive), Prelude(w) + [Run("rm -rf " + ExtractPath(w))])
  {
    AfterPrelude(w, answers, o);
  }
}
