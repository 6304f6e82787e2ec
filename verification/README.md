# The ProcessMaker 4 upgrade command — a Dafny model

The `run` command upgrades a ProcessMaker 4 installation. The installation is
reached through a symlink. The command first takes the old build down and dumps
its two databases. It then takes a new build: either a ready directory, or a
`.zip` / `.tar.gz` archive that it unpacks, strips of a single wrapper folder,
and copies next to the old build after asking the operator. Next it installs
the new build's dependencies, packages and assets. Last, it takes the new
build down, points the symlink at it, restarts horizon and brings the new
build up. Every shell command goes through a runner. The runner streams the
command's output and turns a non-zero exit status into an exception. The test
suite swaps in a double that answers commands from a table of patterns.

The model has seven modules, one per file:

- `Strings` (`strings.dfy`): the PHP string helpers the command relies on:
  `endsWith`, `trim`, `join`, `basename`, and integer rendering for
  interpolation.
- `Runner` (`runner.dfy`): `RunCmd::call`. A process is the sequence of chunks
  `fread` returns plus the status `pclose` reports.
- `MockRunner` (`mock_runner.dfy`): `MockRunCmd::call`. The regular-expression
  test is a parameter.
- `Naming` (`naming.dfy`): the pure builders of `Upgrade.php`. These are the
  `.env` key remap, the backup and target paths, the PACKAGES file, and the
  4.0.16 compatibility shim (package pins, horizon subcommand).
- `Unpack` (`unpack.dfy`): the single-wrapper rule of `moveToExtractPath`, both
  as intended and as written.
- `Upgrade` (`upgrade.dfy`): the whole command as one pure function,
  `Execute(world, answers, oracle)`.
  - The `World` holds what the command reads from its surroundings: file
    tests, `realpath`, `.env` values, `time()`, the new build's
    `composer.json`, the unpacked listing and the PACKAGES file.
  - `answers` is the operator's script of yes/no replies.
  - The oracle says what each shell command yields.
  - The result is the outcome (`Done`, `Aborted` or `Failed(message)`) and the
    ordered trace. The trace holds every shell command issued, plus the file
    effects PHP performs itself: copying `.env`, rewriting `composer.json`,
    and unlinking and recreating the symlink.
  - Each stage of `call` is a function with a stage contract (`Step`). A stage
    only appends to the trace. It never finishes the run. It stops at the
    first failing command, with that command's message. The stage contracts
    compose, so the whole run inherits them.
  - Each stage also has a plan: the exact list of effects it has when it goes
    through (`InstallActions`, `UnpackPlan`, `BuildPlan`, …). Its contract
    says three things. The stage goes through only after doing its plan. A
    stage that stops has done a prefix of its plan. And the stage does go
    through when every command succeeds (`Reliable`), given whatever else it
    needs (a readable `.env`, a usable archive, the operator's consent). For
    `BuildAndSwitch` these three clauses are not in its own contract but in
    the companion lemma `BuildAndSwitchFollowsPlan`.
  - `Error` is an uncaught exception: the run fails with its message.
    `Exit` is the clean stop through `ExitException`. `Confirm` reads the
    next scripted answer.
- `UpgradeProperties` (`upgrade_properties.dfy`): properties of whole runs.

## Model

| member | source | states |
|---|---|---|
| Strings.EndsWithIsSuffix | src/Command/Upgrade.php:261-267 | `endsWith` is true exactly when the needle is a suffix of the haystack; the empty needle is a suffix of everything |
| Strings.Trim | src/Command/Upgrade.php:412-414 | the trimmed line is a contiguous slice of the input, everything cut off on either side is blank (space, tab, LF, CR, NUL, VT), and the result neither starts nor ends with a blank |
| Strings.TrimIdempotent | src/Command/Upgrade.php:412-414 | trimming a package name that is already trimmed changes nothing |
| Strings.SplitJoin | src/Command/Upgrade.php:204 | `join(" ", …)` loses nothing: cutting the joined string at the separator gives back the pieces, when no piece contains the separator |
| Strings.BasenameOfChild | src/Command/Upgrade.php:160 | `basename` of `dir/name` is `name` for a non-empty name without a slash |
| Strings.ParseIntToString | src/Command/RunCmd.php:17 | the exit status interpolated into the failure message can be read back as the same integer |
| Runner.Call | src/Command/RunCmd.php:6-20 | every chunk read reaches the callback, once and in order; the command fails exactly when the exit status is non-zero; success returns the concatenation of all chunks, and failure carries "cmd failed with exit code N. Output is\n" followed by that concatenation |
| Runner.FailureMessageDetermines | src/Command/RunCmd.php:16-18 | the failure message is injective: two failures with the same message had the same exit status and the same output |
| MockRunner.Call | tests/MockRunCmd.php:15-27 | a canned reply comes back exactly when some pattern matches; it is the first matching pattern's text plus a line feed, and the callback sees exactly that; otherwise the real runner's chunks reach the callback, nothing is returned on success, and a failure surfaces with the real runner's message |
| Naming.EnvKeyOnlyMergesDataHost | src/Command/Upgrade.php:167-177 | two `.env` keys read the same entry exactly when they are equal or are `DATA_DB_HOSTNAME` and `DATA_DB_HOST` |
| Naming.EnvLookupUnchangedKeys | src/Command/Upgrade.php:167-177 | every other key reads its own entry, and a missing entry reads as the empty string |
| Naming.BackupPathsCollide | src/Command/Upgrade.php:158-162 | two dumps taken in the same second overwrite each other exactly when prefix and database name spell the same string |
| Naming.TargetPathBasename | src/Command/Upgrade.php:299-300 | the new build is a sibling of the old one, named `<old name>-<version>` |
| Naming.PinOnlyForLegacy | src/Command/Upgrade.php:196-202 | a `:version` pin is added exactly when the release is 4.0.16 and the package is in the pin table |
| Naming.NoShimOffLegacy | src/Command/Upgrade.php:186-201 | off 4.0.16 every package is required unpinned and horizon is installed |
| Naming.ShimOnLegacy | src/Command/Upgrade.php:186-201 | on 4.0.16 the packages in the table get their pins, the others stay bare, and horizon's assets are published instead |
| Naming.RequireArgsLists | src/Command/Upgrade.php:196-205 | the `composer require` argument string lists one `processmaker/<name>[:pin]` entry per package, in order: cutting it at spaces gives the entries back |
| Naming.PrivatePackages | src/Command/Upgrade.php:407-419 | a missing PACKAGES file means no packages; otherwise there is one package per line, each the trimmed line |
| Unpack.WrapperStripped | src/Command/Upgrade.php:329-339 | when exactly one visible entry was unpacked, that entry is what gets moved; in every other case the scratch directory itself is moved |
| Unpack.AsWrittenAgreesWhenListedFirst | src/Command/Upgrade.php:331-336 | the code as written agrees with the rule whenever the first name listed is visible |
| Unpack.AsWrittenMissesLowWrapper | src/Command/Upgrade.php:331-336 | a descending listing `..`, `.`, `-build` makes the code as written move `<tmp>/` instead of the wrapper `<tmp>/-build` |
| Upgrade.AddPrivatePackagist | src/Command/Upgrade.php:246-259 | the private registry is appended after the existing repositories, which stay in order; the version and all other keys are untouched |
| Upgrade.Cmd | src/Command/Upgrade.php:393-405 | a command is recorded, the run goes on exactly when the runner succeeds, and a runner failure ends the run with the runner's message |
| Upgrade.RepoCmd | src/Command/Upgrade.php:388-391 | a repository command runs as `cd <new path> && <command>` under the stage discipline |
| Upgrade.Artisan | src/Command/Upgrade.php:212-215 | an artisan subcommand runs as `php artisan <sub>` inside the new build |
| Upgrade.ArtisanEach | src/Command/Upgrade.php:182-184 | a loop of artisan subcommands runs them all in order when none fails, and otherwise stops at the first failure with a trace that is a prefix of the full sequence |
| Upgrade.Validate | src/Command/Upgrade.php:60-69 | the run proceeds exactly when the installation exists and is a symlink; otherwise it fails with "Folder not found" or "Folder not a symlink", touching nothing |
| Upgrade.Error | src/Command/Upgrade.php:421-424 | an error ends the run where it is: nothing more is done, and the run fails with the given message |
| Upgrade.Exit | src/Command/Upgrade.php:426-430 | quitting ends the run where it is, nothing more is done, and the outcome is neither a failure nor a finished run |
| Upgrade.Confirm | src/Command/Console.php:17-21 | each question consumes one scripted answer, so the i-th question reads the i-th answer; an exhausted script answers no, the question's default; asking leaves the trace, the new path and the version alone |
| Upgrade.PrepareOld | src/Command/Upgrade.php:70-72 | the old build goes down (`maintenanceMode`), then the primary database is dumped, then the `DATA_` database; the first failure stops the run; when Dotenv cannot load the old `.env`, the run fails with Dotenv's message right after the old build went down; a stopped run did a prefix of these three; with every command succeeding and a readable `.env` it goes through |
| Upgrade.BackupMysql | src/Command/Upgrade.php:145-178 | Dotenv loads the old `.env` before the first dump, and when it cannot, the run fails with its message before any dump; otherwise the primary database is dumped before the `DATA_` one, and a stopped run did a prefix of the two dumps |
| Upgrade.MoveToExtractPath | src/Command/Upgrade.php:329-347 | the `mv` of the chosen directory into the extract path is issued first and only the scratch removal may follow; when the stage goes through, the scratch directory was removed exactly when a single wrapper folder was moved out of it; when every command succeeds it goes through |
| Upgrade.UnZip | src/Command/Upgrade.php:309-327 | a stale `pm4_unzipped` is removed first; an archive that does not open ends the run with "Error unzipping <archive> to <tmp>/pm4_unzipped" right after that removal; the stage goes through only for an archive that opens, after exactly the removal, the move and the wrapper cleanup, and it does go through when every command succeeds |
| Upgrade.UnTar | src/Command/Upgrade.php:349-380 | the same for `.tar.gz` archives with the scratch directory `pm4_untared`; an archive that does not open ends the run with PharData's message |
| Upgrade.UnpackArchive | src/Command/Upgrade.php:283-292 | the extract path is cleared first; after that a `.zip` issues only the `pm4_unzipped` commands and a `.tar.gz` only the `pm4_untared` ones; the stage goes through only for a readable `.zip` or `.tar.gz`, after exactly the unpacking plan, and does when every command succeeds; any other name fails with "Unknown file extension" right after the extract path is cleared |
| Upgrade.UnpackByExtension | src/Command/Upgrade.php:285-292 | `.zip` is tried before `.tar.gz`, each with its own scratch commands; any other name fails with "Unknown file extension" without a further command |
| Upgrade.PlaceBuild | src/Command/Upgrade.php:294-306 | the run stops cleanly exactly when the operator declines the version, or declines the overwrite of an existing target; otherwise the target is cleared and the extracted build copied there, and it becomes the new path; with every command succeeding and no refusal it goes through |
| Upgrade.ExtractRepo | src/Command/Upgrade.php:269-307 | a directory argument becomes the new build with no command and no question; a missing archive fails with "Archive not found"; a clean stop happens only when the operator declines, with only unpacking commands issued; when the stage goes through it has done exactly the unpacking, the clearing of the target and the copy; it goes through whenever every command succeeds and the archive exists, is a readable `.zip` or `.tar.gz`, and is accepted |
| Upgrade.ExtractArchive | src/Command/Upgrade.php:283-306 | an archive is unpacked, then placed at the target once the operator agrees: exactly the unpacking plan, the clearing of the target and the copy |
| Upgrade.CopyEnv | src/Command/Upgrade.php:240-244 | the old `.env` is copied into the new build and the run always goes on |
| Upgrade.WritePrivatePackagist | src/Command/Upgrade.php:246-259 | exactly one manifest write happens, and its repositories are the new build's plus the private registry |
| Upgrade.ComposerInstall | src/Command/Upgrade.php:217-225 | `composer install` runs exactly when there is no `vendor` folder |
| Upgrade.UpdateI18Next | src/Command/Upgrade.php:227-233 | the i18next update runs exactly for 4.0.16 |
| Upgrade.CopyStorage | src/Command/Upgrade.php:137-143 | the old storage is copied with rsync, then linked |
| Upgrade.InstallBasePackages | src/Command/Upgrade.php:180-191 | the four base installs run in order, followed by the horizon subcommand for the release |
| Upgrade.InstallPrivatePackages | src/Command/Upgrade.php:193-210 | one `composer require` naming every package, issued even when the list is empty, then one `<name>:install` per package in file order |
| Upgrade.InstallJavascriptAssets | src/Command/Upgrade.php:121-130 | `npm install` then `npm run dev` run exactly when the mix manifest is absent |
| Upgrade.Install | src/Command/Upgrade.php:75-87 | preparing the new build starts by copying `.env`; when it goes through it has done exactly, in order: the `.env` copy, the manifest rewrite, `composer install` unless `vendor` exists, the i18next update on 4.0.16, the storage copy and link, the base installs and horizon, the `composer require`, one install per private package, the migration, npm unless the mix manifest exists, and the cache clear; with every command succeeding it goes through |
| Upgrade.InstallAfterEnv | src/Command/Upgrade.php:76-87 | the manifest rewrite, then the dependency steps, then the package and asset steps, each in full and in that order |
| Upgrade.Dependencies | src/Command/Upgrade.php:77-79 | `composer install` unless `vendor` exists, then the i18next update on 4.0.16, then the storage copy and link; nothing else |
| Upgrade.Packages | src/Command/Upgrade.php:81-87 | the package installs, then the migration, the assets and the cache clear, in that order |
| Upgrade.PackageInstalls | src/Command/Upgrade.php:81-82 | the base installs and horizon come before the `composer require` of the private packages and their installs |
| Upgrade.Finish | src/Command/Upgrade.php:84-87 | the migration runs first and the cache clear last, with npm in between unless the mix manifest exists |
| Upgrade.InstallAndCutover | src/Command/Upgrade.php:75-93 | preparing the new build and then switching to it: the first effect is the `.env` copy, a finished stage ends with the five cutover actions, and its trace is the preparation followed by the cutover |
| Upgrade.Cutover | src/Command/Upgrade.php:89-93 | the new build goes down, the old link is removed and recreated to point at the new build, horizon is terminated, and the new build comes up, in that order; with every command succeeding it goes through |
| Upgrade.BuildAndSwitch | src/Command/Upgrade.php:74-95 | everything after the backups: a clean stop only happens through a declined question on an archive; a directory's first effect is the `.env` copy into it; a missing archive and an unknown extension fail as in `extractRepo` |
| Upgrade.BuildAndSwitchFollowsPlan | src/Command/Upgrade.php:74-95 | when the rest of the run goes through it has done exactly the plan (extraction, preparation, cutover) and ends with the five cutover actions; when it stops, it has done a prefix of the plan; with every command succeeding and nothing else stopping the extraction, it goes through |
| Upgrade.Call | src/Command/Upgrade.php:60-96 | the run never finishes with a failed command, and it stops at the first one |
| Upgrade.Execute | src/Command/Upgrade.php:46-58 | a run that did not fail had every command succeed; a run with a failed command stopped right after it, reporting its message |
| UpgradeProperties.InvalidInstallationDoesNothing | src/Command/Upgrade.php:62-69 | a missing or non-symlink installation fails with its message before anything is run |
| UpgradeProperties.BackupsComeFirst | src/Command/Upgrade.php:70-74 | on a valid installation, taking the old build down and the two dumps come before anything else, and a run that did not fail has issued all three |
| UpgradeProperties.FinishedRunEndsWithCutover | src/Command/Upgrade.php:89-95 | a finished run had every command succeed, began with the backups and ended with the cutover, `artisan up` on the new build last |
| UpgradeProperties.RunFollowsPlanPrefix | src/Command/Upgrade.php:60-95 | whatever ends it (a failure, a refusal, an invalid installation), every run has done a prefix of the backups followed by the plan: nothing out of order and nothing besides |
| UpgradeProperties.UnreadableEnvLeavesOldBuildDown | src/Command/Upgrade.php:167-172 | when Dotenv cannot load the old build's `.env`, the run fails with Dotenv's message right after `artisan down` on the old build: no dump is taken and the old build stays down |
| UpgradeProperties.FinishedRunFollowsPlan | src/Command/Upgrade.php:60-95 | a finished run issued exactly the backups followed by the plan, each step once and in order |
| UpgradeProperties.ReliableRunFollowsPlan | src/Command/Upgrade.php:60-95 | on a valid installation whose `.env` loads, with a usable, accepted archive (or a directory) and every command succeeding, the run finishes, and its trace is the backups followed by the plan |
| UpgradeProperties.DeclineLeavesTargetAlone | src/Command/Upgrade.php:295-304 | a declined run issued only the backups and unpacking commands: nothing was copied to the target, and the target was cleared only if it is a scratch path |
| UpgradeProperties.TargetIsNoScratchPath | src/Command/Upgrade.php:283-300 | when the version holds no `/`, the target `<parent>/<name>-<version>` is none of the scratch paths `pm4_extracted`, `pm4_unzipped`, `pm4_untared` |
| UpgradeProperties.DeclineNeverClearsTarget | src/Command/Upgrade.php:295-304 | when the version holds no `/`, a declined run never removes the target directory |
| UpgradeProperties.DirectoryIsUsedAsIs | src/Command/Upgrade.php:273-277 | with a directory argument and a readable `.env`, nothing is asked, and after the backups the next effect is copying `.env` into that directory |
| UpgradeProperties.MissingArchiveFails | src/Command/Upgrade.php:279-281 | a missing archive fails with "Archive not found" right after the backups (which need a readable `.env`) |
| UpgradeProperties.UnknownExtensionFails | src/Command/Upgrade.php:283-292 | an archive with another extension fails with "Unknown file extension" right after the backups (which need a readable `.env`) and the clearing of the extract path |

## Left out

- Console output (`info`, the `--> ` prefixing of streamed output) is not modelled: it changes no state and no outcome.
- The confirmation prompts are a script of answers (`Upgrade.Confirm`). The terminal dialogue of Symfony's question helper is not modelled.
- `popen`, `fread` and `pclose` are the chunk sequence and exit status given to `Runner.Call`. Process creation itself is not modelled.
- File tests, `realpath`, `getcwd`, `sys_get_temp_dir`, `time()`, `json_decode` of `composer.json` and the `scandir` listing are fields of the `World`. They are read once, as the values the command sees at that moment.
- Dotenv is reduced to whether the old build's `.env` loads, the message it raises when it does not, and the values it yields. The loading itself is not modelled.
- The oracle's verdict depends only on the command line, so a command issued twice gets the same result both times. Examples are the stale and the final `rm -rf` of a scratch directory, and a PACKAGES line `passport` whose `passport:install` repeats a base install. A host on which a repeated command behaves differently is not modelled.
- ZipArchive and PharData are reduced to "the archive opens" and, for PharData, an opaque error message. The copy to `pm4.tar.gz` and the unlinking of temporary tar files are not in the trace, because no property depends on them.
- The JSON encoding of `composer.json` is not modelled. The manifest is a record whose other keys are kept as they are. A missing `repositories` key is an empty list.
- The injected HTTP client is never used by the command and is not modelled.
- The commented-out `chown` and `php-fpm` restart issue nothing and are not modelled.
- Regular-expression matching in the test double is the parameter `matches`.
- Upgrade.MoveToExtractPath: the orchestrator moves the directory chosen by the corrected rule (`Unpack.DirToMove`), not the one the code as written picks; the two differ only for the listing shown under "## Findings".
- Upgrade.Call: this is the stage contract only. Its run-level consequences are the lemmas in `UpgradeProperties`.
- Both `Done` and `Aborted` end through `ExitException` and exit successfully. The model keeps them apart so that a finished run and a declined one can be told apart.
- tests/UpgradeTest.php drives the command end to end and is not part of this model.
- The code runs `artisan down` on the old build before the database dumps, and copies storage before installing the base packages. The model follows this order from the code.

## Findings

| source | as written | input that shows it | evidently intended | confidence | as-written member | corrected member |
|---|---|---|---|---|---|---|
| src/Command/Upgrade.php:331-336 | `array_filter` keeps the keys of the `scandir($tempDir, 1)` listing, and the code then reads `$folders[0]` | an archive whose single top-level folder sorts below `.` in byte order, such as `-build`; in the C locale the descending listing is `..`, `.`, `-build`, so key 0 is unset and the code runs `mv <tmp>/ <extract path>` | move the one visible entry, whatever its key | not executed | Unpack.AsWrittenMissesLowWrapper | Unpack.WrapperStripped |
