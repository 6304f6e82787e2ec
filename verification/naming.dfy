/** The pure string builders of src/Command/Upgrade.php: environment key
    lookup, backup file names, the new build's directory, and the one-off
    compatibility shim for release 4.0.16 (package pins, the horizon
    subcommand, the i18next update). */
module Naming {
  import Strings

  /** The one release that gets the legacy treatment; matched exactly. */
  const Legacy := "4.0.16"

  /** The artisan install subcommands run for every new build, in order. */
  const BasePackageInstall: seq<string> := [
    "docker-executor-php:install",
    "docker-executor-lua:install",
    "docker-executor-node:install",
    "passport:install"
  ]

  /** Package pins applied when upgrading to the legacy release. */
  const VersionsFor4016: map<string, string> := map[
    "connector-send-email" := "1.2.4",
    "package-savedsearch" := "1.9.5",
    "package-collections" := "1.6.4",
    "package-webentry" := "1.2.5",
    "package-dynamic-ui" := "1.0.1",
    "package-files" := "1.1.5"
  ]

  /** `is4016`: a strict comparison with the legacy version string. */
  predicate IsLegacy(version: string)
  {
    version == Legacy
  }

  // ---------------------------------------------------------------------------
  // Environment

  /** The key actually read from the loaded `.env` values: the data
      database's host is stored under `DATA_DB_HOST`, every other key is
      read as asked. */
  function EnvKey(key: string): string
  {
    if key == "DATA_DB_HOSTNAME" then "DATA_DB_HOST" else key
  }

  /** `env($key)`. An absent key reads as null, which PHP renders as the
      empty string inside the dump command. */
  function EnvLookup(env: map<string, string>, key: string): string
  {
    if EnvKey(key) in env then env[EnvKey(key)] else ""
  }

  /** The remap is the identity except that it merges `DATA_DB_HOSTNAME`
      into `DATA_DB_HOST`: no other two keys ever read the same value. */
  lemma EnvKeyOnlyMergesDataHost(a: string, b: string)
    ensures EnvKey(a) == EnvKey(b) <==> a == b || {a, b} == {"DATA_DB_HOSTNAME", "DATA_DB_HOST"}
  {
    if {a, b} == {"DATA_DB_HOSTNAME", "DATA_DB_HOST"} {
      assert a in {"DATA_DB_HOSTNAME", "DATA_DB_HOST"} && b in {"DATA_DB_HOSTNAME", "DATA_DB_HOST"};
    }
    if EnvKey(a) == EnvKey(b) && a != b {
      assert a == "DATA_DB_HOSTNAME" || b == "DATA_DB_HOSTNAME";
    }
  }

  /** Every key but `DATA_DB_HOSTNAME` is looked up unchanged. */
  lemma EnvLookupUnchangedKeys(env: map<string, string>, key: string)
    requires key != "DATA_DB_HOSTNAME"
    ensures key in env ==> EnvLookup(env, key) == env[key]
    ensures key !in env ==> EnvLookup(env, key) == ""
  {
  }

  // ---------------------------------------------------------------------------
  // Paths

  /** `<parent>/<basename>-backup-<prefix><database>-<time>.sql`. */
  function BackupPath(parent: string, base: string, prefix: string, database: string, time: nat): string
  {
    parent + "/" + base + "-backup-" + prefix + database + "-" + Strings.NatToString(time) + ".sql"
  }

  /** Two dumps taken in the same second land in the same file exactly when
      their prefix and database name spell the same string. */
  lemma BackupPathsCollide(parent: string, base: string, p1: string, d1: string, p2: string, d2: string, time: nat)
    ensures BackupPath(parent, base, p1, d1, time) == BackupPath(parent, base, p2, d2, time)
        <==> p1 + d1 == p2 + d2
  {
    var head := parent + "/" + base + "-backup-";
    var tail := "-" + Strings.NatToString(time) + ".sql";
    assert BackupPath(parent, base, p1, d1, time) == head + (p1 + d1) + tail;
    assert BackupPath(parent, base, p2, d2, time) == head + (p2 + d2) + tail;
    if BackupPath(parent, base, p1, d1, time) == BackupPath(parent, base, p2, d2, time) {
      var m := head + (p1 + d1) + tail;
      assert p1 + d1 == m[|head|..|m| - |tail|];
      assert p2 + d2 == m[|head|..|m| - |tail|];
    }
  }

  /** The directory an extracted build is copied to:
      `<parent>/<basename>-<version>`. */
  function TargetPath(parent: string, base: string, version: string): string
  {
    parent + "/" + base + "-" + version
  }

  /** The new build is a sibling of the old one whose name is the old name,
      a dash and the version. */
  lemma TargetPathBasename(parent: string, base: string, version: string)
    requires '/' !in base && '/' !in version
    ensures Strings.Basename(TargetPath(parent, base, version)) == base + "-" + version
  {
    assert TargetPath(parent, base, version) == parent + "/" + (base + "-" + version);
    Strings.BasenameOfChild(parent, base + "-" + version);
  }

  // ---------------------------------------------------------------------------
  // Packages

  /** The `:<pin>` suffix of a private package for a given version. */
  function Pin(version: string, name: string): string
  {
    if IsLegacy(version) && name in VersionsFor4016 then ":" + VersionsFor4016[name] else ""
  }

  /** A pin is added exactly for the legacy version and a name in its table. */
  lemma PinOnlyForLegacy(version: string, name: string)
    ensures Pin(version, name) != "" <==> version == Legacy && name in VersionsFor4016
  {
  }

  function RequireEntry(version: string, name: string): string
  {
    "processmaker/" + name + Pin(version, name)
  }

  function RequireEntries(version: string, names: seq<string>): (entries: seq<string>)
    ensures |entries| == |names|
  {
    seq(|names|, i requires 0 <= i < |names| => RequireEntry(version, names[i]))
  }

  /** The argument string of the single `composer require`. */
  function RequireArgs(version: string, names: seq<string>): string
  {
    Strings.Join(RequireEntries(version, names), ' ')
  }

  /** `horizon:assets` for the legacy release, `horizon:install` otherwise. */
  function HorizonCommand(version: string): string
  {
    if IsLegacy(version) then "horizon:assets" else "horizon:install"
  }

  /** One `<name>:install` artisan subcommand per private package, in order. */
  function InstallCommands(names: seq<string>): (cmds: seq<string>)
    ensures |cmds| == |names|
  {
    seq(|names|, i requires 0 <= i < |names| => names[i] + ":install")
  }

  /** Off the legacy release nothing is pinned and horizon is installed. */
  lemma NoShimOffLegacy(version: string, names: seq<string>)
    requires version != Legacy
    ensures forall i | 0 <= i < |names| :: RequireEntries(version, names)[i] == "processmaker/" + names[i]
    ensures HorizonCommand(version) == "horizon:install"
  {
    forall i | 0 <= i < |names|
      ensures RequireEntries(version, names)[i] == "processmaker/" + names[i]
    {
      assert Pin(version, names[i]) == "";
    }
  }

  /** On the legacy release every name in the table gets its pin, the others
      stay bare, and horizon's assets are published instead. */
  lemma ShimOnLegacy(names: seq<string>)
    ensures forall i | 0 <= i < |names| && names[i] in VersionsFor4016 ::
      RequireEntries(Legacy, names)[i] == "processmaker/" + names[i] + ":" + VersionsFor4016[names[i]]
    ensures forall i | 0 <= i < |names| && names[i] !in VersionsFor4016 ::
      RequireEntries(Legacy, names)[i] == "processmaker/" + names[i]
    ensures HorizonCommand(Legacy) == "horizon:assets"
  {
  }

  /** The `composer require` argument list is the packages' entries, one per
      package, in order, separated by single spaces: cutting it at spaces
      gives the entries back. */
  lemma RequireArgsLists(version: string, names: seq<string>)
    requires |names| >= 1
    requires forall i | 0 <= i < |names| :: ' ' !in names[i]
    ensures Strings.Split(RequireArgs(version, names), ' ') == RequireEntries(version, names)
  {
    var entries := RequireEntries(version, names);
    forall i | 0 <= i < |entries|
      ensures ' ' !in entries[i]
    {
      var name := names[i];
      assert ' ' !in "processmaker/";
      assert ' ' !in Pin(version, name) by {
        if IsLegacy(version) && name in VersionsFor4016 {
          var v := VersionsFor4016[name];
          assert v in VersionsFor4016.Values;
          assert forall w | w in VersionsFor4016.Values :: ' ' !in w;
        }
      }
      assert entries[i] == "processmaker/" + name + Pin(version, name);
    }
    Strings.SplitJoin(entries, ' ');
  }

  // ---------------------------------------------------------------------------
  // The PACKAGES file

  /** The PACKAGES file next to the command: absent, or the lines `file()`
      returned, each still carrying its line terminator. */
  datatype PackagesFile = Missing | Lines(lines: seq<string>)

  /** `privatePackages`: each line trimmed; a missing file means no packages. */
  function PrivatePackages(file: PackagesFile): (names: seq<string>)
    ensures file.Missing? ==> names == []
    ensures file.Lines? ==> |names| == |file.lines|
    ensures file.Lines? ==> forall i | 0 <= i < |names| :: names[i] == Strings.Trim(file.lines[i])
  {
    match file
    case Missing => []
    case Lines(lines) => seq(|lines|, i requires 0 <= i < |lines| => Strings.Trim(lines[i]))
  }
}
