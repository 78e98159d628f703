/**
 * A Discord installation as `DiscordInstall` sees it: how one is detected on
 * each platform, the injection transitions over the `app.asar` /
 * `_app.asar` / `app` triple in its resources directory, and the commands
 * that kill and start it.
 */
module Install {
  import opened Outcomes
  import opened FileSystem
  import opened Kind
  import opened Text
  import opened Platform

  /** JSON manifest of the shim package that replaces `app.asar`. */
  const PackageJson: string := "{\n    \"name\": \"discord\",\n    \"main\": \"./injector.js\",\n    \"private\": true\n}"

  /** The shim script is `Injector1`, the path of the mod's injector, then `Injector2`. */
  const Injector1: string := "require(\""
  const Injector2: string := "\").inject(require(\"path\").resolve(__dirname, \"../_app.asar\"));"

  /** How a Linux install is packaged. */
  datatype Flatpak = System | User | Not

  /** The scope of a Linux install from the text of its path. */
  function ClassifyFlatpak(text: string): (f: Flatpak)
    ensures f == System <==> Contains(text, "/flatpak/") && Contains(text, "/var")
    ensures f == User <==> Contains(text, "/flatpak/") && !Contains(text, "/var")
    ensures f == Not <==> !Contains(text, "/flatpak/")
  {
    var flatpak := Contains(text, "/flatpak/");
    var sysFlatpak := flatpak && Contains(text, "/var");
    if sysFlatpak then System else if flatpak then User else Not
  }

  // The three entries of a resources directory the injection works on.
  function AsarAt(root: Path): Path { root + ["app.asar"] }
  function BackupAt(root: Path): Path { root + ["_app.asar"] }
  function ShimAt(root: Path): Path { root + ["app"] }

  /** The text the shim's `injector.js` holds for a mod installed at `moonlightRoot`. */
  function InjectorScript(moonlightRoot: Path): string {
    Injector1 + PathText(moonlightRoot + ["dist", "injector.js"]) + Injector2
  }

  /** The detection rule for an injected Windows or macOS install. */
  predicate ShowsInjection(fs: Fs, root: Path) {
    ShimAt(root) in fs || IsDir(fs, AsarAt(root))
  }

  /**
   * One installation. `flatpak` and `isSysElectron` exist on Linux only; on the
   * other platforms they are `Not` and false. `injected` is decided once, when
   * the record is built, and never refreshed.
   */
  datatype DiscordInstall = DiscordInstall(
    os: Os,
    kind: DiscordKind,
    path: Path,
    injected: bool,
    isOpenAsar: bool,
    flatpak: Flatpak,
    isSysElectron: bool)
  {
    /** The directory that holds `app.asar`. */
    function ResourcesRoot(): (root: Path)
      ensures path <= root
      ensures os == Linux && isSysElectron ==> root == path
      ensures os == MacOS ==> root == path + ["Contents", "Resources"]
      ensures (os == Windows || (os == Linux && !isSysElectron)) ==> root == path + ["resources"]
    {
      match os
      case Windows => path + ["resources"]
      case MacOS => path + ["Contents", "Resources"]
      case Linux => if isSysElectron then path else path + ["resources"]
    }

    method MoveDiscordItems(disk: Disk) returns (r: Result<()>)
      requires disk.Valid()
      modifies disk
      ensures disk.Valid()
      ensures Outcome(r, disk.entries) == MoveOutcome(old(disk.entries), ResourcesRoot())
    {
      var root := ResourcesRoot();
      var appAsar := AsarAt(root);
      var backup := BackupAt(root);
      var present := disk.Exists(appAsar);
      r := Ok(());
      if present {
        r := disk.Rename(appAsar, backup);
      }
    }

    method UnmoveDiscordItems(disk: Disk) returns (r: Result<()>)
      requires disk.Valid()
      modifies disk
      ensures disk.Valid()
      ensures Outcome(r, disk.entries) == UnmoveOutcome(old(disk.entries), ResourcesRoot())
    {
      var root := ResourcesRoot();
      var appAsar := AsarAt(root);
      var backup := BackupAt(root);
      var present := disk.Exists(appAsar);
      if present {
        var isDir := disk.IsDirectory(appAsar);
        var backedUp := disk.Exists(backup);
        if isDir {
          r := disk.RemoveDirAll(appAsar);
          if r.Err? {
            return;
          }
        } else if backedUp {
          r := disk.RemoveFile(appAsar);
          if r.Err? {
            return;
          }
        }
      }
      r := disk.Rename(backup, appAsar);
    }

    method WriteInjectionFiles(disk: Disk, moonlightRoot: Path) returns (r: Result<()>)
      requires disk.Valid()
      modifies disk
      ensures disk.Valid()
      ensures Outcome(r, disk.entries) == WriteOutcome(old(disk.entries), ResourcesRoot(), moonlightRoot)
    {
      var shim := ShimAt(ResourcesRoot());
      r := MakeShim(disk, shim);
      if r.Err? {
        return;
      }
      r := WriteShimFiles(disk, shim, moonlightRoot);
    }

    /** The shim directory of `write_injection_files`, created when it does not exist. */
    static method MakeShim(disk: Disk, shim: Path) returns (r: Result<()>)
      requires disk.Valid()
      modifies disk
      ensures disk.Valid()
      ensures Outcome(r, disk.entries) == ShimMade(old(disk.entries), shim)
    {
      var present := disk.Exists(shim);
      r := Ok(());
      if !present {
        r := disk.CreateDirAll(shim);
      }
    }

    /** The two writes of `write_injection_files`, into an existing shim directory. */
    static method WriteShimFiles(disk: Disk, shim: Path, moonlightRoot: Path) returns (r: Result<()>)
      requires disk.Valid()
      modifies disk
      ensures disk.Valid()
      ensures Outcome(r, disk.entries) == ShimFilesWritten(old(disk.entries), shim, moonlightRoot)
    {
      r := disk.Write(shim + ["package.json"], PackageJson);
      if r.Err? {
        return;
      }
      r := disk.Write(shim + ["injector.js"], InjectorScript(moonlightRoot));
    }

    method RmInjectionFiles(disk: Disk) returns (r: Result<()>)
      requires disk.Valid()
      modifies disk
      ensures disk.Valid()
      ensures Outcome(r, disk.entries) == RemoveOutcome(old(disk.entries), ResourcesRoot())
    {
      var shim := ShimAt(ResourcesRoot());
      var present := disk.Exists(shim);
      r := Ok(());
      if present {
        r := disk.RemoveDirAll(shim);
        if r.Err? {
          return;
        }
      }
      var oldAsar := shim + ["_app.asar"];
      var asar := shim + ["app.asar"];
      var stale := disk.Exists(oldAsar);
      if stale {
        r := disk.Rename(oldAsar, asar);
      }
    }

    method Uninject(disk: Disk) returns (r: Result<()>)
      requires disk.Valid()
      modifies disk
      ensures disk.Valid()
      ensures Outcome(r, disk.entries) == UninjectOutcome(this, old(disk.entries))
    {
      if !injected {
        return Ok(());
      }
      r := UnmoveDiscordItems(disk);
      if r.Err? {
        return;
      }
      r := RmInjectionFiles(disk);
    }

    method Inject(disk: Disk, moonlightRoot: Path) returns (r: Result<()>)
      requires disk.Valid()
      modifies disk
      ensures disk.Valid()
      ensures Outcome(r, disk.entries) == InjectOutcome(this, old(disk.entries), moonlightRoot)
    {
      if injected {
        r := Uninject(disk);
        if r.Err? {
          return;
        }
      }
      r := MoveThenWrite(disk, moonlightRoot);
    }

    /** The steps of `inject` after the reset: move the archive aside, then write the shim. */
    method MoveThenWrite(disk: Disk, moonlightRoot: Path) returns (r: Result<()>)
      requires disk.Valid()
      modifies disk
      ensures disk.Valid()
      ensures Outcome(r, disk.entries) == FreshInjectOutcome(old(disk.entries), ResourcesRoot(), moonlightRoot)
    {
      r := MoveDiscordItems(disk);
      if r.Err? {
        return;
      }
      r := WriteInjectionFiles(disk, moonlightRoot);
    }

    method ModifyMoonlightRoot(disk: Disk, moonlightRoot: Path) returns (r: Result<()>)
      requires disk.Valid()
      modifies disk
      ensures disk.Valid()
      ensures Outcome(r, disk.entries) == ModifyRootOutcome(this, old(disk.entries), moonlightRoot)
    {
      if !injected {
        r := Inject(disk, moonlightRoot);
        return;
      }
      r := WriteInjectionFiles(disk, moonlightRoot);
    }

    /** What `kill` does: end processes by image name, or run a command. */
    function KillAction(): (a: Action)
      requires os == MacOS ==> |path| > 0
      ensures os == Windows <==> a.TerminateByName?
      ensures os == Windows ==> a.image == KindName(kind) + ".exe"
      ensures os == Linux && flatpak == System ==> a == RunCommand(["flatpak", "kill", FlatpakId])
      ensures os == Linux && flatpak == User ==> a == RunCommand(["flatpak", "kill", "--user", FlatpakId])
      ensures os == Linux && flatpak == Not ==> a == RunCommand(["killall", KindName(kind)])
      ensures a.RunCommand? ==> |a.parts| > 0
    {
      match os
      case Windows => TerminateByName(KindName(kind) + ".exe")
      case MacOS => RunCommand(["killall", ReplaceAll(path[|path| - 1], ".app", "")])
      case Linux =>
        match flatpak
        case System => RunCommand(["flatpak", "kill", FlatpakId])
        case User => RunCommand(["flatpak", "kill", "--user", FlatpakId])
        case Not => RunCommand(["killall", KindName(kind)])
    }

    /** `kill`, with the process snapshot and the command runner as inputs. */
    function KillResult(snapshot: Snapshot, run: Runner): (r: Result<()>)
      requires os == MacOS ==> |path| > 0
      ensures r.Err? ==> r.error == KillFailed
      ensures r.Ok? <==> PerformedOk(KillAction(), snapshot, run)
    {
      if PerformedOk(KillAction(), snapshot, run) then Ok(()) else Err(KillFailed)
    }

    /** Whether `kill` ends every matching process (`killall`, `flatpak kill`) or the first one. */
    predicate KillsAll() {
      os != Windows
    }

    /**
     * `kill` against a table of running processes: it succeeds exactly when a
     * process was running and ends all of them, or on Windows the first one.
     */
    method Kill(procs: ProcessTable) returns (r: Result<()>)
      modifies procs
      ensures r.Err? ==> r.error == KillFailed
      ensures r.Ok? <==> old(procs.running) > 0
      ensures procs.running == (if r.Err? then old(procs.running) else if KillsAll() then 0 else old(procs.running) - 1)
    {
      var ok := procs.Terminate(KillsAll());
      r := if ok then Ok(()) else Err(KillFailed);
    }

    /** What `start` does: a detached launch of a file, a command, or nothing it can do. */
    function StartAction(): (a: Action)
      ensures os == Linux && flatpak == Not <==> a == NoLauncher
      ensures os == Linux && flatpak == System ==> a == RunCommand(["flatpak", "run", FlatpakId])
      ensures os == Linux && flatpak == User ==> a == RunCommand(["flatpak", "run", "--user", FlatpakId])
      ensures os == Windows ==> a == Launch(PathText(path + [KindName(kind) + ".exe"]))
      ensures os == MacOS ==> a == Launch(PathText(path + ["Contents", "MacOS", "Discord"]))
      ensures a.RunCommand? ==> |a.parts| > 0
    {
      match os
      case Windows => Launch(PathText(path + [KindName(kind) + ".exe"]))
      case MacOS => Launch(PathText(path + ["Contents", "MacOS", "Discord"]))
      case Linux =>
        match flatpak
        case System => RunCommand(["flatpak", "run", FlatpakId])
        case User => RunCommand(["flatpak", "run", "--user", FlatpakId])
        case Not => NoLauncher
    }

    /** `start`, with the outcome of a detached launch and the command runner as inputs. */
    function StartResult(launched: bool, run: Runner): (r: Result<()>)
      ensures StartAction() == NoLauncher ==> r == Err(Unsupported)
      ensures StartAction().Launch? ==> (r.Ok? <==> launched)
      ensures StartAction().RunCommand? ==> (r.Ok? <==> CmdIsOk(StartAction().parts, None, run))
      ensures r.Err? ==> r.error in {StartFailed, Unsupported}
    {
      match StartAction()
      case NoLauncher => Err(Unsupported)
      case Launch(_) => if launched then Ok(()) else Err(StartFailed)
      case RunCommand(parts) => if CmdIsOk(parts, None, run) then Ok(()) else Err(StartFailed)
      case TerminateByName(_) => Err(StartFailed)
    }
  }

  /** The Flathub application id of Discord. */
  const FlatpakId: string := "com.discordapp.Discord"

  /** A process-level action `kill` or `start` takes. */
  datatype Action =
    | TerminateByName(image: string)
    | RunCommand(parts: seq<string>)
    | Launch(target: string)
    | NoLauncher

  /** Whether the action succeeded, given the process snapshot and the command runner. */
  function PerformedOk(a: Action, snapshot: Snapshot, run: Runner): bool {
    match a
    case TerminateByName(image) => TermByNameResult(snapshot, image)
    case RunCommand(parts) => |parts| > 0 && CmdIsOk(parts, None, run)
    case Launch(_) => false
    case NoLauncher => false
  }

  // ---------------------------------------------------------------------------
  // The transitions as functions of the filesystem before them.

  /** `move_discord_items`: set the original archive aside as `_app.asar`. */
  function MoveOutcome(fs: Fs, root: Path): Outcome<()> {
    if AsarAt(root) in fs then Apply(fs, Renamed(fs, AsarAt(root), BackupAt(root)))
    else Outcome(Ok(()), fs)
  }

  /** `unmove_discord_items`: clear `app.asar` when it is a directory or a backup exists, then restore the backup. */
  function UnmoveOutcome(fs: Fs, root: Path): Outcome<()> {
    var a := AsarAt(root);
    var b := BackupAt(root);
    var cleared :=
      if a in fs && fs[a].Dir? then Apply(fs, TreeRemoved(fs, a))
      else if a in fs && b in fs then Apply(fs, FileRemoved(fs, a))
      else Outcome(Ok(()), fs);
    if cleared.result.Err? then cleared
    else Apply(cleared.fs, Renamed(cleared.fs, b, a))
  }

  /** The shim directory, created with its missing ancestors unless something is there already. */
  function ShimMade(fs: Fs, shim: Path): Outcome<()> {
    if shim in fs then Outcome(Ok(()), fs) else Apply(fs, DirsCreated(fs, shim))
  }

  /** `write_injection_files`: create the shim directory if missing, then its two files. */
  function WriteOutcome(fs: Fs, root: Path, moonlightRoot: Path): Outcome<()> {
    var shim := ShimAt(root);
    var made := ShimMade(fs, shim);
    if made.result.Err? then made
    else ShimFilesWritten(made.fs, shim, moonlightRoot)
  }

  /** `package.json`, then `injector.js`, written into the shim directory. */
  function ShimFilesWritten(fs: Fs, shim: Path, moonlightRoot: Path): Outcome<()> {
    var package := Apply(fs, Written(fs, shim + ["package.json"], PackageJson));
    if package.result.Err? then package
    else Apply(package.fs, Written(package.fs, shim + ["injector.js"], InjectorScript(moonlightRoot)))
  }

  /** `rm_injection_files`: remove the shim directory, then rename a `_app.asar` found inside it. */
  function RemoveOutcome(fs: Fs, root: Path): Outcome<()> {
    var shim := ShimAt(root);
    var cleared := if shim in fs then Apply(fs, TreeRemoved(fs, shim)) else Outcome(Ok(()), fs);
    if cleared.result.Err? then cleared
    else if shim + ["_app.asar"] in cleared.fs then
      Apply(cleared.fs, Renamed(cleared.fs, shim + ["_app.asar"], shim + ["app.asar"]))
    else cleared
  }

  /** `uninject`: nothing for a record built as not injected; else restore the archive, then remove the shim. */
  function UninjectOutcome(rec: DiscordInstall, fs: Fs): Outcome<()> {
    if !rec.injected then Outcome(Ok(()), fs)
    else
      var unmoved := UnmoveOutcome(fs, rec.ResourcesRoot());
      if unmoved.result.Err? then unmoved
      else RemoveOutcome(unmoved.fs, rec.ResourcesRoot())
  }

  /** `inject`: uninject a record built as injected, then move the archive aside and write the shim. */
  function InjectOutcome(rec: DiscordInstall, fs: Fs, moonlightRoot: Path): Outcome<()> {
    var reset := UninjectOutcome(rec, fs);
    if reset.result.Err? then reset
    else FreshInjectOutcome(reset.fs, rec.ResourcesRoot(), moonlightRoot)
  }

  /** The steps of `inject` after the reset: move the archive aside, then write the shim. */
  function FreshInjectOutcome(fs: Fs, root: Path, moonlightRoot: Path): Outcome<()> {
    var moved := MoveOutcome(fs, root);
    if moved.result.Err? then moved
    else WriteOutcome(moved.fs, root, moonlightRoot)
  }

  /** `modify_moonlight_root`: inject a record built as not injected, else rewrite the shim files only. */
  function ModifyRootOutcome(rec: DiscordInstall, fs: Fs, moonlightRoot: Path): Outcome<()> {
    if !rec.injected then InjectOutcome(rec, fs, moonlightRoot)
    else WriteOutcome(fs, rec.ResourcesRoot(), moonlightRoot)
  }

  // ---------------------------------------------------------------------------
  // Detection.

  /** `older(a, b)`: folder `a` holds an older version than folder `b`. */
  ghost predicate StrictWeakOrder(older: (string, string) -> bool) {
    (forall a, b :: older(a, b) ==> !older(b, a)) &&
    (forall a, b, c :: !older(a, b) && !older(b, c) ==> !older(a, c))
  }

  /** The entry names of a directory listing that contain `app-`, in listing order. */
  function AppFolders(listing: seq<string>): (folders: seq<string>)
    ensures forall n :: n in folders <==> n in listing && Contains(n, "app-")
    ensures |folders| <= |listing|
  {
    if |listing| == 0 then []
    else if Contains(listing[0], "app-") then [listing[0]] + AppFolders(listing[1..])
    else AppFolders(listing[1..])
  }

  /**
   * The folder a stable ascending sort, a reversal and `first` select: one no
   * folder is newer than, and the last such one in listing order.
   */
  function NewestIndex(names: seq<string>, older: (string, string) -> bool): (i: nat)
    requires |names| > 0 && StrictWeakOrder(older)
    ensures i < |names|
    ensures forall j | 0 <= j < |names| :: !older(names[i], names[j])
    ensures forall j | i < j < |names| :: older(names[j], names[i])
  {
    if |names| == 1 then 0
    else
      var m := NewestIndex(names[..|names| - 1], older);
      var last := |names| - 1;
      assert forall j | 0 <= j < last :: names[..last][j] == names[j];
      if older(names[last], names[m]) then m else last
  }

  /** The entries directly inside `dir` are exactly the names of `listing`. */
  ghost predicate Lists(fs: Fs, dir: Path, listing: seq<string>) {
    forall n :: n in listing <==> dir + [n] in fs
  }

  /**
   * `DiscordInstall::new`: the record for the install at `path`, if it is a
   * valid one. On Windows `listing` is the order in which the directory's
   * entries are read and `older` the version order of folder names.
   */
  function New(os: Os, kind: DiscordKind, path: Path, fs: Fs, listing: seq<string>,
               older: (string, string) -> bool): (r: Option<DiscordInstall>)
    requires os == Windows ==> StrictWeakOrder(older) && (IsDir(fs, path) ==> Lists(fs, path, listing))
    ensures r.Some? ==> r.value.os == os && r.value.kind == kind && !r.value.isOpenAsar
    ensures r.Some? && os != Windows ==> r.value.path == path
    ensures r.Some? && os != Linux ==> r.value.flatpak == Not && !r.value.isSysElectron
  {
    match os
    case Windows =>
      if !IsDir(fs, path) then None
      else
        var folders := AppFolders(listing);
        if |folders| == 0 then None
        else
          var app := path + [folders[NewestIndex(folders, older)]];
          var res := app + ["resources"];
          if app + [KindName(kind) + ".exe"] in fs then
            Some(DiscordInstall(Windows, kind, app, ShowsInjection(fs, res), false, Not, false))
          else None
    case MacOS =>
      var res := path + ["Contents", "Resources"];
      if path in fs && res in fs then
        Some(DiscordInstall(MacOS, kind, path, ShowsInjection(fs, res), false, Not, false))
      else None
    case Linux =>
      var sysElectron := AsarAt(path) in fs;
      var flatpak := ClassifyFlatpak(PathText(path));
      var injected :=
        (sysElectron && path + ["_app.asar.unpacked"] in fs) ||
        (ShimAt(path) in fs && IsDir(fs, AsarAt(path + ["resources"])));
      var valid := if sysElectron then AsarAt(path) in fs else AsarAt(path + ["resources"]) in fs;
      if valid then Some(DiscordInstall(Linux, kind, path, injected, false, flatpak, sysElectron))
      else None
  }
}
