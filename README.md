# moon, modelled in Dafny

moon is a command-line installer for the moonlight Discord mod. It finds a
Discord install (Stable, PTB, Canary or Development) on Windows, macOS or
Linux. It injects the mod by moving the client's `app.asar` aside as
`_app.asar` and putting a small shim package `app/` in its place; the shim's
`injector.js` loads the mod's injector. It uninjects by restoring the
archive. It downloads moonlight builds from the Stable, Nightly or Git channel
into a directory and records the fetched version in `dist/version.txt` and the
channel in `dist/branch.txt`. The `down` action kills a running client until
killing fails, then uninjects it.

The model works over a filesystem value: a map from paths (sequences of
components) to files and directories, in which every entry hangs off a
directory. Each filesystem call the program makes (`rename`, `remove_dir_all`,
`create_dir_all`, `write`, reading a file, unpacking an archive, cloning a
repository) is a function from the map before it to a result and the map after
it; `FileSystem.Disk` performs the same calls in place. Each operation of the
program is a specification function of the filesystem before it (for example
`Install.InjectOutcome`). It is also a method of the record or module that runs
the steps on a `Disk` and is proved equal to that function, and lemmas prove
what the program promises about the functions.

Three behaviours of the code that the model reproduces:

- The `injected` flag of a `DiscordInstall` is computed once, when the record
  is built, and is never refreshed. So `uninject` on a record built before an
  `inject` does nothing (`InstallFacts.StaleUninjectDoesNothing`).
- On Linux, a client that is not system-Electron is no longer recognised after
  a successful injection. Its `resources/app.asar` has become `_app.asar`, and
  the injection test looks for `app` next to `resources` rather than inside it
  (`DetectionFacts.LinuxInstallLostAfterInject`).
- `remove_dir_all` of `app/` is followed by a rename of `app/_app.asar`, a path
  inside the directory just removed, so that rename never runs
  (`InstallFacts.RemoveNeverRenames`).

File and process names below are the program's own; integers are unbounded
and no fixed-width arithmetic occurs in the core.

## Model

| member | source | states |
|---|---|---|
| FileSystem.Contents | src/moonlight/download.rs:24 | reading a file succeeds exactly when a file is at the path |
| FileSystem.Written | src/discord/install.rs:288-289 | a write succeeds exactly when the parent is a directory and the path is not one, and then sets that one entry |
| FileSystem.FileRemoved | src/discord/install.rs:258 | removing a file succeeds exactly on a file and removes that entry only |
| FileSystem.TreeRemoved | src/discord/install.rs:255-256 | removing a directory tree succeeds exactly on a directory and removes it with everything below it |
| FileSystem.DirsCreated | src/discord/install.rs:284-285 | creating directories keeps every entry, adds only directories on the way to the path, and is a no-op on an existing directory |
| FileSystem.Renamed | src/discord/install.rs:229 | a rename only succeeds when its source exists |
| FileSystem.Unpacked | src/moonlight/download.rs:33 | unpacking adds the archive's tree below the target directory |
| FileSystem.Planted | src/moonlight/download.rs:81 | a clone creates the target directory holding the cloned tree |
| FileSystem.PrunedWellFormed | src/moonlight/download.rs:78 | removing a tree keeps every entry hanging off a directory |
| FileSystem.DirsCreatedSucceeds | src/discord/install.rs:284-285 | on a well-formed filesystem, creating directories succeeds exactly when no file stands at the path or at one of its ancestors |
| FileSystem.DirsCreatedWellFormed | src/moonlight/download.rs:16 | creating directories keeps the filesystem well formed |
| FileSystem.WrittenWellFormed | src/moonlight/download.rs:35-36 | writing a file keeps the filesystem well formed |
| FileSystem.FileRemovedWellFormed | src/discord/install.rs:258 | removing a file keeps the filesystem well formed |
| FileSystem.RenamedWellFormed | src/discord/install.rs:229 | a successful rename keeps the filesystem well formed |
| FileSystem.UnpackedWellFormed | src/moonlight/download.rs:33 | unpacking a well-formed archive keeps the filesystem well formed |
| FileSystem.PlantedWellFormed | src/moonlight/download.rs:81 | placing a well-formed clone keeps the filesystem well formed |
| FileSystem.RenamedLeafToFree | src/discord/install.rs:229 | renaming an entry with nothing below it onto a free sibling moves exactly that entry |
| FileSystem.RenamedFileToAbsent | src/discord/install.rs:261 | renaming a file onto an absent sibling moves exactly that file |
| FileSystem.AbsentMeansNothingBelow | src/discord/install.rs:228 | on a well-formed disk nothing lies below an absent path |
| FileSystem.Disk.Exists | src/discord/install.rs:228 | `exists` reports whether an entry is at the path |
| FileSystem.Disk.IsDirectory | src/discord/install.rs:252 | `is_dir` reports whether a directory is at the path |
| FileSystem.Disk.ReadToString | src/moonlight/download.rs:24 | reading a file returns its content, or the read error |
| FileSystem.Disk.Write | src/discord/install.rs:289 | `write` performs the write on the disk and keeps it well formed |
| FileSystem.Disk.RemoveFile | src/discord/install.rs:258 | `remove_file` performs the removal and keeps the disk well formed |
| FileSystem.Disk.RemoveDirAll | src/discord/install.rs:256 | `remove_dir_all` performs the tree removal and keeps the disk well formed |
| FileSystem.Disk.CreateDirAll | src/discord/install.rs:285 | `create_dir_all` performs the creation and keeps the disk well formed |
| FileSystem.Disk.Rename | src/discord/install.rs:229 | `rename` performs the rename and keeps the disk well formed |
| FileSystem.Disk.Unpack | src/moonlight/download.rs:33 | unpacking performs the graft and keeps the disk well formed |
| FileSystem.Disk.Plant | src/moonlight/download.rs:81 | cloning performs the placement and keeps the disk well formed |
| Text.FirstLine | src/moonlight/download.rs:45 | the first line is a prefix without a newline that ends at the end of the text or at a newline |
| Text.StripAppSuffix | src/discord/install.rs:362-366 | removing `.app` from `<name>.app` gives the name back when the name has no dot |
| Kind.KindName | src/discord/kind.rs:8-18 | every build's process name starts with "Discord" |
| Kind.ToString | src/discord/kind.rs:19-24 | the string form of a build is its process name |
| Kind.ArgumentOf | src/cli/args.rs:28 | every build has a command-line argument the parser accepts |
| Kind.KindNameInjective | src/discord/kind.rs:11-16 | two builds have the same process name exactly when they are the same build |
| Kind.ParseKind | src/discord/kind.rs:25-36 | defined exactly on the admitted arguments "stable", "ptb", "canary" and "development", and gives the build whose argument it is |
| Kind.ParseKindBijective | src/discord/kind.rs:25-36 | parsing a build's argument gives the build back, and every accepted argument is some build's |
| Kind.KindNameIsNotArgument | src/discord/kind.rs:8-36 | no process name is itself an accepted argument |
| Channel.BranchMarker | src/moonlight/download.rs:35-85 | every marker a download writes is an accepted channel argument |
| Channel.MarkerChannel | src/moonlight/mod.rs:12-17 | marker content other than a channel name reads as Stable |
| Channel.ParseChannel | src/moonlight/channel.rs:10-18 | defined exactly on the admitted arguments "stable", "nightly" and "git", and gives the channel whose name it is |
| Channel.ParseChannelBijective | src/moonlight/channel.rs:12-16 | parsing a channel's marker gives the channel back, and every accepted argument is some channel's marker |
| Channel.MarkerRoundTrip | src/moonlight/mod.rs:12-17 | the marker a download writes reads back as its channel |
| Channel.MarkerAgreesWithParser | src/moonlight/mod.rs:12-17 | reading a marker agrees with the channel parser on every accepted name |
| Channel.TrailingNewlineFallsBack | src/moonlight/mod.rs:12-17 | a marker with a trailing newline reads as Stable, since content is compared exactly |
| Platform.Env | src/platform.rs:224-226 | a variable's value when it is set, else the default |
| Platform.ConfDir | src/platform.rs:12-23 | the configuration directory per platform and per set variable, with the literal defaults |
| Platform.PretransactionChecks | src/platform.rs:86-107 | the check can only fail with the root-user error |
| Platform.RootCheckPrecedence | src/platform.rs:100-107 | Linux refuses exactly when SUDO_USER, or DOAS_USER when SUDO_USER is unset, is "root"; Windows and macOS never refuse |
| Platform.RootCheckReadsInvoker | src/platform.rs:101-102 | with neither variable set the check passes, so root logged in directly is not refused |
| Platform.CmdIsOk | src/platform.rs:25-38 | true exactly when the program, run with the remaining parts as arguments, ran and exited successfully |
| Platform.FirstMatchFrom | src/platform.rs:162-218 | the first snapshot entry at or after a position with the given image name, or none |
| Platform.WinTermByName | src/platform.rs:142-220 | the scan succeeds exactly when the first process of that name can be opened and terminated |
| Platform.ProcessTable.Terminate | src/platform.rs:175-218 | over a count of running processes, terminating succeeds exactly when one runs, and ends one or all of them |
| Locator.MacBundleName | src/platform.rs:65-70 | every bundle name starts with "Discord" |
| Locator.Probe | src/platform.rs:42-79 | the path looked at: `<LOCALAPPDATA>/<process name>` on Windows, `/Applications/<bundle>.app` on macOS |
| Locator.InstallsByKind | src/platform.rs:42-79 | at most one install, found exactly when the probed path holds a valid install of that build |
| Locator.MacBundleNameInjective | src/platform.rs:65-70 | distinct builds have distinct bundles |
| Locator.MacInstallCommands | src/discord/install.rs:356-372 | a macOS install found is the bundle; `kill` runs `killall <bundle name>` and `start` opens `Contents/MacOS/Discord` |
| Locator.WindowsInstallCommands | src/platform.rs:42-55 | a Windows install found is the newest `app-` folder of the build's directory, and `kill` ends `<process name>.exe` |
| Install.ClassifyFlatpak | src/discord/install.rs:102-113 | system flatpak exactly when the path text has `/flatpak/` and `/var`, user flatpak with `/flatpak/` alone, else not a flatpak |
| Install.AppFolders | src/discord/install.rs:39-44 | the listed entries whose names contain `app-`, and only those |
| Install.NewestIndex | src/discord/install.rs:45-66 | the folder picked by sort, reverse and first: none is newer, and every later one is older |
| Install.New | src/discord/install.rs:34-160 | a found record has the platform and build asked for, is never OpenAsar, keeps the path outside Windows and has no Linux flags elsewhere |
| Install.DiscordInstall.ResourcesRoot | src/discord/install.rs:209-223 | the resources directory per platform, always below the install path |
| Install.DiscordInstall.MoveDiscordItems | src/discord/install.rs:207-232 | moving the client's items performs the move outcome on the disk |
| Install.DiscordInstall.UnmoveDiscordItems | src/discord/install.rs:234-263 | restoring the items performs the unmove outcome on the disk |
| Install.DiscordInstall.WriteInjectionFiles | src/discord/install.rs:266-317 | writing the shim performs the write outcome on the disk |
| Install.DiscordInstall.MakeShim | src/discord/install.rs:283-286 | the shim directory is created when nothing is there |
| Install.DiscordInstall.WriteShimFiles | src/discord/install.rs:288-315 | `package.json`, then `injector.js`, are written into the shim |
| Install.DiscordInstall.RmInjectionFiles | src/discord/install.rs:319-346 | removing the shim performs the remove outcome on the disk |
| Install.DiscordInstall.Uninject | src/discord/install.rs:178-187 | `uninject` performs the uninject outcome on the disk |
| Install.DiscordInstall.Inject | src/discord/install.rs:162-176 | `inject` performs the inject outcome on the disk |
| Install.DiscordInstall.MoveThenWrite | src/discord/install.rs:172-175 | the steps of `inject` after the reset, moving the archive aside and then writing the shim, performed on the disk |
| Install.DiscordInstall.ModifyMoonlightRoot | src/discord/install.rs:190-205 | changing the mod root performs its outcome on the disk |
| Install.DiscordInstall.KillAction | src/discord/install.rs:348-410 | Windows ends `<process name>.exe` by name; Linux runs `flatpak kill` (with `--user` for a user flatpak) or `killall <process name>`; macOS runs a command |
| Install.DiscordInstall.KillResult | src/discord/install.rs:348-410 | `kill` succeeds exactly when its action succeeds, and fails with the kill error otherwise |
| Install.DiscordInstall.Kill | src/discord/install.rs:348-410 | against a process table, `kill` succeeds exactly when a process runs, ending all of them, or on Windows the first |
| Install.DiscordInstall.StartAction | src/discord/install.rs:411-474 | Windows and macOS launch the executable; a Linux flatpak runs `flatpak run`; a plain Linux install has no launcher |
| Install.DiscordInstall.StartResult | src/discord/install.rs:411-474 | `start` is unsupported without a launcher and otherwise succeeds exactly when the launch or command succeeds |
| InstallFacts.MoveUnmoveRoundTrip | src/discord/install.rs:226-261 | moving the archive aside and restoring it gives back the disk before |
| InstallFacts.MoveAside | src/discord/install.rs:226-231 | the move renames exactly `app.asar` to `_app.asar` and keeps the disk well formed |
| InstallFacts.UnmoveWithoutBackup | src/discord/install.rs:252-261 | without `_app.asar` the unmove fails, after deleting an `app.asar` directory |
| InstallFacts.RemoveNeverRenames | src/discord/install.rs:336-344 | removing the shim is only its tree removal, because the renamed path lies inside the removed tree |
| InstallFacts.WriteEffect | src/discord/install.rs:283-316 | a successful write leaves the shim with the manifest and the injector for the given root, and changes nothing else outside the shim |
| InstallFacts.WriteSucceeds | src/discord/install.rs:283-316 | the write succeeds in an existing resources directory whose shim slots are not blocked by directories |
| InstallFacts.WriteFrame | src/discord/install.rs:283-316 | writing the shim leaves every path off the shim's line untouched |
| InstallFacts.WriteFailureFrame | src/discord/install.rs:283-316 | a failed shim write also leaves everything off the shim's line untouched |
| InstallFacts.ShimMadeFresh | src/discord/install.rs:283-286 | a missing shim becomes one empty directory |
| InstallFacts.ShimFilesIntoEmpty | src/discord/install.rs:288-315 | into an empty shim the two files are written with their exact texts |
| InstallFacts.MoveShapedAside | src/discord/install.rs:226-231 | in a pristine resources directory the move renames just the archive and frees the shim slots |
| InstallFacts.WriteIntoPristine | src/discord/install.rs:283-316 | after the move, the write gives the injected layout |
| InstallFacts.InjectFromPristine | src/discord/install.rs:162-176 | injecting a pristine install succeeds and leaves exactly the injected layout |
| InstallFacts.InjectFromShape | src/discord/install.rs:162-176 | the same, for any disk of the pristine shape |
| InstallFacts.UninjectRestores | src/discord/install.rs:178-187 | uninjecting an injected layout gives back the pristine disk |
| InstallFacts.UninjectFromShape | src/discord/install.rs:178-187 | the same, for any disk of the pristine shape |
| InstallFacts.UnmoveInjected | src/discord/install.rs:252-261 | on the injected layout the unmove puts the archive back and leaves only the shim |
| InstallFacts.RemoveFromRestored | src/discord/install.rs:336-339 | removing the shim then gives back the disk before injection |
| InstallFacts.InjectUninjectRoundTrip | src/discord/install.rs:162-187 | injection then uninjection through an injected record is the identity on a pristine disk |
| InstallFacts.StaleUninjectDoesNothing | src/discord/install.rs:179-181 | uninjecting with the record built before injecting changes nothing |
| InstallFacts.RewriteInjected | src/discord/install.rs:283-316 | rewriting the shim of an injected layout swaps the mod root and nothing else |
| InstallFacts.StaleReinjectIsIdempotent | src/discord/install.rs:162-176 | injecting again with a stale record leaves the same injected layout |
| InstallFacts.FreshReinject | src/discord/install.rs:162-176 | injecting through an injected record uninjects first and ends in the layout for the new root |
| InstallFacts.InjectAfterReset | src/discord/install.rs:163-172 | a successful reset makes `inject` behave as on a record built as not injected |
| InstallFacts.ModifyRootKeepsArchives | src/discord/install.rs:190-205 | changing the root of an injected install only rewrites the shim, leaving the layout for the new root |
| InstallFacts.ModifyRootFrame | src/discord/install.rs:198-204 | on an injected record, changing the root never touches `app.asar` or `_app.asar` |
| DetectionFacts.WindowsDetection | src/discord/install.rs:37-82 | a Windows record is the newest `app-` folder holding the executable, with the injection test on its resources; no directory or no `app-` folder gives none; and a directory whose newest `app-` folder holds the executable gives a record |
| DetectionFacts.MacDetection | src/discord/install.rs:84-97 | there is a macOS record exactly when the bundle and its resources exist, with the injection test on the resources |
| DetectionFacts.PlainArchiveIsNotInjected | src/discord/install.rs:74-80 | a file `app.asar` and no shim means not injected |
| DetectionFacts.LinuxDetection | src/discord/install.rs:99-135 | there is a Linux record exactly when `app.asar` is at the path or in `resources`, with the flatpak class and the injection test as written |
| DetectionFacts.FlatpakUnderVarIsSystem | src/discord/install.rs:103-113 | a flatpak path under `/var` is a system flatpak |
| DetectionFacts.MacRedetectAfterInject | src/discord/install.rs:84-97 | after injecting a pristine macOS install, detection finds the same install, now injected |
| DetectionFacts.WindowsRedetectAfterInject | src/discord/install.rs:37-82 | after injecting a pristine Windows install, detection finds the same install, now injected |
| DetectionFacts.LinuxInstallLostAfterInject | src/discord/install.rs:115-132 | after injecting a pristine non-system-Electron Linux install, detection finds no install |
| MoonlightDownload.FindAsset | src/moonlight/download.rs:31 | the first asset with that name, or none when no asset has it |
| MoonlightDownload.GetRef | src/moonlight/download.rs:97-121 | the channel's reference is available exactly when its request succeeds, and for Git when `main` is a commit or tag; failures panic |
| MoonlightDownload.VersionCheck | src/moonlight/download.rs:22-29 | up to date exactly when `version.txt` is a file matching the current version, by substring for Stable; an error exactly when it is a directory |
| MoonlightDownload.CheckVersion | src/moonlight/download.rs:23-28 | reading the version file on the disk gives the up-to-date test |
| MoonlightDownload.Install | src/moonlight/download.rs:33-36 | unpacking and writing the two markers on the disk |
| MoonlightDownload.FetchStable | src/moonlight/download.rs:19-43 | the Stable arm performed on the disk |
| MoonlightDownload.FetchNightly | src/moonlight/download.rs:44-65 | the Nightly arm performed on the disk |
| MoonlightDownload.Reclone | src/moonlight/download.rs:77-85 | removing the directory, cloning and writing the markers on the disk |
| MoonlightDownload.MarkClone | src/moonlight/download.rs:84-85 | the branch marker, then the `main` reference, written into the checkout on the disk |
| MoonlightDownload.FetchGit | src/moonlight/download.rs:66-91 | the Git arm performed on the disk |
| MoonlightDownload.FetchArm | src/moonlight/download.rs:18-92 | the arm of the channel performed on the disk |
| MoonlightDownload.Download | src/moonlight/download.rs:11-95 | `download` performed on the disk |
| DownloadFacts.InstalledRecords | src/moonlight/download.rs:33-36 | after a successful install, `version.txt` and `branch.txt` hold what was written and `dist` is a directory |
| DownloadFacts.ReclonedRecords | src/moonlight/download.rs:77-85 | after a successful reclone, `version.txt` holds the `main` reference and `branch.txt` names Git |
| DownloadFacts.DownloadRecordsChannel | src/moonlight/download.rs:22-85 | a successful download either found itself up to date and left the disk as it was once `dist` existed, or recorded its channel and what `get_ref` reports for it; without the up-to-date test it always records them |
| DownloadFacts.NeedsBuildOnlyAfterClone | src/moonlight/download.rs:42-90 | only a Git download reports that a build is needed, and an unchecked successful Git download always does |
| DownloadFacts.DownloadLeavesDist | src/moonlight/download.rs:15-17 | a successful download on a well-formed disk leaves `dist` a directory |
| DownloadFacts.SecondRunIsUpToDate | src/moonlight/download.rs:22-76 | a checked download right after a successful one, with the same answers, reports up to date and changes nothing |
| DownloadFacts.UpToDateChangesNothing | src/moonlight/download.rs:22-76 | a matching version file ends the checked download at once with nothing written |
| DownloadFacts.NetworkFailureLeavesDisk | src/moonlight/download.rs:20-45 | a failed release or reference request changes nothing once `dist` exists |
| DownloadFacts.FailedFetchWritesNothing | src/moonlight/download.rs:31-58 | a missing asset or an archive that cannot be fetched ends the download with nothing written |
| DownloadFacts.FailedUnpackWritesNoMarker | src/moonlight/download.rs:33-36 | an archive that cannot be unpacked writes no marker |
| DownloadFacts.FailedCloneLosesCheckout | src/moonlight/download.rs:77-81 | a failed clone after the removal leaves nothing at or below the directory |
| DownloadFacts.CloneNeedsDist | src/moonlight/download.rs:81-85 | a Git download succeeds exactly when the cloned tree has a `dist` directory, and fails on its branch marker when there is none |
| DownloadFacts.MarkersNeedDist | src/moonlight/download.rs:84-85 | writing the markers into a checkout succeeds exactly when it has `dist` |
| Moonlight.StoredChannelPrecedence | src/moonlight/mod.rs:11-27 | the top-level marker wins, then the one in `dist`, then Stable; a directory in the way is an error |
| Moonlight.ReadMarker | src/moonlight/mod.rs:12-16 | reading a marker on the disk gives its channel or the read error |
| Moonlight.ReadStoredChannel | src/moonlight/mod.rs:11-27 | reading the remembered channel on the disk |
| Moonlight.ResolveChannelAsWritten | src/moonlight/mod.rs:10-28 | as written, the choice fails exactly when the remembered channel cannot be read, even when a channel is given |
| Moonlight.ResolveChannel | src/moonlight/mod.rs:10-28 | the given channel when there is one, else the remembered one |
| Moonlight.EagerFallbackRejectsGivenChannel | src/moonlight/mod.rs:10-12 | with a directory at `branch.txt` the choice as written fails while the corrected one returns the given channel |
| Moonlight.EagerFallbackExample | src/moonlight/mod.rs:10-12 | a concrete well-formed disk on which the two choices differ |
| Moonlight.CorrectedAgreesWhenReadable | src/moonlight/mod.rs:10-28 | whenever the as-written choice succeeds, or no channel is given, the two choices agree |
| Moonlight.ResolveFollowsLastDownload | src/moonlight/mod.rs:18-24 | after a successful download without a top-level marker, choosing no channel picks the channel downloaded, unless the download was up to date and changed nothing beyond creating `dist`; always so without the up-to-date test |
| Moonlight.InitRemembersChannel | src/moonlight/mod.rs:9-33 | after a successful `init_moonlight` without a top-level marker, the next one given no channel chooses the same channel, unless this one was up to date and changed nothing beyond creating `dist` |
| Moonlight.InitMoonlight | src/moonlight/mod.rs:9-33 | `init_moonlight`, with the corrected channel choice, performed on the disk |
| Moonlight.InitAgainIsNoOp | src/moonlight/mod.rs:30 | initialising again with the same channel and answers changes nothing |
| Moonlight.InitIsCheckedDownload | src/moonlight/mod.rs:30-32 | initialising is a checked download of the chosen channel: the same disk, and success exactly when it succeeds |
| Down.KillLoopEndsIdle | src/cli/actions/down.rs:17-24 | the kill loop ends with nothing running, after one call per process on Windows or a single successful call elsewhere, plus the failing one |
| Down.Down | src/cli/actions/down.rs:6-31 | with no install nothing changes; otherwise the kill loop runs to the end and the first install is uninjected |

## Left out

- The network, GitHub's API, HTTP, gzip/tar decoding and git are not modelled. Their answers for one run are the `Remote` value, and the local repository's HEAD is the `head` parameter.
- `get_ref` is called by `download` only in the Git arm, where it is the only request for `main`. For Stable and Nightly, `MoonlightDownload.GetRef` denotes what a separate call would return, and the model gives it the same answer as the download's own request for the release or the nightly reference; a reference that changes between two such requests is not modelled.
- FileSystem.Unpacked: a failed unpack changes nothing in the model. A real tar extraction can fail after writing some entries.
- FileSystem.Renamed: its own contract only says that a success needs an existing source. What a rename does is stated by `FileSystem.RenamedLeafToFree`, `FileSystem.RenamedFileToAbsent` and `FileSystem.RenamedWellFormed`.
- Paths are component sequences joined with "/". Windows separators, drive letters, `to_string_lossy` and symlinks are not modelled, nor are permissions, metadata and races with other processes.
- Read errors of single `read_dir` entries (skipped by `filter_map`) and of the directory itself on Windows are not modelled. The listing is a parameter tied to the directory's entries.
- `semver::Version::parse(...).unwrap()` in the folder sort is modelled as a strict weak order `older` on folder names. Its panic on an unparsable name is not modelled.
- Locator.InstallsByKind: not defined for Linux, because the Linux `installs_by_kind` has an empty body that returns nothing. `Down.Down` likewise requires a non-Linux platform.
- Locator.Probe: `env!("LOCALAPPDATA", "")` is fixed when the tool is built, so the model takes it as the parameter `localAppData`.
- `disown_launch` and process spawning are not modelled. `start` takes the launch outcome as a parameter, and `cmd_is_ok` takes a command runner.
- Platform.CmdIsOk: requires a non-empty command, because `remove(0)` on an empty vector panics.
- Platform.WinTermByName: the Toolhelp snapshot is an input. `CloseHandle` calls and the snapshot handle left open on the normal exit path are not modelled, since neither changes the result.
- Platform.ProcessTable.Terminate: the running processes are a count, and terminating fails only when the count is zero. In the code a kill can also fail while Discord still runs: `win_termbyname` returns false when opening or terminating the process fails (src/platform.rs:183-207), and `killall` or `flatpak kill` can exit non-zero for other reasons. So `Install.DiscordInstall.Kill`, `Down.KillLoopEndsIdle` and `Down.Down` promise an idle client only for the counter; the real `down` can uninject a client that is still running. Which process `win_termbyname` picks, and processes started while the loop runs, are not modelled either.
- Kind.ParseKind and Channel.ParseChannel: require an accepted argument, because the source panics on any other string and the argument parser admits only those.
- Install.DiscordInstall.KillAction and Install.DiscordInstall.KillResult: require a non-empty path on macOS, because `file_name().unwrap()` panics on an empty one.
- `is_openasar` is always false in the source, and nothing in the core reads it.
- Logging, timing and progress output are not modelled.
- The `up` action, argument parsing and `main` are not part of this model.
- Moonlight.InitMoonlight: follows the corrected channel choice (`Moonlight.ResolveChannel`), not the eager one as written. See Findings.

## Findings

| source | as written | input that shows it | evidently intended | confidence | as-written member | corrected member |
|---|---|---|---|---|---|---|
| src/moonlight/mod.rs:10 | `channel.unwrap_or({ ... })` evaluates the fallback block, which reads `branch.txt` with `?`, before checking whether a channel was given | a directory named `branch.txt` in the moonlight directory, with channel `Some(Nightly)`: `init_moonlight` returns the read error | the marker is consulted only when no channel is given (`unwrap_or_else`) | not executed | Moonlight.ResolveChannelAsWritten, shown by Moonlight.EagerFallbackExample | Moonlight.ResolveChannel, with Moonlight.EagerFallbackRejectsGivenChannel and Moonlight.CorrectedAgreesWhenReadable |
