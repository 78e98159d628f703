/**
 * What `DiscordInstall::new` decides on each platform, how the flatpak scope
 * is read from a path, and how detection sees an install after injection.
 */
module DetectionFacts {
  import opened Outcomes
  import opened FileSystem
  import opened Kind
  import opened Text
  import opened Platform
  import opened Install
  import opened InstallFacts

  /** `n` is an `app-` folder of the listing that no other such folder is newer than. */
  ghost predicate NewestAppFolder(listing: seq<string>, older: (string, string) -> bool, n: string) {
    n in listing && Contains(n, "app-") &&
    forall m | m in listing && Contains(m, "app-") :: !older(n, m)
  }

  /**
   * Windows: the record is for the newest `app-` folder of the directory, which
   * holds the executable; an unreadable directory or one without `app-` folders
   * gives no record.
   */
  lemma WindowsDetection(kind: DiscordKind, path: Path, fs: Fs, listing: seq<string>, older: (string, string) -> bool)
    requires StrictWeakOrder(older) && (IsDir(fs, path) ==> Lists(fs, path, listing))
    ensures var r := New(Windows, kind, path, fs, listing, older);
      r.Some? ==>
        |r.value.path| == |path| + 1 && r.value.path[..|path|] == path &&
        NewestAppFolder(listing, older, r.value.path[|path|]) &&
        r.value.path in fs &&
        r.value.path + [KindName(kind) + ".exe"] in fs &&
        r.value.injected == ShowsInjection(fs, r.value.path + ["resources"])
    ensures (!IsDir(fs, path) || forall n | n in listing :: !Contains(n, "app-")) ==>
      New(Windows, kind, path, fs, listing, older).None?
    ensures (IsDir(fs, path) && (exists n | n in listing :: Contains(n, "app-")) &&
             (forall n | NewestAppFolder(listing, older, n) :: path + [n] + [KindName(kind) + ".exe"] in fs)) ==>
      New(Windows, kind, path, fs, listing, older).Some?
  {
    var r := New(Windows, kind, path, fs, listing, older);
    if IsDir(fs, path) && exists n | n in listing :: Contains(n, "app-") {
      var w :| w in listing && Contains(w, "app-");
      var folders := AppFolders(listing);
      assert w in folders;
      var n := folders[NewestIndex(folders, older)];
      forall m | m in listing && Contains(m, "app-") ensures !older(n, m) {
        var j :| 0 <= j < |folders| && folders[j] == m;
      }
      assert NewestAppFolder(listing, older, n);
    }
    if r.Some? {
      var folders := AppFolders(listing);
      var i := NewestIndex(folders, older);
      var n := folders[i];
      assert r.value.path == path + [n];
      assert r.value.path[|path|] == n && r.value.path[..|path|] == path;
      forall m | m in listing && Contains(m, "app-") ensures !older(n, m) {
        var j :| 0 <= j < |folders| && folders[j] == m;
      }
    }
  }

  /** macOS: a record exactly when the bundle and its `Contents/Resources` exist. */
  lemma MacDetection(kind: DiscordKind, path: Path, fs: Fs, older: (string, string) -> bool)
    ensures var r := New(MacOS, kind, path, fs, [], older);
      (r.Some? <==> path in fs && path + ["Contents", "Resources"] in fs) &&
      (r.Some? ==> r.value.path == path && r.value.injected == ShowsInjection(fs, path + ["Contents", "Resources"]))
  {
  }

  /** On Windows and macOS a plain archive file with no shim directory reads as not injected. */
  lemma PlainArchiveIsNotInjected(fs: Fs, root: Path)
    requires AsarAt(root) in fs && fs[AsarAt(root)].File? && ShimAt(root) !in fs
    ensures !ShowsInjection(fs, root)
  {
  }

  /**
   * Linux: valid when either `app.asar` or `resources/app.asar` exists; the
   * first makes it a system-Electron install.
   */
  lemma LinuxDetection(kind: DiscordKind, path: Path, fs: Fs, older: (string, string) -> bool)
    ensures var r := New(Linux, kind, path, fs, [], older);
      (r.Some? <==> AsarAt(path) in fs || AsarAt(path + ["resources"]) in fs) &&
      (r.Some? ==>
        r.value.path == path &&
        r.value.isSysElectron == (AsarAt(path) in fs) &&
        r.value.flatpak == ClassifyFlatpak(PathText(path)) &&
        r.value.injected ==
          ((AsarAt(path) in fs && path + ["_app.asar.unpacked"] in fs) ||
           (ShimAt(path) in fs && IsDir(fs, AsarAt(path + ["resources"])))))
  {
  }

  // ---------------------------------------------------------------------------
  // The flatpak scope.

  /**
   * Every flatpak path that starts with /var is classified System: the
   * system-wide location /var/lib/flatpak, but also a per-user flatpak whose
   * home directory lies under /var/home.
   */
  lemma FlatpakUnderVarIsSystem(a: string, b: string)
    ensures ClassifyFlatpak("/var" + a + "/flatpak/" + b) == System
  {
    OccursBetween("/var" + a, "/flatpak/", b);
    OccursBetween("", "/var", a + "/flatpak/" + b);
    assert "" + "/var" + (a + "/flatpak/" + b) == "/var" + a + "/flatpak/" + b;
  }

  // ---------------------------------------------------------------------------
  // Detection after an injection.

  /** Entries no deeper than the resources directory are the same before and after injection. */
  lemma ShallowUnchanged(fs: Fs, root: Path, moonlightRoot: Path, q: Path)
    requires AsarAt(root) in fs && |q| <= |root|
    ensures var after := InjectedFs(fs, root, moonlightRoot);
      (q in after <==> q in fs) && (q in fs ==> after[q] == fs[q])
  {
  }

  /** macOS: detecting again after an injection finds the same install, now injected; the old record is stale. */
  lemma MacRedetectAfterInject(kind: DiscordKind, path: Path, fs: Fs, moonlightRoot: Path,
                               older: (string, string) -> bool, rec: DiscordInstall)
    requires New(MacOS, kind, path, fs, [], older) == Some(rec)
    requires Pristine(fs, rec.ResourcesRoot())
    ensures !rec.injected
    ensures InjectOutcome(rec, fs, moonlightRoot).result == Ok(())
    ensures New(MacOS, kind, path, InjectOutcome(rec, fs, moonlightRoot).fs, [], older) == Some(rec.(injected := true))
  {
    assert !rec.injected by {
      MacDetection(kind, path, fs, older);
      PlainArchiveIsNotInjected(fs, rec.ResourcesRoot());
    }
    InjectFromPristine(rec, fs, moonlightRoot);
    MacRedetect(kind, path, fs, moonlightRoot, older, rec, InjectOutcome(rec, fs, moonlightRoot).fs);
  }

  lemma MacRedetect(kind: DiscordKind, path: Path, fs: Fs, moonlightRoot: Path,
                    older: (string, string) -> bool, rec: DiscordInstall, after: Fs)
    requires New(MacOS, kind, path, fs, [], older) == Some(rec)
    requires AsarAt(rec.ResourcesRoot()) in fs
    requires after == InjectedFs(fs, rec.ResourcesRoot(), moonlightRoot)
    ensures New(MacOS, kind, path, after, [], older) == Some(rec.(injected := true))
  {
    var root := rec.ResourcesRoot();
    ShallowUnchanged(fs, root, moonlightRoot, path);
    ShallowUnchanged(fs, root, moonlightRoot, root);
    assert ShimAt(root) in after;
  }

  /** Windows: detecting again after an injection picks the same folder, now injected. */
  lemma WindowsRedetectAfterInject(kind: DiscordKind, path: Path, fs: Fs, listing: seq<string>, moonlightRoot: Path,
                                   older: (string, string) -> bool, rec: DiscordInstall)
    requires StrictWeakOrder(older) && (IsDir(fs, path) ==> Lists(fs, path, listing))
    requires New(Windows, kind, path, fs, listing, older) == Some(rec)
    requires Pristine(fs, rec.ResourcesRoot())
    ensures !rec.injected
    ensures InjectOutcome(rec, fs, moonlightRoot).result == Ok(())
    ensures IsDir(InjectOutcome(rec, fs, moonlightRoot).fs, path) ==> Lists(InjectOutcome(rec, fs, moonlightRoot).fs, path, listing)
    ensures New(Windows, kind, path, InjectOutcome(rec, fs, moonlightRoot).fs, listing, older) == Some(rec.(injected := true))
  {
    WindowsDetection(kind, path, fs, listing, older);
    assert !rec.injected;
    InjectFromPristine(rec, fs, moonlightRoot);
    WindowsRedetect(kind, path, fs, listing, moonlightRoot, older, rec, InjectOutcome(rec, fs, moonlightRoot).fs);
  }

  lemma WindowsRedetect(kind: DiscordKind, path: Path, fs: Fs, listing: seq<string>, moonlightRoot: Path,
                        older: (string, string) -> bool, rec: DiscordInstall, after: Fs)
    requires StrictWeakOrder(older) && (IsDir(fs, path) ==> Lists(fs, path, listing))
    requires New(Windows, kind, path, fs, listing, older) == Some(rec)
    requires AsarAt(rec.ResourcesRoot()) in fs
    requires after == InjectedFs(fs, rec.ResourcesRoot(), moonlightRoot)
    ensures IsDir(after, path) ==> Lists(after, path, listing)
    ensures New(Windows, kind, path, after, listing, older) == Some(rec.(injected := true))
  {
    var root := rec.ResourcesRoot();
    assert |root| == |path| + 2;
    ShallowUnchanged(fs, root, moonlightRoot, path);
    ShallowUnchanged(fs, root, moonlightRoot, rec.path + [KindName(kind) + ".exe"]);
    forall n ensures n in listing <==> path + [n] in after {
      ShallowUnchanged(fs, root, moonlightRoot, path + [n]);
    }
    assert ShimAt(root) in after;
  }

  /**
   * Linux, resources layout: injecting moves `resources/app.asar` away, and
   * detection requires it, so the install is no longer found.
   */
  lemma LinuxInstallLostAfterInject(kind: DiscordKind, path: Path, fs: Fs, moonlightRoot: Path,
                                    older: (string, string) -> bool, rec: DiscordInstall)
    requires New(Linux, kind, path, fs, [], older) == Some(rec)
    requires !rec.isSysElectron && !rec.injected && Pristine(fs, rec.ResourcesRoot())
    ensures InjectOutcome(rec, fs, moonlightRoot).result == Ok(())
    ensures New(Linux, kind, path, InjectOutcome(rec, fs, moonlightRoot).fs, [], older) == None
  {
    InjectFromPristine(rec, fs, moonlightRoot);
    LinuxLost(kind, path, fs, moonlightRoot, older, rec, InjectOutcome(rec, fs, moonlightRoot).fs);
  }

  lemma LinuxLost(kind: DiscordKind, path: Path, fs: Fs, moonlightRoot: Path,
                  older: (string, string) -> bool, rec: DiscordInstall, after: Fs)
    requires New(Linux, kind, path, fs, [], older) == Some(rec) && !rec.isSysElectron
    requires AsarAt(rec.ResourcesRoot()) in fs
    requires after == InjectedFs(fs, rec.ResourcesRoot(), moonlightRoot)
    ensures New(Linux, kind, path, after, [], older) == None
  {
    var root := rec.ResourcesRoot();
    ShallowUnchanged(fs, root, moonlightRoot, AsarAt(path));
    LayoutDistinct(root);
  }
}
