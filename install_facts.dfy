/**
 * What the injection transitions and the detection rules of `DiscordInstall`
 * guarantee, and where they fall short.
 */
module InstallFacts {
  import opened Outcomes
  import opened FileSystem
  import opened Kind
  import opened Text
  import opened Platform
  import opened Install

  /** A resources directory as Discord ships it: the archive is a file, with no backup and no shim. */
  ghost predicate Pristine(fs: Fs, root: Path) {
    WellFormed(fs) && |root| > 0 && IsDir(fs, root) &&
    AsarAt(root) in fs && fs[AsarAt(root)].File? &&
    BackupAt(root) !in fs && ShimAt(root) !in fs
  }

  /** The filesystem a successful injection of a pristine resources directory leaves. */
  function InjectedFs(fs: Fs, root: Path, moonlightRoot: Path): Fs
    requires AsarAt(root) in fs
  {
    var shim := ShimAt(root);
    (fs - {AsarAt(root)})[BackupAt(root) := fs[AsarAt(root)]]
      [shim := Dir]
      [shim + ["package.json"] := File(PackageJson)]
      [shim + ["injector.js"] := File(InjectorScript(moonlightRoot))]
  }

  /** The archive, the backup, the shim and the shim's two files are five distinct paths, none below another except the files below the shim. */
  lemma LayoutDistinct(root: Path)
    ensures var a := AsarAt(root); var b := BackupAt(root); var shim := ShimAt(root);
      var package := shim + ["package.json"]; var injector := shim + ["injector.js"];
      a != b && a != shim && b != shim && package != injector &&
      !(a <= package) && !(a <= injector) && !(b <= package) && !(b <= injector) &&
      !(package <= a) && !(package <= b) && !(injector <= a) && !(injector <= b) &&
      !(a <= shim) && !(b <= shim) && !(shim <= a) && !(shim <= b) &&
      shim <= package && shim <= injector && !(package <= shim) && !(injector <= shim)
  {
    var a := AsarAt(root);
    var b := BackupAt(root);
    var shim := ShimAt(root);
    var package := shim + ["package.json"];
    var injector := shim + ["injector.js"];
    assert a[|root|] == "app.asar" && b[|root|] == "_app.asar" && shim[|root|] == "app";
    assert package[|root|] == "app" && injector[|root|] == "app";
    assert package[|shim|] == "package.json" && injector[|shim|] == "injector.js";
  }

  // ---------------------------------------------------------------------------
  // Moving the archive aside and back.

  /** Setting a file archive aside and restoring it gives the filesystem back. */
  lemma MoveUnmoveRoundTrip(fs: Fs, root: Path)
    requires WellFormed(fs) && ParentIsDir(fs, AsarAt(root))
    requires AsarAt(root) in fs && fs[AsarAt(root)].File? && BackupAt(root) !in fs
    ensures MoveOutcome(fs, root).result == Ok(())
    ensures UnmoveOutcome(MoveOutcome(fs, root).fs, root) == Outcome(Ok(()), fs)
  {
    var a := AsarAt(root);
    var b := BackupAt(root);
    var moved := MoveAside(fs, root);
    assert UnmoveOutcome(moved, root) == Apply(moved, Renamed(moved, b, a));
    assert Renamed(moved, b, a) == Ok(fs) by {
      assert ParentIsDir(moved, a) by {
        if |a| > 1 {
          assert moved[Parent(a)] == fs[Parent(a)];
        }
      }
      RenamedFileToAbsent(moved, b, a);
      MapRestore(fs, a, b);
    }
  }

  /** Setting a file archive aside onto a free backup path: the rename moves just that file. */
  lemma MoveAside(fs: Fs, root: Path) returns (moved: Fs)
    requires WellFormed(fs) && ParentIsDir(fs, AsarAt(root))
    requires AsarAt(root) in fs && fs[AsarAt(root)].File? && BackupAt(root) !in fs
    ensures moved == (fs - {AsarAt(root)})[BackupAt(root) := fs[AsarAt(root)]]
    ensures MoveOutcome(fs, root) == Outcome(Ok(()), moved)
    ensures WellFormed(moved)
  {
    var a := AsarAt(root);
    var b := BackupAt(root);
    moved := (fs - {a})[b := fs[a]];
    RenamedFileToAbsent(fs, a, b);
    RenamedWellFormed(fs, a, b);
  }

  lemma MapRestore(fs: Fs, a: Path, b: Path)
    requires a in fs && b !in fs
    ensures (((fs - {a})[b := fs[a]]) - {b})[a := fs[a]] == fs
  {
  }

  /** Without a backup, unmoving fails; an `app.asar` directory has been deleted by then. */
  lemma UnmoveWithoutBackup(fs: Fs, root: Path)
    requires WellFormed(fs) && BackupAt(root) !in fs
    ensures UnmoveOutcome(fs, root).result == Err(NotFound(BackupAt(root)))
    ensures IsDir(fs, AsarAt(root)) ==> UnmoveOutcome(fs, root).fs == Pruned(fs, AsarAt(root))
    ensures !IsDir(fs, AsarAt(root)) ==> UnmoveOutcome(fs, root).fs == fs
  {
    if IsDir(fs, AsarAt(root)) {
      assert BackupAt(root) !in Pruned(fs, AsarAt(root));
    }
  }

  /** `rm_injection_files` never renames: what it looks for lies inside the directory it removes. */
  lemma RemoveNeverRenames(fs: Fs, root: Path)
    requires WellFormed(fs)
    ensures RemoveOutcome(fs, root) ==
      (if ShimAt(root) in fs then Apply(fs, TreeRemoved(fs, ShimAt(root))) else Outcome(Ok(()), fs))
  {
    var shim := ShimAt(root);
    var stale := shim + ["_app.asar"];
    if shim !in fs {
      if stale in fs {
        AncestorPresent(fs, shim, stale);
        assert false;
      }
    } else if IsDir(fs, shim) {
      assert stale !in Pruned(fs, shim);
    }
  }

  // ---------------------------------------------------------------------------
  // Writing the shim.

  /** A successful write leaves the two shim files with their contents and touches nothing else. */
  lemma WriteEffect(fs: Fs, root: Path, moonlightRoot: Path)
    requires WriteOutcome(fs, root, moonlightRoot).result.Ok?
    ensures var after := WriteOutcome(fs, root, moonlightRoot).fs;
      var shim := ShimAt(root);
      IsDir(after, shim) &&
      after[shim + ["package.json"]] == File(PackageJson) &&
      after[shim + ["injector.js"]] == File(InjectorScript(moonlightRoot)) &&
      (forall q | q in fs && q != shim + ["package.json"] && q != shim + ["injector.js"] :: q in after && after[q] == fs[q]) &&
      (forall q | q in after && q !in fs :: q <= shim || q == shim + ["package.json"] || q == shim + ["injector.js"])
  {
    var shim := ShimAt(root);
    var made := ShimMade(fs, shim);
    assert made.result.Ok?;
    assert IsDir(made.fs, shim);
  }

  /** Under a resources directory whose shim, if any, is a directory and whose file slots are free of directories, the write succeeds. */
  lemma WriteSucceeds(fs: Fs, root: Path, moonlightRoot: Path)
    requires |root| > 0 && IsDir(fs, root)
    requires ShimAt(root) in fs ==> IsDir(fs, ShimAt(root))
    requires !IsDir(fs, ShimAt(root) + ["package.json"]) && !IsDir(fs, ShimAt(root) + ["injector.js"])
    ensures WriteOutcome(fs, root, moonlightRoot).result.Ok?
  {
    var shim := ShimAt(root);
    assert Parent(shim) == root;
    var made := if shim in fs then fs else fs[shim := Dir];
    assert ShimMade(fs, shim) == Outcome(Ok(()), made);
    assert shim + ["package.json"] != shim && shim + ["injector.js"] != shim;
    assert Parent(shim + ["package.json"]) == shim && Parent(shim + ["injector.js"]) == shim;
    var package := made[shim + ["package.json"] := File(PackageJson)];
    assert Written(made, shim + ["package.json"], PackageJson) == Ok(package);
    assert shim + ["package.json"] != shim + ["injector.js"];
    assert Written(package, shim + ["injector.js"], InjectorScript(moonlightRoot)).Ok?;
  }

  // ---------------------------------------------------------------------------
  // Inject and uninject from a pristine install.

  /** Injecting a pristine install moves the archive aside and plants the shim. */
  lemma InjectFromPristine(rec: DiscordInstall, fs: Fs, moonlightRoot: Path)
    requires !rec.injected && Pristine(fs, rec.ResourcesRoot())
    ensures InjectOutcome(rec, fs, moonlightRoot) == Outcome(Ok(()), InjectedFs(fs, rec.ResourcesRoot(), moonlightRoot))
  {
    PristineShape(fs, rec.ResourcesRoot());
    InjectFromShape(rec, fs, moonlightRoot);
  }

  /** The same, from the shape of the resources directory alone. */
  lemma InjectFromShape(rec: DiscordInstall, fs: Fs, moonlightRoot: Path)
    requires !rec.injected && Shaped(fs, rec.ResourcesRoot())
    ensures InjectOutcome(rec, fs, moonlightRoot) == Outcome(Ok(()), InjectedFs(fs, rec.ResourcesRoot(), moonlightRoot))
  {
    var root := rec.ResourcesRoot();
    var moved := MoveShapedAside(fs, root);
    assert InjectOutcome(rec, fs, moonlightRoot) == WriteOutcome(moved, root, moonlightRoot);
    WriteIntoPristine(fs, moved, root, moonlightRoot);
  }

  /** Setting the archive of a shaped resources directory aside: the directory and the shim slots stay as they were. */
  lemma MoveShapedAside(fs: Fs, root: Path) returns (moved: Fs)
    requires Shaped(fs, root)
    ensures moved == (fs - {AsarAt(root)})[BackupAt(root) := fs[AsarAt(root)]]
    ensures MoveOutcome(fs, root) == Outcome(Ok(()), moved)
    ensures IsDir(moved, root) && ShimAt(root) !in moved
    ensures ShimAt(root) + ["package.json"] !in moved && ShimAt(root) + ["injector.js"] !in moved
  {
    var a := AsarAt(root);
    var b := BackupAt(root);
    moved := (fs - {a})[b := fs[a]];
    assert MoveOutcome(fs, root) == Outcome(Ok(()), moved) by {
      assert Parent(b) == root;
      RenamedLeafToFree(fs, a, b);
    }
    ShimSlotsFree(fs, root);
    assert a != root && b != root;
  }

  lemma ShimSlotsFree(fs: Fs, root: Path)
    requires NothingAt(fs, ShimAt(root))
    ensures var shim := ShimAt(root);
      shim !in fs && shim + ["package.json"] !in fs && shim + ["injector.js"] !in fs &&
      shim != BackupAt(root) && shim + ["package.json"] != BackupAt(root) && shim + ["injector.js"] != BackupAt(root)
  {
    var shim := ShimAt(root);
    assert shim <= shim + ["package.json"] && shim <= shim + ["injector.js"];
    assert BackupAt(root)[|root|] == "_app.asar";
    assert shim[|root|] == "app" && (shim + ["package.json"])[|root|] == "app" && (shim + ["injector.js"])[|root|] == "app";
  }

  /** Writing the shim once the archive is aside: a fresh directory with the two files. */
  lemma WriteIntoPristine(fs: Fs, moved: Fs, root: Path, moonlightRoot: Path)
    requires |root| > 0 && IsDir(moved, root) && ShimAt(root) !in moved
    requires ShimAt(root) + ["package.json"] !in moved && ShimAt(root) + ["injector.js"] !in moved
    requires AsarAt(root) in fs && moved == (fs - {AsarAt(root)})[BackupAt(root) := fs[AsarAt(root)]]
    ensures WriteOutcome(moved, root, moonlightRoot) == Outcome(Ok(()), InjectedFs(fs, root, moonlightRoot))
  {
    var shim := ShimAt(root);
    var made := moved[shim := Dir];
    ShimMadeFresh(moved, shim);
    ShimFilesIntoEmpty(made, shim, moonlightRoot);
  }

  lemma ShimMadeFresh(fs: Fs, shim: Path)
    requires ParentIsDir(fs, shim) && shim !in fs
    ensures ShimMade(fs, shim) == Outcome(Ok(()), fs[shim := Dir])
  {
  }

  lemma ShimFilesIntoEmpty(made: Fs, shim: Path, moonlightRoot: Path)
    requires IsDir(made, shim) && shim + ["package.json"] !in made && shim + ["injector.js"] !in made
    ensures ShimFilesWritten(made, shim, moonlightRoot) ==
      Outcome(Ok(()), made[shim + ["package.json"] := File(PackageJson)][shim + ["injector.js"] := File(InjectorScript(moonlightRoot))])
  {
    var packaged := made[shim + ["package.json"] := File(PackageJson)];
    assert Written(made, shim + ["package.json"], PackageJson) == Ok(packaged);
    assert IsDir(packaged, Parent(shim + ["injector.js"]));
  }

  /** The facts about a pristine resources directory the proofs below rely on, without well-formedness. */
  ghost predicate Shaped(fs: Fs, root: Path) {
    |root| > 0 && IsDir(fs, root) && AsarAt(root) in fs && fs[AsarAt(root)].File? &&
    NothingAt(fs, BackupAt(root)) && NothingAt(fs, ShimAt(root)) &&
    forall q | q in fs :: !(AsarAt(root) < q)
  }

  /** A pristine resources directory has that shape. */
  lemma PristineShape(fs: Fs, root: Path)
    requires Pristine(fs, root)
    ensures Shaped(fs, root)
  {
    AbsentMeansNothingBelow(fs, BackupAt(root));
    AbsentMeansNothingBelow(fs, ShimAt(root));
    FileIsLeaf(fs, AsarAt(root));
  }

  /** Uninjecting through a record that knows the install is injected restores the pristine filesystem exactly. */
  lemma UninjectRestores(rec: DiscordInstall, fs: Fs, moonlightRoot: Path)
    requires !rec.injected && Pristine(fs, rec.ResourcesRoot())
    ensures UninjectOutcome(rec.(injected := true), InjectedFs(fs, rec.ResourcesRoot(), moonlightRoot)) == Outcome(Ok(()), fs)
  {
    PristineShape(fs, rec.ResourcesRoot());
    UninjectFromShape(rec, fs, moonlightRoot);
  }

  lemma UninjectFromShape(rec: DiscordInstall, fs: Fs, moonlightRoot: Path)
    requires Shaped(fs, rec.ResourcesRoot())
    ensures UninjectOutcome(rec.(injected := true), InjectedFs(fs, rec.ResourcesRoot(), moonlightRoot)) == Outcome(Ok(()), fs)
  {
    var root := rec.ResourcesRoot();
    var restored := UnmoveInjected(fs, root, moonlightRoot);
    RemoveFromRestored(fs, root, restored);
  }

  /** Restoring the backup over the injected layout: the archive is back and the shim is still there. */
  lemma UnmoveInjected(fs: Fs, root: Path, moonlightRoot: Path) returns (restored: Fs)
    requires Shaped(fs, root)
    ensures restored == fs[ShimAt(root) := Dir][ShimAt(root) + ["package.json"] := File(PackageJson)]
      [ShimAt(root) + ["injector.js"] := File(InjectorScript(moonlightRoot))]
    ensures UnmoveOutcome(InjectedFs(fs, root, moonlightRoot), root) == Outcome(Ok(()), restored)
  {
    var a := AsarAt(root);
    var b := BackupAt(root);
    var injectedFs := InjectedFs(fs, root, moonlightRoot);
    InjectedBackupIsLeaf(fs, root, moonlightRoot);
    InjectedArchiveIsFree(fs, root, moonlightRoot);
    assert ParentIsDir(injectedFs, a) by {
      LayoutDistinct(root);
      if |a| > 1 {
        assert injectedFs[Parent(a)] == fs[Parent(a)];
      }
    }
    RenamedLeafToFree(injectedFs, b, a);
    restored := RestoredLayout(fs, root, moonlightRoot);
  }

  lemma InjectedBackupIsLeaf(fs: Fs, root: Path, moonlightRoot: Path)
    requires AsarAt(root) in fs && NothingAt(fs, BackupAt(root))
    ensures BackupAt(root) in InjectedFs(fs, root, moonlightRoot)
    ensures forall q | q in InjectedFs(fs, root, moonlightRoot) :: !(BackupAt(root) < q)
  {
    var b := BackupAt(root);
    var shim := ShimAt(root);
    var injectedFs := InjectedFs(fs, root, moonlightRoot);
    forall q | q in injectedFs ensures !(b < q) {
      if q in fs {
        assert !(b <= q);
      } else if q != b {
        assert q == shim || q == shim + ["package.json"] || q == shim + ["injector.js"];
        assert q[|root|] == "app";
      }
    }
  }

  lemma InjectedArchiveIsFree(fs: Fs, root: Path, moonlightRoot: Path)
    requires AsarAt(root) in fs && forall q | q in fs :: !(AsarAt(root) < q)
    ensures NothingAt(InjectedFs(fs, root, moonlightRoot), AsarAt(root))
  {
    var a := AsarAt(root);
    var b := BackupAt(root);
    var shim := ShimAt(root);
    var injectedFs := InjectedFs(fs, root, moonlightRoot);
    forall q | q in injectedFs ensures !(a <= q) {
      if q in fs && q != a {
        assert !(a < q);
      } else if q == b {
        assert q[|root|] == "_app.asar";
      } else {
        assert q == shim || q == shim + ["package.json"] || q == shim + ["injector.js"];
        assert q[|root|] == "app";
      }
    }
  }

  /** Moving the backup of the injected layout home again. */
  lemma RestoredLayout(fs: Fs, root: Path, moonlightRoot: Path) returns (restored: Fs)
    requires AsarAt(root) in fs && BackupAt(root) !in fs
    ensures var injectedFs := InjectedFs(fs, root, moonlightRoot);
      restored == (injectedFs - {BackupAt(root)})[AsarAt(root) := injectedFs[BackupAt(root)]]
    ensures restored == fs[ShimAt(root) := Dir][ShimAt(root) + ["package.json"] := File(PackageJson)]
      [ShimAt(root) + ["injector.js"] := File(InjectorScript(moonlightRoot))]
  {
    LayoutDistinct(root);
    var injectedFs := InjectedFs(fs, root, moonlightRoot);
    restored := (injectedFs - {BackupAt(root)})[AsarAt(root) := injectedFs[BackupAt(root)]];
  }

  /** Removing the shim from the restored layout leaves the pristine filesystem. */
  lemma RemoveFromRestored(fs: Fs, root: Path, restored: Fs)
    requires NothingAt(fs, ShimAt(root))
    requires exists c :: restored == fs[ShimAt(root) := Dir][ShimAt(root) + ["package.json"] := File(PackageJson)]
      [ShimAt(root) + ["injector.js"] := File(c)]
    ensures RemoveOutcome(restored, ShimAt(root)[..|root|]) == Outcome(Ok(()), fs)
  {
    var shim := ShimAt(root);
    assert shim[..|root|] == root;
    assert Pruned(restored, shim) == fs;
    assert shim + ["_app.asar"] !in Pruned(restored, shim);
  }

  /** An inject, then an uninject by a freshly detected record, is the identity on a pristine install. */
  lemma InjectUninjectRoundTrip(rec: DiscordInstall, fs: Fs, moonlightRoot: Path)
    requires !rec.injected && Pristine(fs, rec.ResourcesRoot())
    ensures InjectOutcome(rec, fs, moonlightRoot).result == Ok(())
    ensures UninjectOutcome(rec.(injected := true), InjectOutcome(rec, fs, moonlightRoot).fs) == Outcome(Ok(()), fs)
  {
    PristineShape(fs, rec.ResourcesRoot());
    InjectFromShape(rec, fs, moonlightRoot);
    UninjectFromShape(rec, fs, moonlightRoot);
  }

  /** The record used to inject still says "not injected": uninjecting through it does nothing. */
  lemma StaleUninjectDoesNothing(rec: DiscordInstall, fs: Fs, moonlightRoot: Path)
    requires !rec.injected && Pristine(fs, rec.ResourcesRoot())
    ensures UninjectOutcome(rec, InjectOutcome(rec, fs, moonlightRoot).fs) == Outcome(Ok(()), InjectedFs(fs, rec.ResourcesRoot(), moonlightRoot))
  {
    InjectFromPristine(rec, fs, moonlightRoot);
  }

  /** Rewriting the shim of an injected layout lands on the layout for the new mod root. */
  lemma RewriteInjected(fs: Fs, root: Path, oldRoot: Path, newRoot: Path)
    requires AsarAt(root) in fs
    ensures WriteOutcome(InjectedFs(fs, root, oldRoot), root, newRoot) == Outcome(Ok(()), InjectedFs(fs, root, newRoot))
  {
    var shim := ShimAt(root);
    var before := InjectedFs(fs, root, oldRoot);
    LayoutDistinct(root);
    assert ShimMade(before, shim) == Outcome(Ok(()), before);
    var package := shim + ["package.json"];
    var injector := shim + ["injector.js"];
    assert before[package := File(PackageJson)] == before;
    assert Written(before, package, PackageJson) == Ok(before);
    assert before[injector := File(InjectorScript(newRoot))] == InjectedFs(fs, root, newRoot);
  }

  /** Injecting again through the stale record changes nothing. */
  lemma StaleReinjectIsIdempotent(rec: DiscordInstall, fs: Fs, moonlightRoot: Path)
    requires AsarAt(rec.ResourcesRoot()) in fs && !rec.injected
    ensures InjectOutcome(rec, InjectedFs(fs, rec.ResourcesRoot(), moonlightRoot), moonlightRoot) ==
      Outcome(Ok(()), InjectedFs(fs, rec.ResourcesRoot(), moonlightRoot))
  {
    var root := rec.ResourcesRoot();
    LayoutDistinct(root);
    assert AsarAt(root) !in InjectedFs(fs, root, moonlightRoot);
    RewriteInjected(fs, root, moonlightRoot, moonlightRoot);
  }

  /** Reinjecting through a fresh record uninjects first and lands on the injection for the new root. */
  lemma FreshReinject(rec: DiscordInstall, fs: Fs, oldRoot: Path, newRoot: Path)
    requires !rec.injected && Pristine(fs, rec.ResourcesRoot())
    ensures InjectOutcome(rec.(injected := true), InjectedFs(fs, rec.ResourcesRoot(), oldRoot), newRoot) ==
      Outcome(Ok(()), InjectedFs(fs, rec.ResourcesRoot(), newRoot))
  {
    PristineShape(fs, rec.ResourcesRoot());
    UninjectFromShape(rec, fs, oldRoot);
    InjectAfterReset(rec.(injected := true), InjectedFs(fs, rec.ResourcesRoot(), oldRoot), fs, newRoot);
    assert rec.(injected := true).(injected := false) == rec;
    InjectFromShape(rec, fs, newRoot);
  }

  /** After an uninject that succeeds, an inject proceeds as for a record that was never injected. */
  lemma InjectAfterReset(rec: DiscordInstall, before: Fs, after: Fs, moonlightRoot: Path)
    requires UninjectOutcome(rec, before) == Outcome(Ok(()), after)
    ensures InjectOutcome(rec, before, moonlightRoot) == InjectOutcome(rec.(injected := false), after, moonlightRoot)
  {
    assert rec.(injected := false).ResourcesRoot() == rec.ResourcesRoot();
  }

  /** Changing the mod root of an injected install rewrites the shim; the archive pair stays where it was. */
  lemma ModifyRootKeepsArchives(rec: DiscordInstall, fs: Fs, oldRoot: Path, newRoot: Path)
    requires AsarAt(rec.ResourcesRoot()) in fs && !rec.injected
    ensures ModifyRootOutcome(rec.(injected := true), InjectedFs(fs, rec.ResourcesRoot(), oldRoot), newRoot) ==
      Outcome(Ok(()), InjectedFs(fs, rec.ResourcesRoot(), newRoot))
  {
    RewriteInjected(fs, rec.ResourcesRoot(), oldRoot, newRoot);
  }

  /** On any filesystem, changing the mod root of a record known to be injected leaves both archive paths as they were. */
  lemma ModifyRootFrame(rec: DiscordInstall, fs: Fs, moonlightRoot: Path)
    requires rec.injected
    ensures var after := ModifyRootOutcome(rec, fs, moonlightRoot).fs;
      var a := AsarAt(rec.ResourcesRoot());
      var b := BackupAt(rec.ResourcesRoot());
      (a in after <==> a in fs) && (a in fs ==> after[a] == fs[a]) &&
      (b in after <==> b in fs) && (b in fs ==> after[b] == fs[b])
  {
    var root := rec.ResourcesRoot();
    assert ModifyRootOutcome(rec, fs, moonlightRoot) == WriteOutcome(fs, root, moonlightRoot);
    LayoutDistinct(root);
    WriteFrame(fs, root, moonlightRoot, AsarAt(root));
    WriteFrame(fs, root, moonlightRoot, BackupAt(root));
  }

  /** A path outside the shim directory and its ancestors keeps its entry across the write, success or not. */
  lemma WriteFrame(fs: Fs, root: Path, moonlightRoot: Path, q: Path)
    requires !(q <= ShimAt(root)) && !(ShimAt(root) <= q)
    ensures var after := WriteOutcome(fs, root, moonlightRoot).fs;
      (q in after <==> q in fs) && (q in fs ==> after[q] == fs[q])
  {
    var shim := ShimAt(root);
    if WriteOutcome(fs, root, moonlightRoot).result.Ok? {
      WriteEffect(fs, root, moonlightRoot);
      assert q != shim + ["package.json"] && q != shim + ["injector.js"];
    } else {
      WriteFailureFrame(fs, root, moonlightRoot, q);
    }
  }

  /** A failed write may have created the shim's ancestors or package.json, but nothing else. */
  lemma WriteFailureFrame(fs: Fs, root: Path, moonlightRoot: Path, q: Path)
    requires !(q <= ShimAt(root)) && !(ShimAt(root) <= q)
    requires WriteOutcome(fs, root, moonlightRoot).result.Err?
    ensures var after := WriteOutcome(fs, root, moonlightRoot).fs;
      (q in after <==> q in fs) && (q in fs ==> after[q] == fs[q])
  {
    var shim := ShimAt(root);
    var made := ShimMade(fs, shim);
    assert q != shim + ["package.json"];
  }
}
