/**
 * What a download leaves behind: the branch marker and the version it
 * records, that a second run finds itself up to date, and how the Git arm
 * replaces the whole directory.
 */
module DownloadFacts {
  import opened Outcomes
  import opened FileSystem
  import opened Text
  import opened Channel
  import opened MoonlightDownload

  lemma LayoutDistinct(path: Path)
    ensures Parent(VersionAt(path)) == DistAt(path) && Parent(BranchAt(path)) == DistAt(path)
    ensures VersionAt(path) != BranchAt(path) && DistAt(path) != VersionAt(path) && DistAt(path) != BranchAt(path)
    ensures path <= DistAt(path) && path <= VersionAt(path) && path <= BranchAt(path) && path <= GitDirAt(path)
  {
    assert VersionAt(path)[|path| + 1] != BranchAt(path)[|path| + 1];
  }

  lemma ParentOfEntryIsDir(fs: Fs, q: Path)
    requires WellFormed(fs) && q in fs && |q| > 1
    ensures IsDir(fs, Parent(q))
  {
  }

  lemma ContainsItself(t: string)
    ensures Contains(t, t)
  {
    OccursBetween("", t, "");
    assert "" + t + "" == t;
  }

  /** After the payload is unpacked and both markers are written, they hold what was written. */
  lemma InstalledRecords(fs: Fs, path: Path, tree: Fs, version: string, marker: string)
    requires Installed(fs, path, tree, version, marker).result.Ok?
    ensures var after := Installed(fs, path, tree, version, marker).fs;
      Contents(after, VersionAt(path)) == Ok(version) &&
      Contents(after, BranchAt(path)) == Ok(marker) &&
      IsDir(after, DistAt(path))
  {
    LayoutDistinct(path);
  }

  /** Reaching the network for the reference means recording it: the work tree's markers after a reclone. */
  lemma ReclonedRecords(fs: Fs, path: Path, url: string, remote: Remote)
    requires Recloned(fs, path, url, remote).result.Ok?
    ensures var after := Recloned(fs, path, url, remote).fs;
      Contents(after, VersionAt(path)) == GetRef(Git, remote) &&
      Contents(after, BranchAt(path)) == Ok(BranchMarker(Git)) &&
      IsDir(after, DistAt(path))
  {
    var cleared := if path in fs then Apply(fs, TreeRemoved(fs, path)) else Outcome(Ok(()), fs);
    var planted := Apply(cleared.fs, Planted(cleared.fs, path, remote.clone(url).value));
    MarkedRecords(planted.fs, path, remote);
  }

  /** The markers written into a checkout hold the `main` reference and the Git channel. */
  lemma MarkedRecords(planted: Fs, path: Path, remote: Remote)
    requires CloneMarked(planted, path, remote).result.Ok?
    ensures var after := CloneMarked(planted, path, remote).fs;
      Contents(after, VersionAt(path)) == GetRef(Git, remote) &&
      Contents(after, BranchAt(path)) == Ok(BranchMarker(Git)) &&
      IsDir(after, DistAt(path))
  {
    LayoutDistinct(path);
    var marked := Written(planted, BranchAt(path), BranchMarker(Git)).value;
    assert ParentIsDir(marked, VersionAt(path));
  }

  /** The disk once `download` has made sure `dist` exists. */
  function DistReady(fs: Fs, path: Path): Fs {
    if DistAt(path) in fs then fs else Apply(fs, DirsCreated(fs, DistAt(path))).fs
  }

  /**
   * A successful download either found itself up to date, leaving the disk as
   * it was once `dist` existed, or left `dist/branch.txt` naming its channel
   * and `dist/version.txt` holding what `get_ref` reports for it; without the
   * up-to-date test it always does the latter.
   */
  lemma DownloadRecordsChannel(fs: Fs, channel: Channel, path: Path, repoLocation: Option<string>, checkVer: bool,
                               remote: Remote, head: Result<Option<string>>)
    requires DownloadOutcome(fs, channel, path, repoLocation, checkVer, remote, head).result.Ok?
    ensures var after := DownloadOutcome(fs, channel, path, repoLocation, checkVer, remote, head).fs;
      after == DistReady(fs, path) ||
      (Contents(after, BranchAt(path)) == Ok(BranchMarker(channel)) &&
       Contents(after, VersionAt(path)) == GetRef(channel, remote))
    ensures var after := DownloadOutcome(fs, channel, path, repoLocation, checkVer, remote, head).fs;
      !checkVer ==>
        Contents(after, BranchAt(path)) == Ok(BranchMarker(channel)) &&
        Contents(after, VersionAt(path)) == GetRef(channel, remote)
  {
    var prepared := DistReady(fs, path);
    match channel
    case Stable =>
      var release := remote.latest.value;
      var check := if checkVer then VersionCheck(prepared, path, release.tagName, true) else Ok(false);
      if !check.value {
        var k := FindAsset(release.assets, StableAsset).value;
        InstalledRecords(prepared, path, release.assets[k].archive.value, release.tagName, BranchMarker(Stable));
      }
    case Nightly =>
      var current := FirstLine(remote.nightlyRef.value);
      var check := if checkVer then VersionCheck(prepared, path, current, false) else Ok(false);
      if !check.value {
        InstalledRecords(prepared, path, remote.nightlyArchive.value, current, BranchMarker(Nightly));
      }
    case Git =>
      if !GitCheck(prepared, path, checkVer, head).value {
        ReclonedRecords(prepared, path, repoLocation.GetOr(DefaultRepository), remote);
      }
  }

  /** Only a Git download asks for a build, and a Git download that does not short-circuit always does. */
  lemma NeedsBuildOnlyAfterClone(fs: Fs, channel: Channel, path: Path, repoLocation: Option<string>, checkVer: bool,
                                 remote: Remote, head: Result<Option<string>>)
    ensures var r := DownloadOutcome(fs, channel, path, repoLocation, checkVer, remote, head).result;
      (r == Ok(true) ==> channel == Git) &&
      (channel == Git && !checkVer && r.Ok? ==> r.value)
  {
    var prepared := if DistAt(path) in fs then Outcome(Ok(()), fs) else Apply(fs, DirsCreated(fs, DistAt(path)));
    if prepared.result.Ok? {
      match channel
      case Stable =>
        assert StableOutcome(prepared.fs, path, checkVer, remote).result != Ok(true);
      case Nightly =>
        assert NightlyOutcome(prepared.fs, path, checkVer, remote).result != Ok(true);
      case Git =>
        assert !checkVer ==> GitCheck(prepared.fs, path, checkVer, head) == Ok(false);
    }
  }

  /** A successful download, on a well-formed disk, leaves a `dist` directory. */
  lemma DownloadLeavesDist(fs: Fs, channel: Channel, path: Path, repoLocation: Option<string>, checkVer: bool,
                           remote: Remote, head: Result<Option<string>>)
    requires WellFormed(fs)
    requires DownloadOutcome(fs, channel, path, repoLocation, checkVer, remote, head).result.Ok?
    ensures IsDir(DownloadOutcome(fs, channel, path, repoLocation, checkVer, remote, head).fs, DistAt(path))
  {
    LayoutDistinct(path);
    if DistAt(path) in fs {
      if VersionAt(path) in fs {
        ParentOfEntryIsDir(fs, VersionAt(path));
      }
      ArmLeavesDist(fs, channel, path, repoLocation, checkVer, remote, head);
    } else {
      var prepared := DirsCreated(fs, DistAt(path)).value;
      ArmLeavesDist(prepared, channel, path, repoLocation, checkVer, remote, head);
    }
  }

  /** Once `dist` exists, and is a directory wherever a version file lies in it, a successful arm keeps it one. */
  lemma ArmLeavesDist(fs: Fs, channel: Channel, path: Path, repoLocation: Option<string>, checkVer: bool,
                      remote: Remote, head: Result<Option<string>>)
    requires DistAt(path) in fs && (VersionAt(path) in fs ==> IsDir(fs, DistAt(path)))
    requires DownloadOutcome(fs, channel, path, repoLocation, checkVer, remote, head).result.Ok?
    ensures IsDir(DownloadOutcome(fs, channel, path, repoLocation, checkVer, remote, head).fs, DistAt(path))
  {
    match channel
    case Stable =>
      var release := remote.latest.value;
      var check := if checkVer then VersionCheck(fs, path, release.tagName, true) else Ok(false);
      if !check.value {
        var k := FindAsset(release.assets, StableAsset).value;
        InstalledRecords(fs, path, release.assets[k].archive.value, release.tagName, BranchMarker(Stable));
      }
    case Nightly =>
      var current := FirstLine(remote.nightlyRef.value);
      var check := if checkVer then VersionCheck(fs, path, current, false) else Ok(false);
      if !check.value {
        InstalledRecords(fs, path, remote.nightlyArchive.value, current, BranchMarker(Nightly));
      }
    case Git =>
      if !GitCheck(fs, path, checkVer, head).value {
        ReclonedRecords(fs, path, repoLocation.GetOr(DefaultRepository), remote);
      }
  }

  /**
   * Downloading again right after a successful download finds it up to date
   * and changes nothing, as long as the network answers the same; for Git the
   * checkout must hold a `.git` whose HEAD is the `main` reference.
   */
  lemma SecondRunIsUpToDate(fs: Fs, channel: Channel, path: Path, repoLocation: Option<string>, checkVer: bool,
                            remote: Remote, head: Result<Option<string>>)
    requires WellFormed(fs)
    requires DownloadOutcome(fs, channel, path, repoLocation, checkVer, remote, head).result.Ok?
    requires channel == Git ==>
      GitDirAt(path) in DownloadOutcome(fs, channel, path, repoLocation, checkVer, remote, head).fs &&
      head.Ok? && head.value.Some? && GetRef(Git, remote) == Ok(head.value.value)
    ensures var after := DownloadOutcome(fs, channel, path, repoLocation, checkVer, remote, head).fs;
      DownloadOutcome(after, channel, path, repoLocation, true, remote, head) == Outcome(Ok(false), after)
  {
    DownloadLeavesDist(fs, channel, path, repoLocation, checkVer, remote, head);
    var prepared := if DistAt(path) in fs then fs else DirsCreated(fs, DistAt(path)).value;
    var after := DownloadOutcome(fs, channel, path, repoLocation, checkVer, remote, head).fs;
    assert DownloadOutcome(fs, channel, path, repoLocation, checkVer, remote, head) ==
      ArmOutcome(prepared, channel, path, repoLocation, checkVer, remote, head);
    ArmAgainUpToDate(prepared, channel, path, repoLocation, checkVer, remote, head);
    assert DownloadOutcome(after, channel, path, repoLocation, true, remote, head) ==
      ArmOutcome(after, channel, path, repoLocation, true, remote, head);
  }

  /** The same, for one arm: its second run, right after a successful one, finds the version it wrote. */
  lemma ArmAgainUpToDate(fs: Fs, channel: Channel, path: Path, repoLocation: Option<string>, checkVer: bool,
                         remote: Remote, head: Result<Option<string>>)
    requires ArmOutcome(fs, channel, path, repoLocation, checkVer, remote, head).result.Ok?
    requires channel == Git ==>
      GitDirAt(path) in ArmOutcome(fs, channel, path, repoLocation, checkVer, remote, head).fs &&
      head.Ok? && head.value.Some? && GetRef(Git, remote) == Ok(head.value.value)
    ensures var after := ArmOutcome(fs, channel, path, repoLocation, checkVer, remote, head).fs;
      ArmOutcome(after, channel, path, repoLocation, true, remote, head) == Outcome(Ok(false), after)
  {
    match channel
    case Stable =>
      var release := remote.latest.value;
      var check := if checkVer then VersionCheck(fs, path, release.tagName, true) else Ok(false);
      if !check.value {
        var k := FindAsset(release.assets, StableAsset).value;
        InstalledRecords(fs, path, release.assets[k].archive.value, release.tagName, BranchMarker(Stable));
        ContainsItself(release.tagName);
      }
    case Nightly =>
      var current := FirstLine(remote.nightlyRef.value);
      var check := if checkVer then VersionCheck(fs, path, current, false) else Ok(false);
      if !check.value {
        InstalledRecords(fs, path, remote.nightlyArchive.value, current, BranchMarker(Nightly));
      }
    case Git =>
      if !GitCheck(fs, path, checkVer, head).value {
        ReclonedRecords(fs, path, repoLocation.GetOr(DefaultRepository), remote);
      }
  }

  /** A failed request for the release or the nightly reference changes nothing once `dist` exists. */
  lemma NetworkFailureLeavesDisk(fs: Fs, channel: Channel, path: Path, repoLocation: Option<string>, checkVer: bool,
                                 remote: Remote, head: Result<Option<string>>)
    requires IsDir(fs, DistAt(path))
    ensures var o := DownloadOutcome(fs, channel, path, repoLocation, checkVer, remote, head);
      (channel == Stable && remote.latest.Err? ==> o == Outcome(Err(remote.latest.error), fs)) &&
      (channel == Nightly && remote.nightlyRef.Err? ==> o == Outcome(Err(remote.nightlyRef.error), fs))
  {
  }

  /**
   * Git: once past the up-to-date test the directory is removed before the
   * clone, so a clone that fails leaves nothing at or below it.
   */
  lemma FailedCloneLosesCheckout(fs: Fs, path: Path, repoLocation: Option<string>, checkVer: bool,
                                 remote: Remote, head: Result<Option<string>>)
    requires IsDir(fs, path) && IsDir(fs, DistAt(path))
    requires GitCheck(fs, path, checkVer, head) == Ok(false)
    requires remote.clone(repoLocation.GetOr(DefaultRepository)).Err?
    ensures var o := DownloadOutcome(fs, Git, path, repoLocation, checkVer, remote, head);
      o == Outcome(Err(remote.clone(repoLocation.GetOr(DefaultRepository)).error), Pruned(fs, path)) &&
      NothingAt(o.fs, path)
  {
  }

  /**
   * Git: the branch marker is written into the fresh checkout's `dist`, so the
   * download succeeds exactly when the cloned tree has a `dist` directory (given
   * the clone can be placed, the `main` reference resolves and neither marker
   * is a directory in the tree).
   */
  lemma CloneNeedsDist(fs: Fs, path: Path, repoLocation: Option<string>, checkVer: bool,
                       remote: Remote, head: Result<Option<string>>, tree: Fs)
    requires IsDir(fs, path) && IsDir(fs, DistAt(path))
    requires GitCheck(fs, path, checkVer, head) == Ok(false)
    requires remote.clone(repoLocation.GetOr(DefaultRepository)) == Ok(tree)
    requires Planted(Pruned(fs, path), path, tree).Ok? && GetRef(Git, remote).Ok?
    requires !IsDir(tree, ["dist", "branch.txt"]) && !IsDir(tree, ["dist", "version.txt"])
    ensures var o := DownloadOutcome(fs, Git, path, repoLocation, checkVer, remote, head);
      (o.result.Ok? <==> IsDir(tree, ["dist"])) &&
      (["dist"] !in tree ==> o.result == Err(NotFound(BranchAt(path))))
  {
    var planted := Pruned(fs, path)[path := Dir] + Graft(tree, [], path);
    CloneReachesMarkers(fs, path, repoLocation, checkVer, remote, head, tree);
    CheckoutEntry(fs, path, tree, ["dist"]);
    CheckoutEntry(fs, path, tree, ["dist", "branch.txt"]);
    CheckoutEntry(fs, path, tree, ["dist", "version.txt"]);
    MarkersNeedDist(planted, path, remote);
  }

  /** Past the test, with the checkout placed, what remains is writing the two markers. */
  lemma CloneReachesMarkers(fs: Fs, path: Path, repoLocation: Option<string>, checkVer: bool,
                            remote: Remote, head: Result<Option<string>>, tree: Fs)
    requires IsDir(fs, path) && IsDir(fs, DistAt(path))
    requires GitCheck(fs, path, checkVer, head) == Ok(false)
    requires remote.clone(repoLocation.GetOr(DefaultRepository)) == Ok(tree)
    requires Planted(Pruned(fs, path), path, tree).Ok?
    ensures DownloadOutcome(fs, Git, path, repoLocation, checkVer, remote, head) ==
      WithValue(CloneMarked(Pruned(fs, path)[path := Dir] + Graft(tree, [], path), path, remote), true)
  {
    var url := repoLocation.GetOr(DefaultRepository);
    GitDownloadReclones(fs, path, repoLocation, checkVer, remote, head);
    ReclonedIsMarked(fs, path, url, remote, tree);
  }

  /** Past the test, with `dist` present, a Git download is a reclone that asks for a build. */
  lemma GitDownloadReclones(fs: Fs, path: Path, repoLocation: Option<string>, checkVer: bool,
                            remote: Remote, head: Result<Option<string>>)
    requires DistAt(path) in fs && GitCheck(fs, path, checkVer, head) == Ok(false)
    ensures DownloadOutcome(fs, Git, path, repoLocation, checkVer, remote, head) ==
      WithValue(Recloned(fs, path, repoLocation.GetOr(DefaultRepository), remote), true)
  {
  }

  lemma ReclonedIsMarked(fs: Fs, path: Path, url: string, remote: Remote, tree: Fs)
    requires IsDir(fs, path) && remote.clone(url) == Ok(tree)
    requires Planted(Pruned(fs, path), path, tree).Ok?
    ensures Recloned(fs, path, url, remote) == CloneMarked(Pruned(fs, path)[path := Dir] + Graft(tree, [], path), path, remote)
  {
    assert TreeRemoved(fs, path) == Ok(Pruned(fs, path));
  }

  /** Writing the markers into a checkout succeeds exactly when it has a `dist` directory. */
  lemma MarkersNeedDist(planted: Fs, path: Path, remote: Remote)
    requires GetRef(Git, remote).Ok?
    requires !IsDir(planted, BranchAt(path)) && !IsDir(planted, VersionAt(path))
    ensures CloneMarked(planted, path, remote).result.Ok? <==> IsDir(planted, DistAt(path))
    ensures DistAt(path) !in planted ==> CloneMarked(planted, path, remote).result == Err(NotFound(BranchAt(path)))
  {
    LayoutDistinct(path);
    if IsDir(planted, DistAt(path)) {
      var marked := planted[BranchAt(path) := File(BranchMarker(Git))];
      assert Written(planted, BranchAt(path), BranchMarker(Git)) == Ok(marked);
      assert Written(marked, VersionAt(path), GetRef(Git, remote).value).Ok?;
    }
  }

  /** Below the checkout, the placed tree has exactly the cloned entries. */
  lemma CheckoutEntry(fs: Fs, path: Path, tree: Fs, q: Path)
    requires |q| > 0
    ensures var planted := Pruned(fs, path)[path := Dir] + Graft(tree, [], path);
      (path + q in planted <==> q in tree) && (q in tree ==> planted[path + q] == tree[q])
  {
    var g := Graft(tree, [], path);
    assert (path + q)[|path|..] == q;
    assert [] + (path + q)[|path|..] == q;
    assert q[0..] == q;
    assert [] <= q;
    if path + q in g {
      assert q in tree;
    }
  }

  /**
   * With the version check on and `dist` present, a matching version file ends
   * the download at once with nothing written: Stable matches the release tag
   * as a substring, Nightly the first line of the remote reference and Git the
   * local HEAD, both exactly.
   */
  lemma UpToDateChangesNothing(fs: Fs, channel: Channel, path: Path, repoLocation: Option<string>,
                               remote: Remote, head: Result<Option<string>>)
    requires IsDir(fs, DistAt(path))
    ensures channel == Stable && remote.latest.Ok? && VersionCheck(fs, path, remote.latest.value.tagName, true) == Ok(true) ==>
      DownloadOutcome(fs, channel, path, repoLocation, true, remote, head) == Outcome(Ok(false), fs)
    ensures channel == Nightly && remote.nightlyRef.Ok? && VersionCheck(fs, path, FirstLine(remote.nightlyRef.value), false) == Ok(true) ==>
      DownloadOutcome(fs, channel, path, repoLocation, true, remote, head) == Outcome(Ok(false), fs)
    ensures channel == Git && GitDirAt(path) in fs && head.Ok? && head.value.Some? && VersionCheck(fs, path, head.value.value, false) == Ok(true) ==>
      DownloadOutcome(fs, channel, path, repoLocation, true, remote, head) == Outcome(Ok(false), fs)
  {
  }

  /**
   * Once `dist` exists, a payload that cannot be fetched, or a missing release
   * asset, ends the download before anything is unpacked or written; an archive
   * that cannot be unpacked writes no marker.
   */
  lemma FailedFetchWritesNothing(fs: Fs, channel: Channel, path: Path, repoLocation: Option<string>, checkVer: bool,
                                 remote: Remote, head: Result<Option<string>>)
    requires IsDir(fs, DistAt(path))
    ensures var o := DownloadOutcome(fs, channel, path, repoLocation, checkVer, remote, head);
      channel == Stable && remote.latest.Ok? &&
      (if checkVer then VersionCheck(fs, path, remote.latest.value.tagName, true) else Ok(false)) == Ok(false) ==>
        match FindAsset(remote.latest.value.assets, StableAsset)
        case None => o == Outcome(Err(Panicked), fs)
        case Some(k) => remote.latest.value.assets[k].archive.Err? ==> o == Outcome(Err(remote.latest.value.assets[k].archive.error), fs)
    ensures var o := DownloadOutcome(fs, channel, path, repoLocation, checkVer, remote, head);
      channel == Nightly && remote.nightlyRef.Ok? && remote.nightlyArchive.Err? &&
      (if checkVer then VersionCheck(fs, path, FirstLine(remote.nightlyRef.value), false) else Ok(false)) == Ok(false) ==>
        o == Outcome(Err(remote.nightlyArchive.error), fs)
  {
  }

  lemma FailedUnpackWritesNoMarker(fs: Fs, path: Path, tree: Fs, version: string, marker: string)
    requires Unpacked(fs, DistAt(path), tree).Err?
    ensures Installed(fs, path, tree, version, marker) == Outcome(Err(Unpacked(fs, DistAt(path), tree).error), fs)
  {
  }
}
