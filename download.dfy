/**
 * Fetching a moonlight build into a directory: the latest GitHub release for
 * Stable, the nightly archive for Nightly, a fresh clone for Git. What the
 * network and the local git repository answer is an input, `Remote` and
 * `head`; everything on disk is modelled.
 */
module MoonlightDownload {
  import opened Outcomes
  import opened FileSystem
  import opened Text
  import opened Channel

  /** A release asset and what downloading and decoding its archive gives. */
  datatype Asset = Asset(name: string, archive: Result<Fs>)

  /** The latest GitHub release of moonlight-mod/moonlight. */
  datatype Release = Release(tagName: string, assets: seq<Asset>)

  /** The object the `main` branch reference points at. */
  datatype GitObject = Commit(sha: string) | Tag(sha: string) | OtherObject

  /**
   * What the network answers during one run: the latest-release request, the
   * nightly `ref` text, the nightly archive, the `main` reference and a clone of
   * a repository URL (its work tree, `.git` included).
   */
  datatype Remote = Remote(
    latest: Result<Release>,
    nightlyRef: Result<string>,
    nightlyArchive: Result<Fs>,
    mainRef: Result<GitObject>,
    clone: string -> Result<Fs>)
  {
    /** Every tree the network delivers is itself a well-formed tree. */
    ghost predicate Valid() {
      (latest.Ok? ==> forall a | a in latest.value.assets && a.archive.Ok? :: WellFormed(a.archive.value)) &&
      (nightlyArchive.Ok? ==> WellFormed(nightlyArchive.value)) &&
      (forall url | clone(url).Ok? :: WellFormed(clone(url).value))
    }
  }

  const DefaultRepository := "https://github.com/moonlight-mod/moonlight"
  const StableAsset := "dist.tar.gz"

  function DistAt(path: Path): Path { path + ["dist"] }
  function VersionAt(path: Path): Path { path + ["dist", "version.txt"] }
  function BranchAt(path: Path): Path { path + ["dist", "branch.txt"] }
  function GitDirAt(path: Path): Path { path + [".git"] }

  /** `assets.iter().find(|a| a.name == name)`: the first asset of that name. */
  function FindAsset(assets: seq<Asset>, name: string): (k: Option<nat>)
    ensures k.Some? ==> k.value < |assets| && assets[k.value].name == name
    ensures k.Some? ==> forall j | 0 <= j < k.value :: assets[j].name != name
    ensures k.None? ==> forall j | 0 <= j < |assets| :: assets[j].name != name
  {
    if |assets| == 0 then None
    else if assets[0].name == name then Some(0)
    else match FindAsset(assets[1..], name)
      case None => None
      case Some(k) => Some(k + 1)
  }

  /**
   * `get_ref`: the reference a channel currently publishes. Every failure
   * (network, an unexpected object kind) is an `unwrap` or `panic!`.
   */
  function GetRef(channel: Channel, remote: Remote): (r: Result<string>)
    ensures r.Err? ==> r.error == Panicked
    ensures channel == Stable ==> (r.Ok? <==> remote.latest.Ok?)
    ensures channel == Nightly ==> (r.Ok? <==> remote.nightlyRef.Ok?)
    ensures channel == Git ==> (r.Ok? <==> remote.mainRef.Ok? && !remote.mainRef.value.OtherObject?)
  {
    match channel
    case Stable =>
      (match remote.latest
       case Ok(release) => Ok(release.tagName)
       case Err(_) => Err(Panicked))
    case Nightly =>
      (match remote.nightlyRef
       case Ok(text) => Ok(FirstLine(text))
       case Err(_) => Err(Panicked))
    case Git =>
      (match remote.mainRef
       case Ok(Commit(sha)) => Ok(sha)
       case Ok(Tag(sha)) => Ok(sha)
       case _ => Err(Panicked))
  }

  /**
   * The up-to-date test on `dist/version.txt`: false when the file is absent,
   * an error when it cannot be read, else whether its content matches `current`
   * (as a substring for Stable, exactly otherwise).
   */
  function VersionCheck(fs: Fs, path: Path, current: string, bySubstring: bool): (r: Result<bool>)
    ensures r == Ok(true) <==>
      VersionAt(path) in fs && fs[VersionAt(path)].File? &&
      (if bySubstring then Contains(fs[VersionAt(path)].content, current) else fs[VersionAt(path)].content == current)
    ensures r.Err? <==> IsDir(fs, VersionAt(path))
  {
    if VersionAt(path) !in fs then Ok(false)
    else match Contents(fs, VersionAt(path))
      case Err(e) => Err(e)
      case Ok(content) => Ok(if bySubstring then Contains(content, current) else content == current)
  }

  /** A step outcome carried on as the download's outcome, with `value` on success. */
  function WithValue(o: Outcome<()>, value: bool): (r: Outcome<bool>)
    ensures r.fs == o.fs && (r.result.Ok? <==> o.result.Ok?)
    ensures r.result.Ok? ==> r.result.value == value
    ensures r.result.Err? ==> r.result.error == o.result.error
  {
    match o.result
    case Ok(_) => Outcome(Ok(value), o.fs)
    case Err(e) => Outcome(Err(e), o.fs)
  }

  /** Unpack the payload into `dist`, then write the version and the branch marker. */
  function Installed(fs: Fs, path: Path, tree: Fs, version: string, marker: string): Outcome<()> {
    var unpacked := Apply(fs, Unpacked(fs, DistAt(path), tree));
    if unpacked.result.Err? then unpacked
    else
      var versioned := Apply(unpacked.fs, Written(unpacked.fs, VersionAt(path), version));
      if versioned.result.Err? then versioned
      else Apply(versioned.fs, Written(versioned.fs, BranchAt(path), marker))
  }

  /** The Stable arm of `download`, once `dist` exists. */
  function StableOutcome(fs: Fs, path: Path, checkVer: bool, remote: Remote): Outcome<bool> {
    match remote.latest
    case Err(e) => Outcome(Err(e), fs)
    case Ok(release) =>
      var check := if checkVer then VersionCheck(fs, path, release.tagName, true) else Ok(false);
      if check.Err? then Outcome(Err(check.error), fs)
      else if check.value then Outcome(Ok(false), fs)
      else match FindAsset(release.assets, StableAsset)
        case None => Outcome(Err(Panicked), fs)
        case Some(k) =>
          match release.assets[k].archive
          case Err(e) => Outcome(Err(e), fs)
          case Ok(tree) => WithValue(Installed(fs, path, tree, release.tagName, BranchMarker(Stable)), false)
  }

  /** The Nightly arm of `download`, once `dist` exists. */
  function NightlyOutcome(fs: Fs, path: Path, checkVer: bool, remote: Remote): Outcome<bool> {
    match remote.nightlyRef
    case Err(e) => Outcome(Err(e), fs)
    case Ok(text) =>
      var current := FirstLine(text);
      var check := if checkVer then VersionCheck(fs, path, current, false) else Ok(false);
      if check.Err? then Outcome(Err(check.error), fs)
      else if check.value then Outcome(Ok(false), fs)
      else match remote.nightlyArchive
        case Err(e) => Outcome(Err(e), fs)
        case Ok(tree) => WithValue(Installed(fs, path, tree, current, BranchMarker(Nightly)), false)
  }

  /** The Git arm's up-to-date test: the local HEAD against `dist/version.txt`, when a `.git` exists. */
  function GitCheck(fs: Fs, path: Path, checkVer: bool, head: Result<Option<string>>): Result<bool> {
    if checkVer && GitDirAt(path) in fs then
      match head
      case Err(e) => Err(e)
      case Ok(None) => Err(Panicked)
      case Ok(Some(sha)) => VersionCheck(fs, path, sha, false)
    else Ok(false)
  }

  /** After the test: remove the directory, clone into it, write the branch marker and the `main` reference. */
  function Recloned(fs: Fs, path: Path, url: string, remote: Remote): Outcome<()> {
    var cleared := if path in fs then Apply(fs, TreeRemoved(fs, path)) else Outcome(Ok(()), fs);
    if cleared.result.Err? then cleared
    else match remote.clone(url)
      case Err(e) => Outcome(Err(e), cleared.fs)
      case Ok(tree) =>
        var planted := Apply(cleared.fs, Planted(cleared.fs, path, tree));
        if planted.result.Err? then planted
        else CloneMarked(planted.fs, path, remote)
  }

  /** The steps of a reclone after the checkout is in place: the branch marker, then the `main` reference. */
  function CloneMarked(planted: Fs, path: Path, remote: Remote): Outcome<()> {
    var marked := Apply(planted, Written(planted, BranchAt(path), BranchMarker(Git)));
    if marked.result.Err? then marked
    else match GetRef(Git, remote)
      case Err(e) => Outcome(Err(e), marked.fs)
      case Ok(sha) => Apply(marked.fs, Written(marked.fs, VersionAt(path), sha))
  }

  /** The Git arm of `download`, once `dist` exists. */
  function GitOutcome(fs: Fs, path: Path, repoLocation: Option<string>, checkVer: bool,
                      remote: Remote, head: Result<Option<string>>): Outcome<bool> {
    var check := GitCheck(fs, path, checkVer, head);
    if check.Err? then Outcome(Err(check.error), fs)
    else if check.value then Outcome(Ok(false), fs)
    else WithValue(Recloned(fs, path, repoLocation.GetOr(DefaultRepository), remote), true)
  }

  /** `download`: make sure `dist` exists, then run the channel's arm; the value is "needs a build". */
  function DownloadOutcome(fs: Fs, channel: Channel, path: Path, repoLocation: Option<string>, checkVer: bool,
                           remote: Remote, head: Result<Option<string>>): Outcome<bool> {
    var prepared := if DistAt(path) in fs then Outcome(Ok(()), fs) else Apply(fs, DirsCreated(fs, DistAt(path)));
    if prepared.result.Err? then Outcome(Err(prepared.result.error), prepared.fs)
    else ArmOutcome(prepared.fs, channel, path, repoLocation, checkVer, remote, head)
  }

  /** The arm of `download` for the channel. */
  function ArmOutcome(fs: Fs, channel: Channel, path: Path, repoLocation: Option<string>, checkVer: bool,
                      remote: Remote, head: Result<Option<string>>): Outcome<bool> {
    match channel
    case Stable => StableOutcome(fs, path, checkVer, remote)
    case Nightly => NightlyOutcome(fs, path, checkVer, remote)
    case Git => GitOutcome(fs, path, repoLocation, checkVer, remote, head)
  }

  // ---------------------------------------------------------------------------
  // The download performed on the disk.

  method CheckVersion(disk: Disk, path: Path, current: string, bySubstring: bool) returns (r: Result<bool>)
    ensures r == VersionCheck(disk.entries, path, current, bySubstring)
  {
    var present := disk.Exists(VersionAt(path));
    if !present {
      return Ok(false);
    }
    var content := disk.ReadToString(VersionAt(path));
    if content.Err? {
      return Err(content.error);
    }
    r := Ok(if bySubstring then Contains(content.value, current) else content.value == current);
  }

  method Install(disk: Disk, path: Path, tree: Fs, version: string, marker: string) returns (r: Result<()>)
    requires disk.Valid() && WellFormed(tree)
    modifies disk
    ensures disk.Valid()
    ensures Outcome(r, disk.entries) == Installed(old(disk.entries), path, tree, version, marker)
  {
    r := disk.Unpack(DistAt(path), tree);
    if r.Err? {
      return;
    }
    r := disk.Write(VersionAt(path), version);
    if r.Err? {
      return;
    }
    r := disk.Write(BranchAt(path), marker);
  }

  method FetchStable(disk: Disk, path: Path, checkVer: bool, remote: Remote) returns (r: Result<bool>)
    requires disk.Valid() && remote.Valid()
    modifies disk
    ensures disk.Valid()
    ensures Outcome(r, disk.entries) == StableOutcome(old(disk.entries), path, checkVer, remote)
  {
    if remote.latest.Err? {
      return Err(remote.latest.error);
    }
    var release := remote.latest.value;
    if checkVer {
      var current := CheckVersion(disk, path, release.tagName, true);
      if current.Err? {
        return Err(current.error);
      }
      if current.value {
        return Ok(false);
      }
    }
    var k := FindAsset(release.assets, StableAsset);
    if k.None? {
      return Err(Panicked);
    }
    var archive := release.assets[k.value].archive;
    if archive.Err? {
      return Err(archive.error);
    }
    assert release.assets[k.value] in release.assets;
    var done := Install(disk, path, archive.value, release.tagName, BranchMarker(Stable));
    r := if done.Ok? then Ok(false) else Err(done.error);
  }

  method FetchNightly(disk: Disk, path: Path, checkVer: bool, remote: Remote) returns (r: Result<bool>)
    requires disk.Valid() && remote.Valid()
    modifies disk
    ensures disk.Valid()
    ensures Outcome(r, disk.entries) == NightlyOutcome(old(disk.entries), path, checkVer, remote)
  {
    if remote.nightlyRef.Err? {
      return Err(remote.nightlyRef.error);
    }
    var current := FirstLine(remote.nightlyRef.value);
    if checkVer {
      var upToDate := CheckVersion(disk, path, current, false);
      if upToDate.Err? {
        return Err(upToDate.error);
      }
      if upToDate.value {
        return Ok(false);
      }
    }
    if remote.nightlyArchive.Err? {
      return Err(remote.nightlyArchive.error);
    }
    var done := Install(disk, path, remote.nightlyArchive.value, current, BranchMarker(Nightly));
    r := if done.Ok? then Ok(false) else Err(done.error);
  }

  method Reclone(disk: Disk, path: Path, url: string, remote: Remote) returns (r: Result<()>)
    requires disk.Valid() && remote.Valid()
    modifies disk
    ensures disk.Valid()
    ensures Outcome(r, disk.entries) == Recloned(old(disk.entries), path, url, remote)
  {
    var present := disk.Exists(path);
    if present {
      r := disk.RemoveDirAll(path);
      if r.Err? {
        return;
      }
    }
    var tree := remote.clone(url);
    if tree.Err? {
      return Err(tree.error);
    }
    r := disk.Plant(path, tree.value);
    if r.Err? {
      return;
    }
    r := MarkClone(disk, path, remote);
  }

  /** The branch marker and the `main` reference written into the checkout on the disk. */
  method MarkClone(disk: Disk, path: Path, remote: Remote) returns (r: Result<()>)
    requires disk.Valid()
    modifies disk
    ensures disk.Valid()
    ensures Outcome(r, disk.entries) == CloneMarked(old(disk.entries), path, remote)
  {
    r := disk.Write(BranchAt(path), BranchMarker(Git));
    if r.Err? {
      return;
    }
    var sha := GetRef(Git, remote);
    if sha.Err? {
      return Err(sha.error);
    }
    r := disk.Write(VersionAt(path), sha.value);
  }

  method FetchGit(disk: Disk, path: Path, repoLocation: Option<string>, checkVer: bool,
                  remote: Remote, head: Result<Option<string>>) returns (r: Result<bool>)
    requires disk.Valid() && remote.Valid()
    modifies disk
    ensures disk.Valid()
    ensures Outcome(r, disk.entries) == GitOutcome(old(disk.entries), path, repoLocation, checkVer, remote, head)
  {
    var hasRepository := disk.Exists(GitDirAt(path));
    if checkVer && hasRepository {
      if head.Err? {
        return Err(head.error);
      }
      if head.value.None? {
        return Err(Panicked);
      }
      var upToDate := CheckVersion(disk, path, head.value.value, false);
      if upToDate.Err? {
        return Err(upToDate.error);
      }
      if upToDate.value {
        return Ok(false);
      }
    }
    var done := Reclone(disk, path, repoLocation.GetOr(DefaultRepository), remote);
    r := if done.Ok? then Ok(true) else Err(done.error);
  }

  /** `download` performed on the disk. */
  method Download(disk: Disk, channel: Channel, path: Path, repoLocation: Option<string>, checkVer: bool,
                  remote: Remote, head: Result<Option<string>>) returns (r: Result<bool>)
    requires disk.Valid() && remote.Valid()
    modifies disk
    ensures disk.Valid()
    ensures Outcome(r, disk.entries) == DownloadOutcome(old(disk.entries), channel, path, repoLocation, checkVer, remote, head)
  {
    var hasDist := disk.Exists(DistAt(path));
    if !hasDist {
      var made := disk.CreateDirAll(DistAt(path));
      if made.Err? {
        return Err(made.error);
      }
    }
    r := FetchArm(disk, channel, path, repoLocation, checkVer, remote, head);
  }

  /** The channel's arm performed on the disk. */
  method FetchArm(disk: Disk, channel: Channel, path: Path, repoLocation: Option<string>, checkVer: bool,
                  remote: Remote, head: Result<Option<string>>) returns (r: Result<bool>)
    requires disk.Valid() && remote.Valid()
    modifies disk
    ensures disk.Valid()
    ensures Outcome(r, disk.entries) == ArmOutcome(old(disk.entries), channel, path, repoLocation, checkVer, remote, head)
  {
    match channel
    case Stable => r := FetchStable(disk, path, checkVer, remote);
    case Nightly => r := FetchNightly(disk, path, checkVer, remote);
    case Git => r := FetchGit(disk, path, repoLocation, checkVer, remote, head);
  }
}
