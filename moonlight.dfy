/**
 * `init_moonlight`: choose the channel (the one given, else the branch marker
 * a previous download left, else Stable) and download it with the version
 * check on.
 */
module Moonlight {
  import opened Outcomes
  import opened FileSystem
  import opened Channel
  import opened MoonlightDownload
  import opened DownloadFacts

  function TopMarkerAt(at: Path): Path { at + ["branch.txt"] }

  /** The channel a marker file names, or the error reading it. */
  function MarkerAt(fs: Fs, p: Path): (r: Result<Channel>)
    ensures r.Ok? <==> Contents(fs, p).Ok?
    ensures r.Ok? ==> r.value == MarkerChannel(fs[p].content)
  {
    match Contents(fs, p)
    case Err(e) => Err(e)
    case Ok(content) => Ok(MarkerChannel(content))
  }

  /** The channel remembered on disk: `at/branch.txt`, else `at/dist/branch.txt`, else Stable. */
  function StoredChannel(fs: Fs, at: Path): Result<Channel> {
    if TopMarkerAt(at) in fs then MarkerAt(fs, TopMarkerAt(at))
    else if BranchAt(at) in fs then MarkerAt(fs, BranchAt(at))
    else Ok(Stable)
  }

  /**
   * The channel choice as written: the fallback is an argument of
   * `unwrap_or`, so the marker is read, and its read error returned, even when a
   * channel was given.
   */
  function ResolveChannelAsWritten(fs: Fs, at: Path, channel: Option<Channel>): (r: Result<Channel>)
    ensures r.Err? <==> StoredChannel(fs, at).Err?
    ensures r.Ok? && channel.Some? ==> r.value == channel.value
  {
    var fallback := StoredChannel(fs, at);
    if fallback.Err? then Err(fallback.error) else Ok(channel.GetOr(fallback.value))
  }

  /** The channel choice as intended: the disk is consulted only when no channel was given. */
  function ResolveChannel(fs: Fs, at: Path, channel: Option<Channel>): (r: Result<Channel>)
    ensures channel.Some? ==> r == Ok(channel.value)
    ensures channel.None? ==> r == StoredChannel(fs, at)
  {
    match channel
    case Some(c) => Ok(c)
    case None => StoredChannel(fs, at)
  }

  /** `init_moonlight`: a download of the chosen channel with the version check on; its value is dropped. */
  function InitOutcome(fs: Fs, at: Path, channel: Option<Channel>, repoLocation: Option<string>,
                       remote: Remote, head: Result<Option<string>>): Outcome<()> {
    match ResolveChannel(fs, at, channel)
    case Err(e) => Outcome(Err(e), fs)
    case Ok(c) =>
      var o := DownloadOutcome(fs, c, at, repoLocation, true, remote, head);
      Outcome(if o.result.Ok? then Ok(()) else Err(o.result.error), o.fs)
  }

  method ReadMarker(disk: Disk, p: Path) returns (r: Result<Channel>)
    ensures r == MarkerAt(disk.entries, p)
  {
    var content := disk.ReadToString(p);
    if content.Err? {
      return Err(content.error);
    }
    r := Ok(MarkerChannel(content.value));
  }

  method ReadStoredChannel(disk: Disk, at: Path) returns (r: Result<Channel>)
    ensures r == StoredChannel(disk.entries, at)
  {
    var top := disk.Exists(TopMarkerAt(at));
    if top {
      r := ReadMarker(disk, TopMarkerAt(at));
      return;
    }
    var inDist := disk.Exists(BranchAt(at));
    if inDist {
      r := ReadMarker(disk, BranchAt(at));
      return;
    }
    r := Ok(Stable);
  }

  /** `init_moonlight` performed on the disk. */
  method InitMoonlight(disk: Disk, at: Path, channel: Option<Channel>, repoLocation: Option<string>,
                       remote: Remote, head: Result<Option<string>>) returns (r: Result<()>)
    requires disk.Valid() && remote.Valid()
    modifies disk
    ensures disk.Valid()
    ensures Outcome(r, disk.entries) == InitOutcome(old(disk.entries), at, channel, repoLocation, remote, head)
  {
    var chosen: Channel;
    if channel.Some? {
      chosen := channel.value;
    } else {
      var stored := ReadStoredChannel(disk, at);
      if stored.Err? {
        return Err(stored.error);
      }
      chosen := stored.value;
    }
    var downloaded := Download(disk, chosen, at, repoLocation, true, remote, head);
    r := if downloaded.Ok? then Ok(()) else Err(downloaded.error);
  }

  // ---------------------------------------------------------------------------

  /** The top-level marker wins over the one in `dist`, and with neither the channel is Stable; a directory in the way is an error. */
  lemma StoredChannelPrecedence(fs: Fs, at: Path)
    ensures TopMarkerAt(at) in fs && fs[TopMarkerAt(at)].File? ==>
      StoredChannel(fs, at) == Ok(MarkerChannel(fs[TopMarkerAt(at)].content))
    ensures TopMarkerAt(at) !in fs && BranchAt(at) in fs && fs[BranchAt(at)].File? ==>
      StoredChannel(fs, at) == Ok(MarkerChannel(fs[BranchAt(at)].content))
    ensures TopMarkerAt(at) !in fs && BranchAt(at) !in fs ==> StoredChannel(fs, at) == Ok(Stable)
    ensures StoredChannel(fs, at).Err? <==>
      (if TopMarkerAt(at) in fs then fs[TopMarkerAt(at)].Dir? else BranchAt(at) in fs && fs[BranchAt(at)].Dir?)
  {
  }

  /**
   * After a successful download without a top-level `branch.txt`, choosing no
   * channel picks the one downloaded, unless the download found itself up to
   * date and left the disk as it was once `dist` existed; a download without
   * the up-to-date test always makes it the choice.
   */
  lemma ResolveFollowsLastDownload(fs: Fs, c: Channel, at: Path, repoLocation: Option<string>, checkVer: bool,
                                   remote: Remote, head: Result<Option<string>>)
    requires DownloadOutcome(fs, c, at, repoLocation, checkVer, remote, head).result.Ok?
    requires TopMarkerAt(at) !in DownloadOutcome(fs, c, at, repoLocation, checkVer, remote, head).fs
    ensures var after := DownloadOutcome(fs, c, at, repoLocation, checkVer, remote, head).fs;
      after == DistReady(fs, at) || ResolveChannel(after, at, None) == Ok(c)
    ensures !checkVer ==>
      ResolveChannel(DownloadOutcome(fs, c, at, repoLocation, checkVer, remote, head).fs, at, None) == Ok(c)
  {
    DownloadRecordsChannel(fs, c, at, repoLocation, checkVer, remote, head);
    MarkerRoundTrip(c);
  }

  /**
   * After a successful `init_moonlight` without a top-level `branch.txt`, the
   * next one given no channel chooses the channel this one chose, unless this
   * one found itself up to date and left the disk as it was once `dist` existed.
   */
  lemma InitRemembersChannel(fs: Fs, at: Path, channel: Option<Channel>, repoLocation: Option<string>,
                             remote: Remote, head: Result<Option<string>>)
    requires InitOutcome(fs, at, channel, repoLocation, remote, head).result.Ok?
    requires TopMarkerAt(at) !in InitOutcome(fs, at, channel, repoLocation, remote, head).fs
    ensures var after := InitOutcome(fs, at, channel, repoLocation, remote, head).fs;
      after == DistReady(fs, at) || ResolveChannel(after, at, None) == ResolveChannel(fs, at, channel)
  {
    var c := ResolveChannel(fs, at, channel).value;
    ResolveFollowsLastDownload(fs, c, at, repoLocation, true, remote, head);
  }

  /**
   * As written, a given channel is refused when `branch.txt` cannot be read,
   * although it is not needed; the corrected choice returns the given channel.
   */
  lemma EagerFallbackRejectsGivenChannel(fs: Fs, at: Path, c: Channel)
    requires IsDir(fs, TopMarkerAt(at))
    ensures ResolveChannelAsWritten(fs, at, Some(c)) == Err(IsADirectory(TopMarkerAt(at)))
    ensures ResolveChannel(fs, at, Some(c)) == Ok(c)
  {
  }

  /** One concrete disk showing the discrepancy: a directory named `branch.txt` in the moonlight directory. */
  lemma EagerFallbackExample()
    ensures var fs := map[["moon"] := Dir, ["moon", "branch.txt"] := Dir];
      WellFormed(fs) &&
      ResolveChannelAsWritten(fs, ["moon"], Some(Nightly)).Err? &&
      ResolveChannel(fs, ["moon"], Some(Nightly)) == Ok(Nightly)
  {
    var fs := map[["moon"] := Dir, ["moon", "branch.txt"] := Dir];
    assert Parent(["moon", "branch.txt"]) == ["moon"];
    assert TopMarkerAt(["moon"]) == ["moon", "branch.txt"];
    EagerFallbackRejectsGivenChannel(fs, ["moon"], Nightly);
  }

  /** Whenever the as-written choice succeeds, or no channel is given, the two choices agree. */
  lemma CorrectedAgreesWhenReadable(fs: Fs, at: Path, channel: Option<Channel>)
    ensures ResolveChannelAsWritten(fs, at, channel).Ok? || channel.None? ==>
      ResolveChannel(fs, at, channel) == ResolveChannelAsWritten(fs, at, channel)
  {
  }

  /** Initialising again with the same channel and the same network answers changes nothing. */
  lemma InitAgainIsNoOp(fs: Fs, at: Path, c: Channel, repoLocation: Option<string>,
                        remote: Remote, head: Result<Option<string>>)
    requires WellFormed(fs)
    requires InitOutcome(fs, at, Some(c), repoLocation, remote, head).result.Ok?
    requires c == Git ==>
      GitDirAt(at) in InitOutcome(fs, at, Some(c), repoLocation, remote, head).fs &&
      head.Ok? && head.value.Some? && GetRef(Git, remote) == Ok(head.value.value)
    ensures var after := InitOutcome(fs, at, Some(c), repoLocation, remote, head).fs;
      InitOutcome(after, at, Some(c), repoLocation, remote, head) == Outcome(Ok(()), after)
  {
    SecondRunIsUpToDate(fs, c, at, repoLocation, true, remote, head);
  }

  /**
   * Once the channel is chosen, initialising is a download of it with the
   * version check on: the same disk afterwards, and success exactly when the
   * download succeeds, whichever value it returns.
   */
  lemma InitIsCheckedDownload(fs: Fs, at: Path, channel: Option<Channel>, repoLocation: Option<string>,
                              remote: Remote, head: Result<Option<string>>)
    requires ResolveChannel(fs, at, channel).Ok?
    ensures var o := DownloadOutcome(fs, ResolveChannel(fs, at, channel).value, at, repoLocation, true, remote, head);
      var init := InitOutcome(fs, at, channel, repoLocation, remote, head);
      init.fs == o.fs && (init.result.Ok? <==> o.result.Ok?) && (init.result.Err? ==> init.result.error == o.result.error)
  {
  }
}
