/**
 * `Platform::installs_by_kind`: the one place each platform looks for an
 * install of a Discord build.
 */
module Locator {
  import opened Outcomes
  import opened FileSystem
  import opened Kind
  import opened Text
  import opened Platform
  import opened Install
  import opened DetectionFacts

  /** The macOS application bundle name of a build, without `.app`. */
  function MacBundleName(kind: DiscordKind): (name: string)
    ensures |name| >= 7 && name[..7] == "Discord"
  {
    match kind
    case Stable => "Discord"
    case Canary => "Discord Canary"
    case Ptb => "Discord PTB"
    case Development => "Discord Development"
  }

  /**
   * Where a build is looked for: `<LOCALAPPDATA>/<kind name>` on Windows, with
   * the variable's value fixed when the tool was built, and
   * `/Applications/<bundle>.app` on macOS.
   */
  function Probe(os: Os, kind: DiscordKind, localAppData: Path): (p: Path)
    requires os != Linux
    ensures os == Windows ==> p == localAppData + [KindName(kind)]
    ensures os == MacOS ==> p == ["", "Applications", MacBundleName(kind) + ".app"]
  {
    if os == Windows then localAppData + [KindName(kind)]
    else ["", "Applications", MacBundleName(kind) + ".app"]
  }

  /** `installs_by_kind`: the install found at the probed path, if any. */
  function InstallsByKind(os: Os, kind: DiscordKind, fs: Fs, localAppData: Path, listing: seq<string>,
                          older: (string, string) -> bool): (r: seq<DiscordInstall>)
    requires os != Linux
    requires os == Windows ==>
      StrictWeakOrder(older) && (IsDir(fs, Probe(os, kind, localAppData)) ==> Lists(fs, Probe(os, kind, localAppData), listing))
    ensures |r| <= 1
    ensures |r| == 1 <==> New(os, kind, Probe(os, kind, localAppData), fs, listing, older).Some?
    ensures forall i | 0 <= i < |r| :: r[i].os == os && r[i].kind == kind
  {
    match New(os, kind, Probe(os, kind, localAppData), fs, listing, older)
    case Some(install) => [install]
    case None => []
  }

  // ---------------------------------------------------------------------------

  /** Distinct builds live in distinct bundles. */
  lemma MacBundleNameInjective(a: DiscordKind, b: DiscordKind)
    ensures MacBundleName(a) == MacBundleName(b) ==> a == b
  {
  }

  lemma BundleNameHasNoDot(kind: DiscordKind)
    ensures '.' !in MacBundleName(kind)
  {
    var name := MacBundleName(kind);
    forall i | 0 <= i < |name| ensures name[i] != '.' {}
  }

  /**
   * macOS: an install found here is the bundle itself; `kill` runs `killall`
   * with the bundle name, and `start` opens `Contents/MacOS/Discord` whatever
   * the build.
   */
  lemma MacInstallCommands(kind: DiscordKind, fs: Fs, older: (string, string) -> bool)
    requires |InstallsByKind(MacOS, kind, fs, [], [], older)| == 1
    ensures var install := InstallsByKind(MacOS, kind, fs, [], [], older)[0];
      var bundle := ["", "Applications", MacBundleName(kind) + ".app"];
      install.path == bundle && bundle + ["Contents", "Resources"] in fs &&
      install.KillAction() == RunCommand(["killall", MacBundleName(kind)]) &&
      install.StartAction() == Launch(PathText(bundle + ["Contents", "MacOS", "Discord"]))
  {
    var bundle := ["", "Applications", MacBundleName(kind) + ".app"];
    MacDetection(kind, bundle, fs, older);
    assert bundle[|bundle| - 1] == MacBundleName(kind) + ".app";
    BundleNameHasNoDot(kind);
    StripAppSuffix(MacBundleName(kind));
  }

  /**
   * Windows: an install found here is the newest `app-` folder directly inside
   * `<LOCALAPPDATA>/<kind name>`, and `kill` ends `<kind name>.exe`.
   */
  lemma WindowsInstallCommands(kind: DiscordKind, fs: Fs, localAppData: Path, listing: seq<string>,
                               older: (string, string) -> bool)
    requires StrictWeakOrder(older)
    requires IsDir(fs, localAppData + [KindName(kind)]) ==> Lists(fs, localAppData + [KindName(kind)], listing)
    requires |InstallsByKind(Windows, kind, fs, localAppData, listing, older)| == 1
    ensures var install := InstallsByKind(Windows, kind, fs, localAppData, listing, older)[0];
      var home := localAppData + [KindName(kind)];
      |install.path| == |home| + 1 && install.path[..|home|] == home &&
      NewestAppFolder(listing, older, install.path[|home|]) &&
      install.KillAction() == TerminateByName(KindName(kind) + ".exe")
  {
    WindowsDetection(kind, localAppData + [KindName(kind)], fs, listing, older);
  }
}
