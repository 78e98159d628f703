/**
 * The `down` action: find the install of a build, kill its processes until
 * killing fails, then uninject it once.
 */
module Down {
  import opened Outcomes
  import opened FileSystem
  import opened Kind
  import opened Platform
  import opened Install
  import opened Locator

  /** The kill loop run from `running` processes: how many `kill` calls it makes and how many processes remain. */
  datatype KillRun = KillRun(calls: nat, remaining: nat)

  /** Repeated `kill` until one fails; `all` when each success ends every process. */
  function KillLoop(all: bool, running: nat): (k: KillRun)
    decreases running
  {
    if running == 0 then KillRun(1, 0)
    else
      var rest := KillLoop(all, if all then 0 else running - 1);
      KillRun(rest.calls + 1, rest.remaining)
  }

  /**
   * The loop always ends with nothing running, after one failing call and
   * either one call per process (Windows) or a single successful call.
   */
  lemma {:induction false} KillLoopEndsIdle(all: bool, running: nat)
    ensures KillLoop(all, running).remaining == 0
    ensures KillLoop(all, running).calls == if running == 0 then 1 else if all then 2 else running + 1
    decreases running
  {
    if running > 0 {
      KillLoopEndsIdle(all, if all then 0 else running - 1);
    }
  }

  /** What `down` did: nothing, for want of an install, or its kill calls and the uninject result. */
  datatype DownReport = NoInstall | Finished(killCalls: nat, uninjected: Result<()>)

  /** `down` for the build `kind`, acting on the first install found. */
  method Down(os: Os, kind: DiscordKind, localAppData: Path, listing: seq<string>, older: (string, string) -> bool,
              disk: Disk, procs: ProcessTable) returns (report: DownReport)
    requires os != Linux && disk.Valid()
    requires os == Windows ==>
      StrictWeakOrder(older) &&
      (IsDir(disk.entries, Probe(os, kind, localAppData)) ==> Lists(disk.entries, Probe(os, kind, localAppData), listing))
    modifies disk, procs
    ensures disk.Valid()
    ensures var installs := InstallsByKind(os, kind, old(disk.entries), localAppData, listing, older);
      |installs| == 0 ==>
        report == NoInstall && disk.entries == old(disk.entries) && procs.running == old(procs.running)
    ensures var installs := InstallsByKind(os, kind, old(disk.entries), localAppData, listing, older);
      |installs| > 0 ==>
        report.Finished? &&
        report.killCalls == KillLoop(installs[0].KillsAll(), old(procs.running)).calls &&
        procs.running == KillLoop(installs[0].KillsAll(), old(procs.running)).remaining &&
        Outcome(report.uninjected, disk.entries) == UninjectOutcome(installs[0], old(disk.entries))
  {
    var installs := InstallsByKind(os, kind, disk.entries, localAppData, listing, older);
    if |installs| == 0 {
      return NoInstall;
    }
    var install := installs[0];
    var calls := 0;
    while true
      invariant KillLoop(install.KillsAll(), old(procs.running)) ==
        KillRun(calls + KillLoop(install.KillsAll(), procs.running).calls, KillLoop(install.KillsAll(), procs.running).remaining)
      invariant disk.entries == old(disk.entries)
      decreases procs.running
    {
      var r := install.Kill(procs);
      calls := calls + 1;
      if r.Err? {
        break;
      }
    }
    var uninjected := install.Uninject(disk);
    report := Finished(calls, uninjected);
  }
}
