/**
 * The operating-system helpers of `Platform`: environment lookups, the
 * configuration directory, the root-user check, running a command and the
 * Windows terminate-by-name scan. The process table, the process launcher and
 * the Toolhelp snapshot are inputs.
 */
module Platform {
  import opened Outcomes

  datatype Os = Windows | MacOS | Linux

  /** The process environment. */
  type Environment = map<string, string>

  /** `env(key, default)`: the variable's value when it is set, else the default. */
  function Env(env: Environment, key: string, default: string): (v: string)
    ensures key in env ==> v == env[key]
    ensures key !in env ==> v == default
  {
    if key in env then env[key] else default
  }

  const WindowsLeaf := "Moon"
  const MacLeaf := "Library/Application Support/Moon"
  const LinuxLeaf := ".config/moon"

  /** `Platform::conf_dir`: where the mod is installed when no root is given. */
  function ConfDir(os: Os, env: Environment): (dir: string)
    ensures os == Windows && "APPDATA" in env ==> dir == env["APPDATA"] + "/" + WindowsLeaf
    ensures os == Windows && "APPDATA" !in env && "USERPROFILE" in env ==> dir == env["USERPROFILE"] + "/" + WindowsLeaf
    ensures os == Windows && "APPDATA" !in env && "USERPROFILE" !in env ==> dir == "./" + "/" + WindowsLeaf
    ensures os == MacOS && "HOME" in env ==> dir == env["HOME"] + "/" + MacLeaf
    ensures os == MacOS && "HOME" !in env ==> dir == "~/" + "/" + MacLeaf
    ensures os == Linux && "HOME" in env ==> dir == env["HOME"] + "/" + LinuxLeaf
    ensures os == Linux && "HOME" !in env ==> dir == "~/" + "/" + LinuxLeaf
  {
    match os
    case Windows => Env(env, "APPDATA", Env(env, "USERPROFILE", "./")) + "/" + WindowsLeaf
    case MacOS => Env(env, "HOME", "~/") + "/" + MacLeaf
    case Linux => Env(env, "HOME", "~/") + "/" + LinuxLeaf
  }

  /** `Platform::pretransaction_checks`: Linux refuses a run whose sudo/doas user is root. */
  function PretransactionChecks(os: Os, env: Environment): (r: Result<()>)
    ensures r.Err? ==> r.error == RootUser
  {
    if os == Linux && Env(env, "SUDO_USER", Env(env, "DOAS_USER", "")) == "root" then Err(RootUser)
    else Ok(())
  }

  /** How a spawned command ended. */
  datatype ExitStatus = Exited(code: int) | Signalled(signal: int) {
    /** `ExitStatus::success` */
    predicate Success() { Exited? && code == 0 }
  }

  /** Spawning `program` with `args` in an optional working directory: how it exited, or why it could not run. */
  type Runner = (string, seq<string>, Option<string>) -> Result<ExitStatus>

  /**
   * `Platform::cmd_is_ok`: the first part names the program, the rest are its
   * arguments; an empty vector panics on `remove(0)`, so it is excluded here.
   */
  function CmdIsOk(parts: seq<string>, cwd: Option<string>, run: Runner): (ok: bool)
    requires |parts| > 0
    ensures ok <==> run(parts[0], parts[1..], cwd).Ok? && run(parts[0], parts[1..], cwd).value.Success()
  {
    match run(parts[0], parts[1..], cwd)
    case Ok(status) => status.Success()
    case Err(_) => false
  }

  /** One entry of a Toolhelp process snapshot and how the handle calls on it turn out. */
  datatype ProcessEntry = ProcessEntry(exeFile: string, opens: bool, terminates: bool)

  /** `CreateToolhelp32Snapshot`: either it fails or it lists the processes in order. */
  datatype Snapshot = SnapshotFailed | Snapshot(entries: seq<ProcessEntry>)

  /** The index of the first entry at or after `from` named `name`. */
  function FirstMatchFrom(entries: seq<ProcessEntry>, name: string, from: nat): (k: Option<nat>)
    requires from <= |entries|
    decreases |entries| - from
    ensures k.Some? ==> from <= k.value < |entries| && entries[k.value].exeFile == name
    ensures k.Some? ==> forall j | from <= j < k.value :: entries[j].exeFile != name
    ensures k.None? ==> forall j | from <= j < |entries| :: entries[j].exeFile != name
  {
    if from == |entries| then None
    else if entries[from].exeFile == name then Some(from)
    else FirstMatchFrom(entries, name, from + 1)
  }

  /** What `win_termbyname` reports: the first process of that name could be opened and terminated. */
  function TermByNameResult(snapshot: Snapshot, name: string): bool {
    match snapshot
    case SnapshotFailed => false
    case Snapshot(entries) =>
      match FirstMatchFrom(entries, name, 0)
      case None => false
      case Some(k) => entries[k].opens && entries[k].terminates
  }

  /**
   * `Platform::win_termbyname`: walks the snapshot with a cursor and acts on the
   * first process whose image name is `taskname`, stopping there either way.
   */
  method WinTermByName(taskname: string, snapshot: Snapshot) returns (ok: bool)
    ensures ok == TermByNameResult(snapshot, taskname)
  {
    if snapshot.SnapshotFailed? {
      return false;
    }
    var entries := snapshot.entries;
    if |entries| == 0 {
      // Process32First fails on an empty snapshot
      return false;
    }
    var i := 0;
    while true
      invariant 0 <= i < |entries|
      invariant forall j | 0 <= j < i :: entries[j].exeFile != taskname
      decreases |entries| - i
    {
      if entries[i].exeFile == taskname {
        if !entries[i].opens {
          return false;
        }
        if entries[i].terminates {
          return true;
        }
        return false;
      }
      if i + 1 == |entries| {
        // Process32Next reports the end of the snapshot
        break;
      }
      i := i + 1;
    }
    return false;
  }

  /**
   * The running processes of one Discord build, as far as killing them goes:
   * `win_termbyname` ends the first match, `killall` and `flatpak kill` end all
   * of them, and each reports failure when there was nothing to end.
   */
  class ProcessTable {
    var running: nat

    constructor (n: nat)
      ensures running == n
    {
      running := n;
    }

    method Terminate(all: bool) returns (ok: bool)
      modifies this
      ensures ok <==> old(running) > 0
      ensures running == (if !ok then old(running) else if all then 0 else old(running) - 1)
    {
      ok := running > 0;
      if ok {
        running := if all then 0 else running - 1;
      }
    }
  }

  // ---------------------------------------------------------------------------

  /** Only a sudo/doas user named root is refused: root logged in directly passes. */
  lemma RootCheckReadsInvoker(env: Environment)
    requires "SUDO_USER" !in env && "DOAS_USER" !in env
    ensures PretransactionChecks(Linux, env) == Ok(())
  {
  }

  /** The root check refuses exactly when SUDO_USER, falling back to DOAS_USER, is "root". */
  lemma RootCheckPrecedence(env: Environment)
    ensures PretransactionChecks(Linux, env).Err? <==>
      (if "SUDO_USER" in env then env["SUDO_USER"] == "root" else "DOAS_USER" in env && env["DOAS_USER"] == "root")
    ensures PretransactionChecks(Windows, env) == Ok(()) && PretransactionChecks(MacOS, env) == Ok(())
  {
  }
}
