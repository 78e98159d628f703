/** Values shared by every module: optional values, results and the error taxonomy. */
module Outcomes {

  datatype Option<T> = None | Some(value: T) {
    function GetOr(default: T): T {
      match this
      case Some(v) => v
      case None => default
    }
  }

  /** The ways an operation of the tool can fail. */
  datatype Error =
    | NotFound(path: seq<string>)
    | AlreadyExists(path: seq<string>)
    | IsADirectory(path: seq<string>)
    | NotADirectory(path: seq<string>)
    | DirectoryNotEmpty(path: seq<string>)
    | InvalidInput(path: seq<string>)
    | Network          // a GitHub API or HTTP request failed
    | Archive          // the gzip/tar payload could not be unpacked
    | VersionControl   // opening, reading or cloning a git repository failed
    | KillFailed       // the terminate command reported failure
    | StartFailed      // the launch command reported failure
    | Unsupported      // start on a non-flatpak Linux install
    | RootUser         // the tool was invoked through sudo/doas by root
    | Panicked         // an `unwrap` or `panic!` aborted the run

  /** `Result<T, Box<dyn Error>>` */
  datatype Result<T> = Ok(value: T) | Err(error: Error)
}
