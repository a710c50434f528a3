/** Values shared by the enumerator, the two repository handlers and the
    command-line driver: optional values, the errors the modelled code returns,
    the external effects it causes and the host it runs on. */
module Common {

  datatype Option<+T> = None | Some(value: T)

  /** What the program may use as an error value. Errors that come from a
      collaborator (the operating system, go-git, the GraphQL endpoint) are
      carried through unchanged, so they are inputs of the model. */
  datatype Error =
    | Os(message: string)                     // an error from the operating system or from go-git
    | GraphQL(message: string)                // an error from the GraphQL client or endpoint
    | ExpectedFolder(path: string)            // the repository path exists but is not a directory
    | UnknownProtocol(protocol: string)       // a clone protocol other than system, ssh, https
    | CommandFailed(effect: Effect)           // an external process could not run or exited non-zero
    | InRepository(name: string, cause: Error) // an error wrapped with the repository it concerns

  datatype Result<+T> = Ok(value: T) | Err(error: Error)

  /** The two external programs the code starts. */
  datatype Tool = Gh | Git

  /** One side effect on the outside world, in the order it happens. */
  datatype Effect =
      /** Run `tool` with `args`, in working directory `dir` (None: the current one). */
    | Exec(tool: Tool, dir: Option<string>, args: seq<string>)
      /** An in-process fetch of one remote of the repository at `repoPath`
          (full depth, all tags), as go-git performs it. */
    | RemoteFetch(repoPath: string, remote: string)

  /** What `os.Stat` reports for a path. */
  datatype FileState =
    | Missing                  // the error satisfies errors.Is(err, os.ErrNotExist)
    | StatFails(error: Error)  // any other error
    | File                     // it exists and is not a directory
    | Directory

  /** What go-git finds when it opens a path as a repository and lists its remotes. */
  datatype GitRepo =
    | OpenFails(error: Error)
    | RemotesFail(error: Error)
    | Opened(remotes: seq<string>)

  /** The machine the program runs on, seen only through total functions:
      absolute-path resolution, stat, the success of each effect, and go-git. */
  datatype Host = Host(
    abs: string -> string,
    stat: string -> FileState,
    succeeds: Effect -> bool,
    open: string -> GitRepo)
  {
    /** The error value a call site receives after performing `e`. */
    function Outcome(e: Effect): Option<Error>
    {
      if succeeds(e) then None else Some(CommandFailed(e))
    }
  }
}
