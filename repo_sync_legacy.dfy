/** The older handler of internal/repo_sync/repo_handler.go. Its decision on
    the repository's path and its clone are those of the current handler; it has
    no force option, fetches every remote in-process through go-git instead of
    running `git fetch`, and only logs a failed fetch before going on to the sync. */
module RepoSyncLegacy {
  import opened Common
  import opened GitHub
  import RepoSync

  /** One in-process fetch per remote, in the order go-git lists them. */
  function RemoteFetches(repoPath: string, remotes: seq<string>): (fetches: seq<Effect>)
    ensures |fetches| == |remotes|
    ensures forall i :: 0 <= i < |remotes| ==> fetches[i] == RemoteFetch(repoPath, remotes[i])
  {
    if remotes == [] then [] else [RemoteFetch(repoPath, remotes[0])] + RemoteFetches(repoPath, remotes[1..])
  }

  /** The fetches `fetchAllRemotes` performs in `repoPath`: none when the
      repository cannot be opened or its remotes cannot be listed. */
  function FetchesIn(host: Host, repoPath: string): seq<Effect>
  {
    match host.open(repoPath)
    case Opened(remotes) => RemoteFetches(repoPath, remotes)
    case _ => []
  }

  /** `fetchAllRemotes`: opening the repository or listing its remotes can fail,
      and then that error is returned; otherwise every remote is fetched once and
      the result is no error, whatever each fetch gave. */
  method FetchAllRemotes(outputPath: string, host: Host) returns (err: Option<Error>, trace: seq<Effect>)
    ensures var repoPath := host.abs(outputPath);
      && trace == FetchesIn(host, repoPath)
      && match host.open(repoPath)
         case OpenFails(e) => err == Some(e)
         case RemotesFail(e) => err == Some(e)
         case Opened(_) => err == None
  {
    var repoPath := host.abs(outputPath);
    match host.open(repoPath)
    case OpenFails(e) =>
      return Some(e), [];
    case RemotesFail(e) =>
      return Some(e), [];
    case Opened(remotes) =>
      trace := [];
      for k := 0 to |remotes|
        invariant |trace| == k
        invariant forall i :: 0 <= i < k ==> trace[i] == RemoteFetch(repoPath, remotes[i])
      {
        var fetch := RemoteFetch(repoPath, remotes[k]);
        var _ := host.Outcome(fetch);  // the fetch's own error is dropped
        trace := trace + [fetch];
      }
      return None, trace;
  }

  /** What the older `updateLocalClone` does in the repository at `outputPath`:
      fetch the remotes, whatever the outcome; stop there without error for an
      empty repository; otherwise sync (never forced), and return the sync's error. */
  predicate Updated(host: Host, outputPath: string, organization: string, info: RepositoryInfo,
                    err: Option<Error>, trace: seq<Effect>)
  {
    var repoPath := host.abs(outputPath);
    var fetched := FetchesIn(host, host.abs(repoPath));
    var sync := RepoSync.SyncCommand(repoPath, organization, info.name, false);
    && (info.isEmpty ==> trace == fetched && err == None)
    && (!info.isEmpty ==> trace == fetched + [sync] && err == host.Outcome(sync))
  }

  method UpdateLocalClone(outputPath: string, organization: string, info: RepositoryInfo, host: Host)
    returns (err: Option<Error>, trace: seq<Effect>)
    ensures Updated(host, outputPath, organization, info, err, trace)
  {
    var repoPath := host.abs(outputPath);
    var fetchErr;
    fetchErr, trace := FetchAllRemotes(repoPath, host);
    // a failed fetch is only logged
    if info.isEmpty {
      return None, trace;
    }
    var command := RepoSync.SyncCommand(repoPath, organization, info.name, false);
    err := host.Outcome(command);
    trace := trace + [command];
  }

  /** `HandleRepository`: the same decision as the current handler on the
      state of `<output>/<name>`, without the force option. */
  method HandleRepository(dryRun: bool, output: string, organization: string, info: RepositoryInfo,
                          protocol: string, host: Host)
    returns (err: Option<Error>, trace: seq<Effect>)
    ensures dryRun ==> trace == []
    ensures var repoPath := RepoSync.RepoPath(host, output, info.name);
      match host.stat(repoPath)
      case Missing =>
        && (dryRun ==> err == None)
        && (!dryRun ==> RepoSync.Cloned(host, repoPath, organization, info.name, protocol, err, trace))
      case StatFails(e) => err == Some(e) && trace == []
      case File => err == Some(ExpectedFolder(repoPath)) && trace == []
      case Directory =>
        && (dryRun ==> err == None)
        && (!dryRun ==> Updated(host, repoPath, organization, info, err, trace))
  {
    var repository := info.name;
    var repoPath := RepoSync.RepoPath(host, output, repository);
    match host.stat(repoPath)
    case Missing =>
      if dryRun {
        return None, [];
      }
      err, trace := RepoSync.Clone(repoPath, organization, repository, protocol, host);
    case StatFails(e) =>
      return Some(e), [];
    case File =>
      return Some(ExpectedFolder(repoPath)), [];
    case Directory =>
      if dryRun {
        return None, [];
      }
      err, trace := UpdateLocalClone(repoPath, organization, info, host);
  }

  /** The older update's error never comes from the fetch step: it is the
      sync's, and an empty repository, which is never synced, gets none. No
      argument of any command it runs is `--force`. */
  lemma UpdateErrorIsSyncError(host: Host, outputPath: string, organization: string, info: RepositoryInfo,
                               err: Option<Error>, trace: seq<Effect>)
    requires Updated(host, outputPath, organization, info, err, trace)
    ensures info.isEmpty ==> err == None
    ensures err.Some? ==> err == Some(CommandFailed(trace[|trace| - 1])) && trace[|trace| - 1].tool == Gh
    ensures forall e :: e in trace && e.Exec? ==> RepoSync.ForceFlag !in e.args
  {
    var repoPath := host.abs(outputPath);
    var fetched := FetchesIn(host, host.abs(repoPath));
    assert forall e :: e in fetched ==> e.RemoteFetch?;
    if !info.isEmpty {
      RepoSync.ForceFlagPlacement(repoPath, organization, info.name, false);
      var sync := RepoSync.SyncCommand(repoPath, organization, info.name, false);
      assert multiset(sync.args)[RepoSync.ForceFlag] == 0;
      forall e | e in trace && e.Exec? ensures RepoSync.ForceFlag !in e.args {
        if e !in fetched {
          assert e == sync;
        }
      }
    }
  }
}
