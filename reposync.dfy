/** The per-repository handler of internal/reposync/repo_handler.go: it looks
    at the repository's directory under the output path and either plans,
    clones, refuses, or fetches and then syncs. Every external process it starts
    is recorded, in order, in the trace it returns. */
module RepoSync {
  import opened Common
  import opened Strings
  import opened GitHub

  const SystemProtocol: string := "system"
  const SSHProtocol: string := "ssh"
  const HTTPSProtocol: string := "https"

  // ---------------------------------------------------------------------------
  // URLs and commands

  /** The owner/name pair `gh` understands. */
  function Slug(organization: string, repository: string): string
  {
    organization + "/" + repository
  }

  /** The URL a clone starts from, by protocol; any protocol but the three
      known ones is refused. */
  function CloneUrl(protocol: string, organization: string, repository: string): (url: Result<string>)
    ensures url.Err? <==> protocol !in {SystemProtocol, SSHProtocol, HTTPSProtocol}
    ensures url.Err? ==> url.error == UnknownProtocol(protocol)
  {
    if protocol == SystemProtocol then Ok(Slug(organization, repository))
    else if protocol == SSHProtocol then Ok("git@github.com:" + Slug(organization, repository) + ".git")
    else if protocol == HTTPSProtocol then Ok("https://github.com/" + Slug(organization, repository) + ".git")
    else Err(UnknownProtocol(protocol))
  }

  /** The three URL forms: `org/name` for the system protocol (the protocol
      configured in gh decides), `git@github.com:org/name.git` for ssh and
      `https://github.com/org/name.git` for https. */
  lemma CloneUrlForms(organization: string, repository: string)
    ensures CloneUrl("system", organization, repository) == Ok(organization + "/" + repository)
    ensures CloneUrl("ssh", organization, repository) == Ok("git@github.com:" + organization + "/" + repository + ".git")
    ensures CloneUrl("https", organization, repository) == Ok("https://github.com/" + organization + "/" + repository + ".git")
  {
    assert "ssh" != SystemProtocol by { assert "ssh"[1] != SystemProtocol[1]; }
    assert "https" != SystemProtocol && "https" != SSHProtocol by {
      assert "https"[0] != SystemProtocol[0] && |"https"| != |SSHProtocol|;
    }
    var slug := Slug(organization, repository);
    assert "git@github.com:" + slug + ".git" == "git@github.com:" + organization + "/" + repository + ".git";
    assert "https://github.com/" + slug + ".git" == "https://github.com/" + organization + "/" + repository + ".git";
  }

  /** Whatever the protocol, the URL names the repository of the organization. */
  lemma CloneUrlNamesRepository(protocol: string, organization: string, repository: string)
    ensures var url := CloneUrl(protocol, organization, repository);
      url.Ok? ==> Contains(url.value, Slug(organization, repository))
  {
    var slug := Slug(organization, repository);
    ContainsItself(slug);
    if protocol == SSHProtocol {
      ContainsBefore(slug, ".git", slug);
      ContainsAfter("git@github.com:", slug + ".git", slug);
      assert "git@github.com:" + slug + ".git" == "git@github.com:" + (slug + ".git");
    } else if protocol == HTTPSProtocol {
      ContainsBefore(slug, ".git", slug);
      ContainsAfter("https://github.com/", slug + ".git", slug);
      assert "https://github.com/" + slug + ".git" == "https://github.com/" + (slug + ".git");
    }
  }

  const ForceFlag: string := "--force"

  const FetchArgs: seq<string> := ["fetch", "--all", "--prune", "--tags", "--recurse-submodules"]

  function SyncArgs(organization: string, repository: string): seq<string>
  {
    ["repo", "sync", "--source", Slug(organization, repository)]
  }

  /** `if force { args = append(args, "--force") }` */
  function WithForce(args: seq<string>, force: bool): seq<string>
  {
    if force then args + [ForceFlag] else args
  }

  function CloneCommand(url: string, path: string): Effect
  {
    Exec(Gh, None, ["repo", "clone", url, path])
  }

  /** `git fetch --all --prune --tags --recurse-submodules [--force]`, run in `dir`. */
  function FetchCommand(dir: string, force: bool): Effect
  {
    Exec(Git, Some(dir), WithForce(FetchArgs, force))
  }

  /** `gh repo sync --source org/name [--force]`, run in `dir`. */
  function SyncCommand(dir: string, organization: string, repository: string, force: bool): Effect
  {
    Exec(Gh, Some(dir), WithForce(SyncArgs(organization, repository), force))
  }

  /** Adding the flag to arguments that do not have it: they stay a prefix, and
      the flag appears once, last, exactly when `force` is set. */
  lemma WithForceFacts(args: seq<string>, force: bool)
    requires ForceFlag !in args
    ensures var r := WithForce(args, force);
      && r[..|args|] == args
      && multiset(r)[ForceFlag] == (if force then 1 else 0)
      && (force ==> |r| == |args| + 1 && r[|args|] == ForceFlag)
      && (!force ==> r == args)
      && r == args + (if force then [ForceFlag] else [])
  {
  }

  /** `org/name` always holds a slash, so it is never the flag itself. */
  lemma SlugIsNotForceFlag(organization: string, repository: string)
    ensures Slug(organization, repository) != ForceFlag
  {
    var slug := Slug(organization, repository);
    assert slug[|organization|] == '/';
    if |slug| == |ForceFlag| {
      assert forall i :: 0 <= i < |ForceFlag| ==> ForceFlag[i] != '/';
    }
  }

  lemma FlagNotInFetchArgs()
    ensures ForceFlag !in FetchArgs
  {
  }

  /** `force` adds exactly one `--force`, at the end of both the fetch and the
      sync arguments; without it neither has one. */
  lemma ForceFlagPlacement(dir: string, organization: string, repository: string, force: bool)
    ensures FetchCommand(dir, force).args == FetchArgs + (if force then [ForceFlag] else [])
    ensures SyncCommand(dir, organization, repository, force).args
         == SyncArgs(organization, repository) + (if force then [ForceFlag] else [])
    ensures var fetch := FetchCommand(dir, force).args;
      var sync := SyncCommand(dir, organization, repository, force).args;
      && fetch[..|FetchArgs|] == FetchArgs
      && sync[..4] == SyncArgs(organization, repository)
      && multiset(fetch)[ForceFlag] == (if force then 1 else 0)
      && multiset(sync)[ForceFlag] == (if force then 1 else 0)
      && (force ==> fetch[|fetch| - 1] == ForceFlag && sync[|sync| - 1] == ForceFlag)
  {
    FlagNotInFetchArgs();
    WithForceFacts(FetchArgs, force);
    FlagNotInSyncArgs(organization, repository);
    WithForceFacts(SyncArgs(organization, repository), force);
  }

  lemma FlagNotInSyncArgs(organization: string, repository: string)
    ensures ForceFlag !in SyncArgs(organization, repository)
  {
    SlugIsNotForceFlag(organization, repository);
    var s := SyncArgs(organization, repository);
    assert ForceFlag != s[0] && ForceFlag != s[1] && ForceFlag != s[2] by {
      assert ForceFlag[2] != s[0][2] && ForceFlag[2] != s[1][2] && ForceFlag[2] != s[2][2];
    }
  }

  // ---------------------------------------------------------------------------
  // The steps

  /** What `clone` does for a repository whose target path is `output`: refuse
      an unknown protocol before anything runs, otherwise run exactly one
      `gh repo clone <url> <path>` and return its error. */
  predicate Cloned(host: Host, output: string, organization: string, repository: string, protocol: string,
                   err: Option<Error>, trace: seq<Effect>)
  {
    var url := CloneUrl(protocol, organization, repository);
    && (url.Err? ==> err == Some(url.error) && trace == [])
    && (url.Ok? ==> trace == [CloneCommand(url.value, host.abs(output))] && err == host.Outcome(trace[0]))
  }

  method Clone(output: string, organization: string, repository: string, protocol: string, host: Host)
    returns (err: Option<Error>, trace: seq<Effect>)
    ensures Cloned(host, output, organization, repository, protocol, err, trace)
  {
    var repoUrl := CloneUrl(protocol, organization, repository);
    if repoUrl.Err? {
      return Some(repoUrl.error), [];
    }
    var repoPath := host.abs(output);
    var command := CloneCommand(repoUrl.value, repoPath);
    return host.Outcome(command), [command];
  }

  /** `fetchAllRemotes`: one `git fetch --all …` in the repository. */
  method FetchAllRemotes(outputPath: string, force: bool, host: Host) returns (err: Option<Error>, trace: seq<Effect>)
    ensures trace == [FetchCommand(host.abs(outputPath), force)]
    ensures err.None? <==> host.succeeds(trace[0])
    ensures err.Some? ==> err.value == CommandFailed(trace[0])
  {
    var repoPath := host.abs(outputPath);
    var command := FetchCommand(repoPath, force);
    return host.Outcome(command), [command];
  }

  /** What `updateLocalClone` does in the repository at `outputPath`: the fetch
      always runs first; its error is returned and then nothing else runs; an
      empty repository stops after the fetch without error; otherwise the sync
      runs second and its error is the result. */
  predicate Updated(host: Host, outputPath: string, organization: string, info: RepositoryInfo, force: bool,
                    err: Option<Error>, trace: seq<Effect>)
  {
    var repoPath := host.abs(outputPath);
    var fetch := FetchCommand(host.abs(repoPath), force);
    var sync := SyncCommand(repoPath, organization, info.name, force);
    && |trace| >= 1 && trace[0] == fetch
    && (!host.succeeds(fetch) ==> trace == [fetch] && err == Some(CommandFailed(fetch)))
    && (host.succeeds(fetch) && info.isEmpty ==> trace == [fetch] && err == None)
    && (host.succeeds(fetch) && !info.isEmpty ==> trace == [fetch, sync] && err == host.Outcome(sync))
  }

  method UpdateLocalClone(outputPath: string, organization: string, info: RepositoryInfo, force: bool, host: Host)
    returns (err: Option<Error>, trace: seq<Effect>)
    ensures Updated(host, outputPath, organization, info, force, err, trace)
  {
    var repoPath := host.abs(outputPath);
    err, trace := FetchAllRemotes(repoPath, force, host);
    if err.Some? {
      return;
    }
    if info.isEmpty {
      return None, trace;
    }
    var command := SyncCommand(repoPath, organization, info.name, force);
    err := host.Outcome(command);
    trace := trace + [command];
  }

  /** The path a repository is kept at: `<output>/<name>`, made absolute. */
  function RepoPath(host: Host, output: string, repository: string): string
  {
    host.abs(output + "/" + repository)
  }

  /** The decision `HandleRepository` takes on the state of `<output>/<name>`:
      a missing path is cloned (in a dry run, only announced); a stat error other
      than "does not exist" is returned as it is; a path that is not a directory
      is an error; a directory is updated (in a dry run, only announced). Nothing
      runs in a dry run, nor on either error. */
  predicate Handled(host: Host, dryRun: bool, output: string, organization: string, info: RepositoryInfo,
                    protocol: string, force: bool, err: Option<Error>, trace: seq<Effect>)
  {
    var repoPath := RepoPath(host, output, info.name);
    match host.stat(repoPath)
    case Missing =>
      && (dryRun ==> err == None && trace == [])
      && (!dryRun ==> Cloned(host, repoPath, organization, info.name, protocol, err, trace))
    case StatFails(e) => err == Some(e) && trace == []
    case File => err == Some(ExpectedFolder(repoPath)) && trace == []
    case Directory =>
      && (dryRun ==> err == None && trace == [])
      && (!dryRun ==> Updated(host, repoPath, organization, info, force, err, trace))
  }

  method HandleRepository(dryRun: bool, output: string, organization: string, info: RepositoryInfo,
                          protocol: string, force: bool, host: Host)
    returns (err: Option<Error>, trace: seq<Effect>)
    ensures Handled(host, dryRun, output, organization, info, protocol, force, err, trace)
    ensures dryRun ==> trace == []
    ensures |trace| <= 2
  {
    var repository := info.name;
    var repoPath := RepoPath(host, output, repository);
    match host.stat(repoPath)
    case Missing =>
      if dryRun {
        return None, [];
      }
      err, trace := Clone(repoPath, organization, repository, protocol, host);
    case StatFails(e) =>
      return Some(e), [];
    case File =>
      return Some(ExpectedFolder(repoPath)), [];
    case Directory =>
      if dryRun {
        return None, [];
      }
      err, trace := UpdateLocalClone(repoPath, organization, info, force, host);
  }

  /** An empty repository is never synced; a sync only ever comes second,
      after a fetch in the same repository that succeeded. */
  lemma SyncOnlyAfterFetch(host: Host, outputPath: string, organization: string, info: RepositoryInfo,
                           force: bool, err: Option<Error>, trace: seq<Effect>)
    requires Updated(host, outputPath, organization, info, force, err, trace)
    ensures var sync := SyncCommand(host.abs(outputPath), organization, info.name, force);
      && (info.isEmpty ==> sync !in trace)
      && (sync in trace ==> |trace| == 2 && trace[1] == sync && trace[0].tool == Git && host.succeeds(trace[0]))
  {
  }
}
