/** The command-line driver of main.go: pre-flight checks on the arguments,
    enumeration of the organization, then one handler call per repository. */
module OrgRepoSync {
  import opened Common
  import opened Strings
  import opened GitHub
  import RepoSync

  const DefaultBatchSize: int := 50
  const MaxBatchSize: int := 100

  /** The values of the command-line flags, once parsed. */
  datatype Flags = Flags(dryRun: bool, query: string, batchSize: int, output: string, protocol: string, force: bool)

  const DefaultFlags: Flags := Flags(false, "", DefaultBatchSize, ".", RepoSync.SystemProtocol, false)

  /** Arguments that ask for the usage text instead of naming an organization. */
  const HelpTokens: set<string> := {"-h", "-help", "--help"}

  datatype Rejection = MissingOrganization | HelpRequested | InvalidBatchSize(batchSize: int)

  /** How a run ends. */
  datatype Exit =
    | Rejected(reason: Rejection)  // a usage or validation message, then os.Exit(1)
    | Fatal(error: Error)          // log.Fatal on an enumeration error
    | Panicked(error: Error)       // panic with a handler's error
    | Finished                     // main returns
  {
    function Status(): (code: int)
      ensures code == 0 <==> Finished?
      ensures Rejected? || Fatal? ==> code == 1
      ensures Panicked? ==> code == 2
    {
      match this
      case Finished => 0
      case Panicked(_) => 2
      case _ => 1
    }
  }

  /** One call of the handler: its arguments, and the error it returned and the
      effects it caused. */
  datatype HandlerCall = HandlerCall(
    dryRun: bool, output: string, organization: string, repo: RepositoryInfo,
    protocol: string, force: bool, err: Option<Error>, trace: seq<Effect>)

  predicate ValidBatchSize(batchSize: int)
  {
    1 <= batchSize <= MaxBatchSize
  }

  /** The pre-flight checks: an organization argument must be there and must not
      be a help request, and the batch size must lie in 1..100. */
  method CheckArguments(args: seq<string>, batchSize: int) returns (organization: string, rejection: Option<Rejection>)
    ensures |args| < 2 ==> rejection == Some(MissingOrganization)
    ensures |args| >= 2 ==> organization == args[1]
    ensures |args| >= 2 && args[1] in HelpTokens ==> rejection == Some(HelpRequested)
    ensures |args| >= 2 && args[1] !in HelpTokens ==>
      rejection == if ValidBatchSize(batchSize) then None else Some(InvalidBatchSize(batchSize))
  {
    if |args| < 2 {
      return "", Some(MissingOrganization);
    }
    organization := args[1];
    if organization == "-h" || organization == "-help" || organization == "--help" {
      return organization, Some(HelpRequested);
    }
    if batchSize <= 0 || batchSize > 100 {
      return organization, Some(InvalidBatchSize(batchSize));
    }
    return organization, None;
  }

  /** Call `i` is the first whose handler returned an error. */
  predicate FirstFailure(calls: seq<HandlerCall>, i: int)
  {
    && 0 <= i < |calls|
    && calls[i].err.Some?
    && forall j :: 0 <= j < i ==> calls[j].err.None?
  }

  /** A run of the program on command-line arguments `args` (`args[0]` is the
      program name) with parsed `flags`. `isEmpty` says which repositories are
      empty. Returns how the run ends, the requests sent to the search endpoint
      and the handler calls, in order. */
  method Run(args: seq<string>, flags: Flags, api: Api, host: Host, isEmpty: string -> bool, ghost n: nat)
    returns (exit: Exit, requests: seq<Request>, calls: seq<HandlerCall>)
    requires |args| >= 2 && args[1] !in HelpTokens && ValidBatchSize(flags.batchSize) ==>
      Paginates(api, SearchQuery(args[1], flags.query), flags.batchSize, n)
    ensures exit.Rejected? <==> |args| < 2 || args[1] in HelpTokens || !ValidBatchSize(flags.batchSize)
    ensures exit.Rejected? ==> requests == [] && calls == []
    ensures !exit.Rejected? ==>
      var listing := Enumeration(api, args[1], flags.query, flags.batchSize, n);
      && requests == listing.requests
      && (exit.Fatal? <==> listing.result.Err?)
      && (listing.result.Err? ==> exit == Fatal(listing.result.error) && calls == [])
      && (listing.result.Ok? ==>
            && |calls| == |listing.result.value|
            && forall i :: 0 <= i < |calls| ==>
                 var name := listing.result.value[i];
                 && calls[i].repo == RepositoryInfo(name, isEmpty(name))
                 && calls[i].organization == args[1]
                 && calls[i].protocol == ToLower(flags.protocol)
                 && calls[i].dryRun == flags.dryRun
                 && calls[i].output == flags.output
                 && calls[i].force == flags.force)
    ensures forall c :: c in calls ==>
      RepoSync.Handled(host, c.dryRun, c.output, c.organization, c.repo, c.protocol, c.force, c.err, c.trace)
    ensures exit.Panicked? <==> exists i :: 0 <= i < |calls| && calls[i].err.Some?
    ensures exit.Panicked? ==>
      exists i :: FirstFailure(calls, i) && exit.error == InRepository(calls[i].repo.name, calls[i].err.value)
    ensures flags.dryRun ==> forall c :: c in calls ==> c.trace == []
  {
    var organization, rejection := CheckArguments(args, flags.batchSize);
    if rejection.Some? {
      return Rejected(rejection.value), [], [];
    }
    var cloneProtocol := ToLower(flags.protocol);
    var repositories;
    repositories, requests := GetOrganizationRepos(organization, flags.query, flags.batchSize, api, n);
    if repositories.Err? {
      return Fatal(repositories.error), requests, [];
    }
    var names := repositories.value;
    if |names| == 0 {
      return Finished, requests, [];
    }
    calls := [];
    var firstError: Option<Error> := None;
    for k := 0 to |names|
      invariant |calls| == k
      invariant forall i :: 0 <= i < k ==>
        calls[i] == HandlerCall(flags.dryRun, flags.output, organization, RepositoryInfo(names[i], isEmpty(names[i])),
                                cloneProtocol, flags.force, calls[i].err, calls[i].trace)
      invariant forall c :: c in calls ==>
        RepoSync.Handled(host, c.dryRun, c.output, c.organization, c.repo, c.protocol, c.force, c.err, c.trace)
      invariant flags.dryRun ==> forall c :: c in calls ==> c.trace == []
      invariant firstError.None? <==> forall i :: 0 <= i < k ==> calls[i].err.None?
      invariant firstError.Some? ==>
        exists i :: FirstFailure(calls, i) && firstError.value == InRepository(calls[i].repo.name, calls[i].err.value)
    {
      var repo := RepositoryInfo(names[k], isEmpty(names[k]));
      var err, trace := RepoSync.HandleRepository(flags.dryRun, flags.output, organization, repo, cloneProtocol,
                                                  flags.force, host);
      ghost var before := calls;
      calls := calls + [HandlerCall(flags.dryRun, flags.output, organization, repo, cloneProtocol, flags.force, err, trace)];
      if err.Some? && firstError.None? {
        firstError := Some(InRepository(repo.name, err.value));
        assert FirstFailure(calls, k);
      } else if firstError.Some? {
        ghost var i :| FirstFailure(before, i) && firstError.value == InRepository(before[i].repo.name, before[i].err.value);
        assert FirstFailure(calls, i);
      }
    }
    if firstError.Some? {
      return Panicked(firstError.value), requests, calls;
    }
    return Finished, requests, calls;
  }

  /** The defaults: batches of 50, which the check accepts, and the system
      protocol; the protocol is matched without regard to case. */
  lemma Defaults()
    ensures DefaultFlags.batchSize == 50 && ValidBatchSize(DefaultFlags.batchSize)
    ensures ToLower(DefaultFlags.protocol) == RepoSync.SystemProtocol
    ensures ToLower("SSH") == RepoSync.SSHProtocol && ToLower("Https") == RepoSync.HTTPSProtocol
  {
  }
}
