# gh-org-repo-sync, modelled in Dafny

`gh org-repo-sync <organization>` mirrors every repository of a GitHub
organization into a local directory. It lists the organization's repositories
through the GraphQL search endpoint, page by page. Each repository missing
locally is cloned with `gh repo clone`. Each one present as a directory is
fetched with `git fetch --all …` and then brought up to date with
`gh repo sync`.

This project models the four pieces of logic in that program:

- `GitHub` (`github.dfy`) models `internal/github/repo.go`. It covers the
  search query built from the organization and the caller's filter, and the
  cursor pagination that concatenates the names of every page. The GraphQL
  endpoint is a function from requests to responses (`Api`). The pagination is
  a method with a loop, proved equal to the specification function
  `Enumeration`. Lemmas about `Enumeration` give the request sequence and the
  result.
- `RepoSync` (`reposync.dfy`) models `internal/reposync/repo_handler.go`,
  the current per-repository handler. It covers the decision on the state of
  `<output>/<name>`, the clone URL for each protocol, and the fetch-then-sync
  update with its optional `--force`.
- `RepoSyncLegacy` (`repo_sync_legacy.dfy`) models
  `internal/repo_sync/repo_handler.go`, the older handler. It has no force
  option. It fetches every remote through go-git, and a failed fetch is only
  logged.
- `OrgRepoSync` (`orgreposync.dfy`) models `main.go`. It covers the
  pre-flight checks, the lower-casing of the protocol, the enumeration, the
  early return on zero repositories, and one handler call per repository.

`Common` (`common.dfy`) holds the shared values. `Host` stands for the
machine: path resolution, `os.Stat`, whether each external effect succeeds,
and what go-git finds in a directory. `Effect` is one external command or
one in-process remote fetch. Every handler returns the effects it caused, in
order, next to its error. `Strings` (`strings.dfy`) holds `strings.Contains`
and `strings.ToLower`.

Points of the code's behaviour that a reader may not expect:

- The error of the first page request is never checked
  (`internal/github/repo.go:42`). A failed first page is therefore read as a
  page with no names, a count of 0 and an empty cursor. With any batch size of
  at least 0, the enumeration then succeeds with an empty list, and `main`
  returns as if the organization had no repositories. A failure on a later
  page does abort the enumeration, and the names already collected are dropped
  (`GitHub.EnumerationResult`).
- The current handler runs one `git fetch --all` command. A failure of that
  command ends the update, and no sync runs. Only the older handler fetches
  each remote separately and goes on after a failed fetch.
- The handlers return only an error. No per-repository outcome (cloned,
  updated, skipped) and no sorted summary exist. A handler error makes `main`
  panic once every handler has finished, so per-repository errors do change
  the exit status.
- The batch-size message says "less than 100", but the check accepts 100.
- `main.go` hands the enumerated names to the handler as descriptors that
  carry `IsEmpty`. The enumerator shown returns only names, so the driver takes
  the emptiness of each repository as an input (`isEmpty`).

## Model

| member | source | states |
|---|---|---|
| `Strings.ToLower` | main.go:79 | lower-casing keeps the length, leaves no upper-case letter, keeps every other character and maps each upper-case letter to its lower-case form |
| `Strings.ToLowerIdempotent` | main.go:79 | lower-casing an already lower-cased protocol changes nothing |
| `GitHub.SearchQueryQualifiers` | internal/github/repo.go:16-30 | whatever the filter, the query contains `org:"<org>"`, contains `fork:` and contains the filter verbatim |
| `GitHub.SearchQueryCases` | internal/github/repo.go:16-30 | the query is the filter when the filter has the organization qualifier, otherwise the qualifier, then a space and the filter when there is one; ` fork:true` is appended exactly when the caller's filter lacks `fork:` |
| `GitHub.SearchQueryWithoutFilter` | internal/github/repo.go:27-30 | organization `acme` with an empty filter gives `org:"acme" fork:true` |
| `GitHub.ProjectNames` | internal/github/repo.go:109-112 | the names of a page's edges, one per edge, in edge order |
| `GitHub.AppendAll` | internal/github/repo.go:43-45 | appending a page's names one by one gives the accumulator followed by those names |
| `GitHub.GetOrganizationRepositories` | internal/github/repo.go:104-113 | the first request hands back the page's names, count and end cursor; on failure, no names, a count of 0, an empty cursor and the error |
| `GitHub.GetOrganizationRepositoriesAfter` | internal/github/repo.go:137-146 | a later request hands back the page's names and end cursor; on failure, no names, an empty cursor and the error |
| `GitHub.LaterPagesFacts` | internal/github/repo.go:46-60 | each later request uses the end cursor of the page before it; every page but the last had a non-empty cursor; the last failed or had an empty cursor; the result is that failure's error, or else all pages' names in order |
| `GitHub.LaterPagesBoundIrrelevant` | internal/github/repo.go:48-60 | the pages fetched depend only on the endpoint's answers, not on the bound that guarantees the loop stops |
| `GitHub.EnumerationRequests` | internal/github/repo.go:37-60 | no request is made when the client cannot be created; otherwise the first page comes first, and later pages follow exactly when the first page's count exceeds the batch size, each resuming at the previous end cursor and stopping at an empty cursor |
| `GitHub.EnumerationResult` | internal/github/repo.go:37-62 | the result is every fetched page's names concatenated in request order, with nothing removed or reordered; the client's error or a later page's error is returned and nothing else; a failed first page yields an empty list and no error |
| `GitHub.HundredTwentyInBatchesOfFifty` | internal/github/repo.go:41-61 | an organization of 120 repositories, on an endpoint that serves batches of 50 and returns an empty end cursor with the last 20, takes exactly three requests, the later two resuming at the previous end cursors, and yields 120 names |
| `GitHub.GetOrganizationRepos` | internal/github/repo.go:15-63 | the query-building, fetch-and-append loop returns exactly the names and requests of `Enumeration` |
| `RepoSync.CloneUrl` | internal/reposync/repo_handler.go:76-86 | a clone URL exists exactly for the protocols `system`, `ssh` and `https`; any other protocol gives an "unknown protocol" error |
| `RepoSync.CloneUrlForms` | internal/reposync/repo_handler.go:19-30 | `system` gives `org/name`, `ssh` gives `git@github.com:org/name.git`, `https` gives `https://github.com/org/name.git` |
| `RepoSync.CloneUrlNamesRepository` | internal/reposync/repo_handler.go:77-83 | every clone URL contains `org/name` |
| `RepoSync.ForceFlagPlacement` | internal/reposync/repo_handler.go:113-129 | the fetch arguments are exactly `fetch --all --prune --tags --recurse-submodules` and the sync arguments exactly `repo sync --source org/name`, each followed by `--force` when force is set and by nothing otherwise; `--force` occurs once, last, in both exactly when force is set, and never otherwise |
| `RepoSync.Clone` | internal/reposync/repo_handler.go:76-97 | an unknown protocol is refused before anything runs; otherwise exactly one `gh repo clone <url> <absolute path>` runs, and its error is the result |
| `RepoSync.FetchAllRemotes` | internal/reposync/repo_handler.go:121-132 | exactly one `git fetch` runs in the repository, forced when asked, and its error is the result |
| `RepoSync.UpdateLocalClone` | internal/reposync/repo_handler.go:99-119 | the fetch runs first; a fetch error is returned and no sync runs; an empty repository stops after the fetch with no error; otherwise the sync runs second and its error is the result |
| `RepoSync.HandleRepository` | internal/reposync/repo_handler.go:36-74 | on `<output>/<name>` made absolute: missing gives a clone, or nothing in a dry run; another stat error is returned unchanged; a non-directory gives an "expected folder" error; a directory gives an update, or nothing in a dry run; a dry run never runs a command; at most two commands run |
| `RepoSync.SyncOnlyAfterFetch` | internal/reposync/repo_handler.go:105-118 | an empty repository is never synced; a sync is only ever the second command, after a successful fetch |
| `RepoSyncLegacy.RemoteFetches` | internal/repo_sync/repo_handler.go:113-122 | one fetch per remote, in the order the remotes are listed |
| `RepoSyncLegacy.FetchAllRemotes` | internal/repo_sync/repo_handler.go:100-124 | failing to open the repository or to list its remotes returns that error and fetches nothing; otherwise every remote is fetched once and the result is nil, whatever each fetch gave |
| `RepoSyncLegacy.UpdateLocalClone` | internal/repo_sync/repo_handler.go:81-98 | the remotes are fetched whatever happens; an empty repository stops there with no error; otherwise the unforced sync runs last and its error is the result |
| `RepoSyncLegacy.HandleRepository` | internal/repo_sync/repo_handler.go:26-56 | the same decision as the current handler, with the same clone, and the older update; a dry run never runs anything |
| `RepoSyncLegacy.UpdateErrorIsSyncError` | internal/repo_sync/repo_handler.go:87-97 | the older update's error is never the fetch's: it is the sync's, an empty repository gets none, and no command carries `--force` |
| `OrgRepoSync.Exit.Status` | main.go:56-106 | the exit status is 0 exactly when the run returns normally, 1 for a usage or batch-size rejection and for a fatal enumeration error, and 2 for a panic |
| `OrgRepoSync.CheckArguments` | main.go:56-78 | fewer than two arguments is a missing organization; `-h`, `-help` or `--help` as the organization is a help request; otherwise the run goes on exactly when 1 ≤ batch size ≤ 100 |
| `OrgRepoSync.Run` | main.go:56-107 | a rejected run makes no request and no handler call, whatever the endpoint; otherwise the requests are the enumeration's; its error is fatal and no handler runs; otherwise there is one handler call per name, in order, with the lower-cased protocol and the run's flags; each call behaves as `HandleRepository` specifies; the run panics exactly when some handler failed, with the first failure wrapped with its repository's name; a dry run runs no command |
| `OrgRepoSync.Defaults` | main.go:39-41 | the default batch size is 50 and is accepted; the default protocol is `system`; `SSH` and `Https` are read as `ssh` and `https` |

## Left out

- Concurrency is not modelled. `main` starts one goroutine per repository under an `errgroup`, and the older `fetchAllRemotes` starts one goroutine per remote under a `WaitGroup`. Here both run one after another in list order. The error of the first failing repository in list order stands for the first error `errgroup` reports in time.
- The `context.Context` of the current handler is not modelled: the handler never reads it.
- Logging and printing are not modelled. This covers the dry-run "new clone" and "update" lines, the stderr echo of `gh`, timing, and the `nbRepos` counter. A dry run is therefore visible only as "no command and no error".
- Flag parsing (`flag.CommandLine.Parse`, which exits with status 2 on a malformed flag) is not modelled. `Run` receives the parsed `Flags`.
- `filepath.Abs` and `filepath.FromSlash` are modelled as a total function `Host.abs`. It is applied exactly where the code calls `safeAbsPath`. Its failure, which happens only when the working directory cannot be read, is not modelled.
- `os.Stat`, process execution (`gh.Exec`, `RunGhCliInDir`, `RunCommandInDir` with `LookPath`) and go-git's `PlainOpen`, `Remotes` and `Fetch` are modelled as inputs of `Host`. Their output buffers are not modelled. The host does not change during a run: a clone does not make a later `stat` report a directory, and two identical commands always share one outcome, so a name listed twice gets two clones that succeed or fail together, where the second of two concurrent clones would fail.
- The GraphQL client options (cache, ten-second timeout) and the transport are not modelled. The endpoint is the function `Api.respond`.
- `GetUser` in `internal/github/user.go` is not part of this model. It makes one REST call and contains no logic.
- `Strings.ToLower`: lower-cases ASCII letters only, where Go's `strings.ToLower` also maps other Unicode letters. Go strings are byte sequences; here they are sequences of characters.
- `GitHub.GetOrganizationRepos`: requires that the later pages end within a ghost bound `n`, because the source's loop would run forever on an endpoint that never returns an empty cursor or an error. `GitHub.LaterPagesBoundIrrelevant` shows that the result does not depend on `n`.
- `OrgRepoSync.Run`: requires the same bound for the organization's query, for runs that pass the argument checks; rejected runs need none.
