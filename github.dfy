/** The repository enumerator of internal/github/repo.go: it builds a search
    query for an organization and walks the cursor-paginated answers of the
    GraphQL search endpoint, concatenating the repository names of every page. */
module GitHub {
  import opened Common
  import opened Strings

  /** The descriptor the handlers receive for one repository. */
  datatype RepositoryInfo = RepositoryInfo(name: string, isEmpty: bool)

  // ---------------------------------------------------------------------------
  // The search query

  /** The organization qualifier `org:"<organization>"`. */
  function OrgQualifier(organization: string): string
  {
    "org:\"" + organization + "\""
  }

  const ForkQualifier: string := "fork:"

  /** Appended to include forks, unless the caller's filter says otherwise. */
  const IncludeForks: string := " fork:true"

  /** The query sent to the endpoint for `organization` and the caller's
      `filter`: the organization qualifier goes in front unless the filter already
      has it, and forks are included unless the filter says something about them. */
  function SearchQuery(organization: string, filter: string): string
  {
    var org := OrgQualifier(organization);
    var base :=
      if Contains(filter, org) then filter
      else if filter != "" then org + " " + filter
      else org;
    if !Contains(filter, ForkQualifier) then base + IncludeForks else base
  }

  /** Whatever the filter, the query names the organization, says something
      about forks, and keeps the filter itself verbatim. */
  lemma SearchQueryQualifiers(organization: string, filter: string)
    ensures var query := SearchQuery(organization, filter);
      && Contains(query, OrgQualifier(organization))
      && Contains(query, ForkQualifier)
      && Contains(query, filter)
  {
    var org := OrgQualifier(organization);
    var base :=
      if Contains(filter, org) then filter
      else if filter != "" then org + " " + filter
      else org;
    var query := SearchQuery(organization, filter);
    // the base query has all three, except the fork qualifier when the filter lacks it
    ContainsItself(org);
    ContainsItself(filter);
    if !Contains(filter, org) && filter != "" {
      assert base == org + (" " + filter);
      ContainsBefore(org, " " + filter, org);
      assert base == (org + " ") + filter;
      ContainsAfter(org + " ", filter, filter);
      if Contains(filter, ForkQualifier) {
        ContainsAfter(org + " ", filter, ForkQualifier);
      }
    } else if !Contains(filter, org) {
      assert StartsWith(base, filter);
    }
    // the suffix, when there is one, keeps them and brings the fork qualifier
    if query != base {
      ContainsBefore(base, IncludeForks, org);
      ContainsBefore(base, IncludeForks, filter);
      assert IncludeForks[1..][..|ForkQualifier|] == ForkQualifier;
      assert Contains(IncludeForks, ForkQualifier);
      ContainsAfter(base, IncludeForks, ForkQualifier);
    }
  }

  /** The four shapes the query takes, by what the filter already contains. */
  lemma SearchQueryCases(organization: string, filter: string)
    ensures var org := OrgQualifier(organization);
      var query := SearchQuery(organization, filter);
      && (Contains(filter, org) && Contains(filter, ForkQualifier) ==> query == filter)
      && (Contains(filter, org) && !Contains(filter, ForkQualifier) ==> query == filter + " fork:true")
      && (!Contains(filter, org) && filter == "" ==> query == org + " fork:true")
      && (!Contains(filter, org) && filter != "" && Contains(filter, ForkQualifier) ==> query == org + " " + filter)
      && (!Contains(filter, org) && filter != "" && !Contains(filter, ForkQualifier)
          ==> query == org + " " + filter + " fork:true")
  {
  }

  /** Organization `acme` with no filter. */
  lemma SearchQueryWithoutFilter()
    ensures SearchQuery("acme", "") == "org:\"acme\" fork:true"
  {
  }

  // ---------------------------------------------------------------------------
  // The GraphQL endpoint, seen as a function from requests to responses

  /** `search(type: REPOSITORY, query: …, first: …[, after: …])`. */
  datatype Request =
    | FirstPage(query: string, first: int)
    | PageAfter(query: string, first: int, after: string)

  /** The selection `... on Repository { name }` of one search edge. */
  datatype RepositoryFragment = RepositoryFragment(name: string)

  datatype Response =
    | Failed(error: Error)
    | Page(repos: seq<RepositoryFragment>, repositoryCount: int, endCursor: string)

  /** The GraphQL client: whether it can be created, and what it answers. */
  datatype Api = Api(clientError: Option<Error>, respond: Request -> Response)

  function Names(repos: seq<RepositoryFragment>): seq<string>
  {
    seq(|repos|, i requires 0 <= i < |repos| => repos[i].name)
  }

  /** The names, the repository count and the end cursor a fetch hands back;
      a failed request hands back no names, a count of 0 and an empty cursor. */
  function NamesOf(r: Response): seq<string>
  {
    match r
    case Failed(_) => []
    case Page(repos, _, _) => Names(repos)
  }

  function CountOf(r: Response): int
  {
    match r
    case Failed(_) => 0
    case Page(_, count, _) => count
  }

  function CursorOf(r: Response): string
  {
    match r
    case Failed(_) => ""
    case Page(_, _, cursor) => cursor
  }

  /** The names of the responses to `requests`, concatenated in request order. */
  function Collected(respond: Request -> Response, requests: seq<Request>): seq<string>
    decreases |requests|
  {
    if requests == [] then [] else NamesOf(respond(requests[0])) + Collected(respond, requests[1..])
  }

  /** Copies the name of every edge, in order. */
  method ProjectNames(repos: seq<RepositoryFragment>) returns (names: seq<string>)
    ensures |names| == |repos|
    ensures forall i :: 0 <= i < |repos| ==> names[i] == repos[i].name
  {
    names := [];
    for k := 0 to |repos|
      invariant |names| == k
      invariant forall i :: 0 <= i < k ==> names[i] == repos[i].name
    {
      names := names + [repos[k].name];
    }
  }

  /** Appends `items` one by one at the end of `acc`. */
  method AppendAll(acc: seq<string>, items: seq<string>) returns (r: seq<string>)
    ensures r == acc + items
  {
    r := acc;
    for k := 0 to |items|
      invariant r == acc + items[..k]
    {
      r := r + [items[k]];
      assert items[..k + 1] == items[..k] + [items[k]];
    }
    assert items[..|items|] == items;
  }

  /** The first request: names, count and end cursor of the first page, or the error. */
  method GetOrganizationRepositories(api: Api, query: string, batchSize: int)
    returns (names: seq<string>, repositoryCount: int, endCursor: string, err: Option<Error>)
    ensures var response := api.respond(FirstPage(query, batchSize));
      && names == NamesOf(response)
      && repositoryCount == CountOf(response)
      && endCursor == CursorOf(response)
      && (err.Some? <==> response.Failed?)
      && (response.Failed? ==> err == Some(response.error))
  {
    match api.respond(FirstPage(query, batchSize))
    case Failed(e) =>
      return [], 0, "", Some(e);
    case Page(repos, count, cursor) =>
      names := ProjectNames(repos);
      return names, count, cursor, None;
  }

  /** A later request, resuming after cursor `after`. */
  method GetOrganizationRepositoriesAfter(api: Api, query: string, batchSize: int, after: string)
    returns (names: seq<string>, endCursor: string, err: Option<Error>)
    ensures var response := api.respond(PageAfter(query, batchSize, after));
      && names == NamesOf(response)
      && endCursor == CursorOf(response)
      && (err.Some? <==> response.Failed?)
      && (response.Failed? ==> err == Some(response.error))
  {
    match api.respond(PageAfter(query, batchSize, after))
    case Failed(e) =>
      return [], "", Some(e);
    case Page(repos, _, cursor) =>
      names := ProjectNames(repos);
      return names, cursor, None;
  }

  // ---------------------------------------------------------------------------
  // The pagination, as a specification

  /** What an enumeration yields: the names or an error, and the requests it made. */
  datatype Listing = Listing(result: Result<seq<string>>, requests: seq<Request>)

  /** `names` and `requests` come before `rest`. */
  function Join(names: seq<string>, requests: seq<Request>, rest: Listing): Listing
  {
    Listing(
      match rest.result
      case Ok(more) => Ok(names + more)
      case Err(e) => Err(e),
      requests + rest.requests)
  }

  lemma JoinJoin(a: seq<string>, r: seq<Request>, b: seq<string>, s: seq<Request>, rest: Listing)
    ensures Join(a, r, Join(b, s, rest)) == Join(a + b, r + s, rest)
  {
    assert (r + s) + rest.requests == r + (s + rest.requests);
    if rest.result.Ok? {
      assert (a + b) + rest.result.value == a + (b + rest.result.value);
    }
  }

  /** Starting after `after`, the endpoint answers with an empty cursor or a
      failure within `n` later requests. The source's loop has no bound: this is
      what makes it stop. */
  predicate ChainEnds(respond: Request -> Response, query: string, batchSize: int, after: string, n: nat)
    decreases n
  {
    n > 0 &&
    match respond(PageAfter(query, batchSize, after))
    case Failed(_) => true
    case Page(_, _, cursor) => cursor == "" || ChainEnds(respond, query, batchSize, cursor, n - 1)
  }

  /** The later pages, requested one after another, each with the end cursor of
      the one before, until a page comes back with an empty cursor. */
  function LaterPages(respond: Request -> Response, query: string, batchSize: int, after: string, n: nat): Listing
    requires ChainEnds(respond, query, batchSize, after, n)
    decreases n
  {
    var request := PageAfter(query, batchSize, after);
    match respond(request)
    case Failed(e) => Listing(Err(e), [request])
    case Page(repos, _, cursor) =>
      if cursor == "" then Listing(Ok(Names(repos)), [request])
      else Join(Names(repos), [request], LaterPages(respond, query, batchSize, cursor, n - 1))
  }

  /** The enumeration of `query` stops within `n` later requests, if it makes any. */
  predicate Paginates(api: Api, query: string, batchSize: int, n: nat)
  {
    var first := api.respond(FirstPage(query, batchSize));
    api.clientError.None? && CountOf(first) > batchSize ==> ChainEnds(api.respond, query, batchSize, CursorOf(first), n)
  }

  /** The enumeration of an organization: no request when the client cannot be
      created; the first page; and the later pages only if the first page
      reports more repositories than one batch holds. The first page's error is
      not looked at: a failed first page counts as a page with no names, a count
      of 0 and an empty cursor. */
  function Enumeration(api: Api, organization: string, filter: string, batchSize: int, n: nat): Listing
    requires Paginates(api, SearchQuery(organization, filter), batchSize, n)
  {
    var query := SearchQuery(organization, filter);
    if api.clientError.Some? then Listing(Err(api.clientError.value), [])
    else
      var first := FirstPage(query, batchSize);
      var response := api.respond(first);
      if CountOf(response) > batchSize
      then Join(NamesOf(response), [first], LaterPages(api.respond, query, batchSize, CursorOf(response), n))
      else Listing(Ok(NamesOf(response)), [first])
  }

  /** The later pages: each request resumes at the end cursor of the page before
      it; every page but the last came back with a non-empty cursor; the last one
      failed or had an empty cursor. The result is an error exactly when that last
      request failed, and otherwise the names of all pages in request order. */
  lemma {:induction false} LaterPagesFacts(respond: Request -> Response, query: string, batchSize: int, after: string, n: nat)
    requires ChainEnds(respond, query, batchSize, after, n)
    ensures var l := LaterPages(respond, query, batchSize, after, n);
      var last := |l.requests| - 1;
      && |l.requests| >= 1
      && l.requests[0] == PageAfter(query, batchSize, after)
      && (forall i :: 0 <= i < last ==>
            && respond(l.requests[i]).Page?
            && CursorOf(respond(l.requests[i])) != ""
            && l.requests[i + 1] == PageAfter(query, batchSize, CursorOf(respond(l.requests[i]))))
      && (respond(l.requests[last]).Failed? || CursorOf(respond(l.requests[last])) == "")
      && (l.result.Err? <==> respond(l.requests[last]).Failed?)
      && (l.result.Err? ==> l.result.error == respond(l.requests[last]).error)
      && (l.result.Ok? ==> l.result.value == Collected(respond, l.requests))
    decreases n
  {
    var request := PageAfter(query, batchSize, after);
    var l := LaterPages(respond, query, batchSize, after, n);
    match respond(request)
    case Failed(_) =>
    case Page(repos, _, cursor) =>
      if cursor == "" {
        assert Collected(respond, l.requests[1..]) == [];
      } else {
        var rest := LaterPages(respond, query, batchSize, cursor, n - 1);
        LaterPagesFacts(respond, query, batchSize, cursor, n - 1);
        assert l.requests == [request] + rest.requests;
        assert l.requests[1..] == rest.requests;
        forall i | 1 <= i < |l.requests| - 1
          ensures l.requests[i + 1] == PageAfter(query, batchSize, CursorOf(respond(l.requests[i])))
        {
          assert l.requests[i] == rest.requests[i - 1];
        }
      }
  }

  /** How many later requests a run makes depends on the endpoint's answers, not
      on the bound that guarantees it stops. */
  lemma {:induction false} LaterPagesBoundIrrelevant(respond: Request -> Response, query: string, batchSize: int,
                                                     after: string, n: nat, m: nat)
    requires ChainEnds(respond, query, batchSize, after, n)
    requires ChainEnds(respond, query, batchSize, after, m)
    ensures LaterPages(respond, query, batchSize, after, n) == LaterPages(respond, query, batchSize, after, m)
    decreases n
  {
    match respond(PageAfter(query, batchSize, after))
    case Failed(_) =>
    case Page(_, _, cursor) =>
      if cursor != "" {
        LaterPagesBoundIrrelevant(respond, query, batchSize, cursor, n - 1, m - 1);
      }
  }

  /** The requests of an enumeration: none when the client cannot be created;
      otherwise the first page, then later pages only when the first page reports
      more repositories than one batch, each resuming at the previous end cursor,
      stopping after the first later page whose cursor is empty (or that failed). */
  lemma EnumerationRequests(api: Api, organization: string, filter: string, batchSize: int, n: nat)
    requires Paginates(api, SearchQuery(organization, filter), batchSize, n)
    ensures var query := SearchQuery(organization, filter);
      var l := Enumeration(api, organization, filter, batchSize, n);
      var last := |l.requests| - 1;
      && (api.clientError.Some? ==> l.requests == [])
      && (api.clientError.None? ==>
            && |l.requests| >= 1
            && l.requests[0] == FirstPage(query, batchSize)
            && (last == 0 <==> CountOf(api.respond(l.requests[0])) <= batchSize)
            && (forall i :: 0 <= i < last ==>
                  l.requests[i + 1] == PageAfter(query, batchSize, CursorOf(api.respond(l.requests[i]))))
            && (forall i :: 1 <= i < last ==> CursorOf(api.respond(l.requests[i])) != "")
            && (last > 0 ==> api.respond(l.requests[last]).Failed? || CursorOf(api.respond(l.requests[last])) == ""))
  {
    var query := SearchQuery(organization, filter);
    var first := api.respond(FirstPage(query, batchSize));
    if api.clientError.None? && CountOf(first) > batchSize {
      var rest := LaterPages(api.respond, query, batchSize, CursorOf(first), n);
      LaterPagesFacts(api.respond, query, batchSize, CursorOf(first), n);
      var l := Enumeration(api, organization, filter, batchSize, n);
      assert l.requests == [FirstPage(query, batchSize)] + rest.requests;
      forall i | 1 <= i < |l.requests| - 1
        ensures l.requests[i + 1] == PageAfter(query, batchSize, CursorOf(api.respond(l.requests[i])))
        ensures CursorOf(api.respond(l.requests[i])) != ""
      {
        assert l.requests[i] == rest.requests[i - 1];
      }
    }
  }

  /** The outcome of an enumeration: the names of every page fetched, in order,
      with nothing dropped or merged; an error when the client cannot be created
      or a later page fails, in which case no name survives. A failed first page
      is not an error: with a batch size of at least 0 it yields an empty list. */
  lemma EnumerationResult(api: Api, organization: string, filter: string, batchSize: int, n: nat)
    requires Paginates(api, SearchQuery(organization, filter), batchSize, n)
    ensures var query := SearchQuery(organization, filter);
      var l := Enumeration(api, organization, filter, batchSize, n);
      var last := |l.requests| - 1;
      && (l.result.Ok? ==> l.result.value == Collected(api.respond, l.requests))
      && (api.clientError.Some? ==> l.result == Err(api.clientError.value))
      && (api.clientError.None? ==>
            && (l.result.Err? <==> last > 0 && api.respond(l.requests[last]).Failed?)
            && (l.result.Err? ==> l.result.error == api.respond(l.requests[last]).error))
      && (api.clientError.None? && api.respond(FirstPage(query, batchSize)).Failed? && batchSize >= 0
          ==> l == Listing(Ok([]), [FirstPage(query, batchSize)]))
  {
    var query := SearchQuery(organization, filter);
    var first := api.respond(FirstPage(query, batchSize));
    var l := Enumeration(api, organization, filter, batchSize, n);
    if api.clientError.None? {
      if CountOf(first) > batchSize {
        var rest := LaterPages(api.respond, query, batchSize, CursorOf(first), n);
        LaterPagesFacts(api.respond, query, batchSize, CursorOf(first), n);
        assert l.requests == [FirstPage(query, batchSize)] + rest.requests;
        assert l.requests[1..] == rest.requests;
        assert l.requests[|l.requests| - 1] == rest.requests[|rest.requests| - 1];
      } else {
        assert Collected(api.respond, l.requests[1..]) == [];
      }
    }
  }

  /** `count` repository fragments of one page. */
  function Fragments(count: nat): seq<RepositoryFragment>
  {
    seq(count, i => RepositoryFragment("repo"))
  }

  /** An endpoint that holds 120 repositories and serves them in pages of 50,
      50 and 20, linked by the cursors `c1` and `c2`. */
  function HundredTwenty(request: Request): Response
  {
    match request
    case FirstPage(_, _) => Page(Fragments(50), 120, "c1")
    case PageAfter(_, _, after) =>
      if after == "c1" then Page(Fragments(50), 120, "c2")
      else if after == "c2" then Page(Fragments(20), 120, "")
      else Failed(GraphQL("unknown cursor"))
  }

  /** 120 repositories in batches of 50: three requests, the later two resuming
      at `c1` and then `c2`, and 120 names. */
  lemma HundredTwentyInBatchesOfFifty(organization: string, filter: string)
    ensures var api := Api(None, HundredTwenty);
      var query := SearchQuery(organization, filter);
      && Paginates(api, query, 50, 2)
      && Enumeration(api, organization, filter, 50, 2).requests
         == [FirstPage(query, 50), PageAfter(query, 50, "c1"), PageAfter(query, 50, "c2")]
      && Enumeration(api, organization, filter, 50, 2).result.Ok?
      && |Enumeration(api, organization, filter, 50, 2).result.value| == 120
  {
    var api := Api(None, HundredTwenty);
    var query := SearchQuery(organization, filter);
    assert "c2" != "c1";
    assert ChainEnds(HundredTwenty, query, 50, "c2", 1);
    assert ChainEnds(HundredTwenty, query, 50, "c1", 2);
    var last := LaterPages(HundredTwenty, query, 50, "c2", 1);
    assert last == Listing(Ok(Names(Fragments(20))), [PageAfter(query, 50, "c2")]);
    var later := LaterPages(HundredTwenty, query, 50, "c1", 2);
    assert later == Join(Names(Fragments(50)), [PageAfter(query, 50, "c1")], last);
  }

  // ---------------------------------------------------------------------------
  // The pagination, as the source performs it

  /** GetOrganizationRepos: builds the query, fetches the first page, then the
      later pages while the end cursor is not empty, appending names in place. */
  method GetOrganizationRepos(organization: string, filter: string, batchSize: int, api: Api, ghost n: nat)
    returns (repositories: Result<seq<string>>, requests: seq<Request>)
    requires Paginates(api, SearchQuery(organization, filter), batchSize, n)
    ensures Listing(repositories, requests) == Enumeration(api, organization, filter, batchSize, n)
  {
    var query := SearchQuery(organization, filter);
    if api.clientError.Some? {
      return Err(api.clientError.value), [];
    }
    var orgRepositories: seq<string> := [];
    requests := [FirstPage(query, batchSize)];
    var names, repositoryCount, endCursor, _ := GetOrganizationRepositories(api, query, batchSize);
    orgRepositories := AppendAll(orgRepositories, names);
    var after := endCursor;
    ghost var first := api.respond(FirstPage(query, batchSize));
    assert orgRepositories == NamesOf(first);
    if repositoryCount > batchSize {
      assert Enumeration(api, organization, filter, batchSize, n)
          == Join(NamesOf(first), requests, LaterPages(api.respond, query, batchSize, after, n));
      ghost var k := n;
      while true
        invariant ChainEnds(api.respond, query, batchSize, after, k)
        invariant Join(orgRepositories, requests, LaterPages(api.respond, query, batchSize, after, k))
               == Enumeration(api, organization, filter, batchSize, n)
        decreases k
      {
        var request := PageAfter(query, batchSize, after);
        ghost var done, asked := orgRepositories, requests;
        requests := requests + [request];
        var pageNames, pageCursor, err := GetOrganizationRepositoriesAfter(api, query, batchSize, after);
        if err.Some? {
          return Err(err.value), requests;
        }
        orgRepositories := AppendAll(orgRepositories, pageNames);
        if pageCursor == "" {
          break;
        }
        JoinJoin(done, asked, pageNames, [request], LaterPages(api.respond, query, batchSize, pageCursor, k - 1));
        after := pageCursor;
        k := k - 1;
      }
    }
    return Ok(orgRepositories), requests;
  }
}
