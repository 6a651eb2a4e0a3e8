/**
 * The workspaces controller: how the options of the `list` and `get` tools become the
 * service's parameters. Formatting the response is not part of this model.
 */
module WorkspacesController {
  import opened Wrappers
  import opened Strings
  import opened Errors
  import Query
  import Transport
  import WorkspacesService

  const DefaultPageLength := 25

  datatype ListWorkspacesOptions = ListWorkspacesOptions(
    query: Option<string>, sort: Option<string>, limit: Option<int>, cursor: Option<string>)

  /** The service parameters `list` builds: `limit || 25`, the cursor read as a page number, `q` when given. */
  function ServiceParams(options: ListWorkspacesOptions): (p: WorkspacesService.ListWorkspacesParams)
    ensures p.sort.None?
    ensures p.pagelen.Some? && p.pagelen.value.Num?
    ensures Given(options.cursor) <==> p.page.Some?
    ensures p.q.Some? <==> Given(options.query)
  {
    var pagelen := if options.limit.Some? && options.limit.value != 0 then options.limit.value else DefaultPageLength;
    var page :=
      if Given(options.cursor) then
        Some(match ParseInt(options.cursor.value)
          case None => WorkspacesService.NaN
          case Some(n) => WorkspacesService.Num(n))
      else None;
    var q := if Given(options.query) then options.query else None;
    WorkspacesService.ListWorkspacesParams(q, None, page, Some(WorkspacesService.Num(pagelen)))
  }

  /** The query `list` sends, given the tool's options. */
  function ListQueryOf(options: ListWorkspacesOptions): Query.Pairs
  {
    WorkspacesService.ListQuery(ServiceParams(options))
  }

  /** The page length is the limit, or 25 when the limit is absent or 0. */
  lemma PageLength(options: ListWorkspacesOptions)
    ensures Query.GetAll(ListQueryOf(options), "pagelen") ==
      [IntToString(if options.limit.Some? && options.limit.value != 0 then options.limit.value else 25)]
  {
    WorkspacesService.ListQueryParameters(ServiceParams(options));
  }

  /** A cursor that is the text of a page number asks for that page. */
  lemma NumericCursor(options: ListWorkspacesOptions, page: nat)
    requires options.cursor == Some(NatToString(page)) && page != 0
    ensures Query.GetAll(ListQueryOf(options), "page") == [NatToString(page)]
  {
    ParseIntOfNatToString(page);
    WorkspacesService.ListQueryParameters(ServiceParams(options));
  }

  /** A cursor that is not a number reads as `NaN`, which the service drops: the first page is fetched. */
  lemma NonNumericCursor(options: ListWorkspacesOptions)
    requires options.cursor.Some? && ParseInt(options.cursor.value).None?
    ensures Query.GetAll(ListQueryOf(options), "page") == []
  {
    WorkspacesService.ListQueryParameters(ServiceParams(options));
  }

  /** The filter is sent exactly when the query is non-empty, and the sort option never is. */
  lemma FilterOnlyWhenGiven(options: ListWorkspacesOptions)
    ensures Query.GetAll(ListQueryOf(options), "q") == if Given(options.query) then [options.query.value] else []
    ensures !Query.HasName(ListQueryOf(options), "sort")
  {
    WorkspacesService.ListQueryParameters(ServiceParams(options));
  }

  /** `list(options)` up to the service call. */
  method List(config: Transport.Config, options: ListWorkspacesOptions) returns (r: Result<Transport.Call, Error>)
    ensures Transport.GetAtlassianCredentials(config).None? ==> r == Failure(AuthMissing(Some(CredentialsRequired)))
    ensures Transport.GetAtlassianCredentials(config).Some? ==>
      r.Success? && r.value.path == Query.WithQuery(WorkspacesService.ListPath, ListQueryOf(options))
  {
    r := WorkspacesService.List(config, ServiceParams(options));
  }

  datatype WorkspaceIdentifier = WorkspaceIdentifier(workspaceSlug: string)

  /** `get(identifier)` asks the service for exactly the identifier's slug. */
  function Get(config: Transport.Config, identifier: WorkspaceIdentifier): (r: Result<Transport.Call, Error>)
    ensures Transport.GetAtlassianCredentials(config).None? <==> r.Failure?
    ensures r.Success? ==> r.value.path == "/2.0/workspaces/" + identifier.workspaceSlug
  {
    WorkspacesService.Get(config, identifier.workspaceSlug)
  }
}
