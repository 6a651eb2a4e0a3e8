/**
 * The workspaces service: the requests it sends to list the workspaces the user can see
 * and to fetch one workspace.
 */
module WorkspacesService {
  import opened Wrappers
  import opened Strings
  import opened Errors
  import Query
  import Transport

  /** A JavaScript number as the service receives it: an integer, or `NaN` from a failed `parseInt`. */
  datatype JsNumber = Num(n: int) | NaN

  /** Truthiness of an optional number: present, not `NaN` and not zero. */
  predicate NumGiven(o: Option<JsNumber>)
  {
    o.Some? && o.value.Num? && o.value.n != 0
  }

  /** `n.toString()` for an integer. */
  function NumString(x: JsNumber): string
    requires x.Num?
  {
    IntToString(x.n)
  }

  datatype ListWorkspacesParams = ListWorkspacesParams(
    q: Option<string>, sort: Option<string>, page: Option<JsNumber>, pagelen: Option<JsNumber>)

  const ListPath := "/2.0/user/permissions/workspaces"

  /** A number parameter as text, `None` when it is falsy. */
  function NumText(o: Option<JsNumber>): (r: Option<string>)
    ensures Given(r) <==> NumGiven(o)
  {
    if NumGiven(o) then Some(NumString(o.value)) else None
  }

  /** The parameters `list` sets, in order: `q`, `pagelen`, `page`. */
  function ListEntries(params: ListWorkspacesParams): (es: Query.Entries)
    ensures Query.DistinctNames(es)
  {
    var es := [("q", params.q), ("pagelen", NumText(params.pagelen)), ("page", NumText(params.page))];
    assert "pagelen" != "page" by {
      assert |"pagelen"| != |"page"|;
    }
    es
  }

  function ListQuery(params: ListWorkspacesParams): Query.Pairs
  {
    Query.Present(ListEntries(params))
  }

  /** Each parameter is sent once when it is truthy and not at all otherwise; `sort` is never sent. */
  lemma ListQueryParameters(params: ListWorkspacesParams)
    ensures Query.GetAll(ListQuery(params), "q") == if Given(params.q) then [params.q.value] else []
    ensures Query.GetAll(ListQuery(params), "pagelen") ==
      if NumGiven(params.pagelen) then [NumString(params.pagelen.value)] else []
    ensures Query.GetAll(ListQuery(params), "page") ==
      if NumGiven(params.page) then [NumString(params.page.value)] else []
    ensures !Query.HasName(ListQuery(params), "sort")
    ensures ListQuery(params) == [] <==>
      !Given(params.q) && !NumGiven(params.pagelen) && !NumGiven(params.page)
  {
    var es := ListEntries(params);
    Query.PresentGetAll(es, 0);
    Query.PresentGetAll(es, 1);
    Query.PresentGetAll(es, 2);
    assert "sort" != "q" && "sort" != "pagelen" && "sort" != "page" by {
      assert "sort"[0] != "q"[0] && "sort"[0] != "pagelen"[0];
    }
    Query.PresentOnlyNames(es, "sort");
    Query.PresentEmpty(es);
  }

  /** `list(params)`: the credentials check, then the query built with `set`, then the call. */
  method List(config: Transport.Config, params: ListWorkspacesParams) returns (r: Result<Transport.Call, Error>)
    ensures Transport.GetAtlassianCredentials(config).None? ==> r == Failure(AuthMissing(Some(CredentialsRequired)))
    ensures Transport.GetAtlassianCredentials(config).Some? ==>
      r == Success(Transport.Call(Transport.GetAtlassianCredentials(config).value,
        Query.WithQuery(ListPath, ListQuery(params)), Transport.NoOptions))
  {
    var credentials := Transport.GetAtlassianCredentials(config);
    if credentials.None? {
      return Failure(AuthMissing(Some(CredentialsRequired)));
    }
    var queryParams := BuildListQuery(params);
    var qs := queryParams.ToString();
    var queryString := if qs != "" then "?" + qs else "";
    var path := ListPath + queryString;
    assert path == Query.WithQuery(ListPath, ListQuery(params)) by {
      Query.SerializeEmptyIff(ListQuery(params));
    }
    return Success(Transport.Call(credentials.value, path, Transport.NoOptions));
  }

  /** The `set` calls of `list`, on a fresh `URLSearchParams`. */
  method BuildListQuery(params: ListWorkspacesParams) returns (queryParams: Query.SearchParams)
    ensures fresh(queryParams)
    ensures queryParams.pairs == ListQuery(params)
  {
    var es := ListEntries(params);
    queryParams := new Query.SearchParams();
    assert es[..0] == [];
    Query.SetIfGiven(queryParams, [], es, 0);
    Query.SetIfGiven(queryParams, [], es, 1);
    Query.SetIfGiven(queryParams, [], es, 2);
    assert es[..3] == es;
  }

  /** `get(workspace)`: the credentials check, then `/2.0/workspaces/{workspace}`. */
  function Get(config: Transport.Config, workspace: string): (r: Result<Transport.Call, Error>)
    ensures Transport.GetAtlassianCredentials(config).None? <==> r == Failure(AuthMissing(Some(CredentialsRequired)))
    ensures r.Success? ==> r.value.path == "/2.0/workspaces/" + workspace && r.value.options == Transport.NoOptions
  {
    match Transport.GetAtlassianCredentials(config)
    case None => Failure(AuthMissing(Some(CredentialsRequired)))
    case Some(credentials) => Success(Transport.Call(credentials, "/2.0/workspaces/" + workspace, Transport.NoOptions))
  }
}
