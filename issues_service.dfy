/**
 * The issues service: the requests it sends to list, read, create, update and delete
 * repository issues and to list and add issue comments. Every operation validates its
 * identifiers first, then requires credentials, then builds its path, query and body.
 */
module IssuesService {
  import opened Wrappers
  import opened Strings
  import opened Json
  import opened Errors
  import Query
  import Transport

  const RepoRequired := "Both workspace and repo_slug parameters are required"
  const IssueRequired := "workspace, repo_slug, and issue_id parameters are required"
  const TitleRequired := "workspace, repo_slug, and title parameters are required"
  const CommentRequired := "workspace, repo_slug, issue_id, and content parameters are required"

  /** `/2.0/repositories/{workspace}/{repo_slug}/issues`. */
  function IssuesPath(workspace: string, repoSlug: string): string
  {
    "/2.0/repositories/" + workspace + "/" + repoSlug + "/issues"
  }

  /** `/2.0/repositories/{workspace}/{repo_slug}/issues/{issue_id}`. */
  function IssuePath(workspace: string, repoSlug: string, issueId: int): (r: string)
    ensures StartsWith(r, IssuesPath(workspace, repoSlug) + "/")
  {
    IssuesPath(workspace, repoSlug) + "/" + IntToString(issueId)
  }

  /** `{ raw: text, markup: 'markdown' }`, the shape of issue and comment content. */
  function Markdown(text: string): Json
  {
    JObj([("raw", JStr(text)), ("markup", JStr("markdown"))])
  }

  // ---------------------------------------------------------------- list

  datatype ListIssuesParams = ListIssuesParams(
    workspace: string, repoSlug: string,
    status: Option<string>, kind: Option<string>, priority: Option<string>,
    q: Option<string>, sort: Option<string>, page: Option<int>, pagelen: Option<int>)

  /** The parameters `list` sets, in order. */
  function ListEntries(p: ListIssuesParams): (es: Query.Entries)
    ensures Query.DistinctNames(es)
  {
    var es := [("status", p.status), ("kind", p.kind), ("priority", p.priority), ("q", p.q),
      ("sort", p.sort), ("pagelen", Query.IntText(p.pagelen)), ("page", Query.IntText(p.page))];
    assert "kind" != "sort" && "kind" != "page" && "sort" != "page" && "pagelen" != "page" by {
      assert "kind"[0] != "sort"[0] && "kind"[0] != "page"[0] && "sort"[0] != "page"[0];
      assert |"pagelen"| != |"page"|;
    }
    es
  }

  function ListQuery(p: ListIssuesParams): Query.Pairs
  {
    Query.Present(ListEntries(p))
  }

  /** Each filter is sent once when it is truthy and left out otherwise. */
  lemma ListQueryParameters(p: ListIssuesParams)
    ensures Query.GetAll(ListQuery(p), "status") == if Given(p.status) then [p.status.value] else []
    ensures Query.GetAll(ListQuery(p), "kind") == if Given(p.kind) then [p.kind.value] else []
    ensures Query.GetAll(ListQuery(p), "priority") == if Given(p.priority) then [p.priority.value] else []
    ensures Query.GetAll(ListQuery(p), "q") == if Given(p.q) then [p.q.value] else []
    ensures Query.GetAll(ListQuery(p), "sort") == if Given(p.sort) then [p.sort.value] else []
    ensures Query.GetAll(ListQuery(p), "pagelen") == if p.pagelen.Some? && p.pagelen.value != 0 then [IntToString(p.pagelen.value)] else []
    ensures Query.GetAll(ListQuery(p), "page") == if p.page.Some? && p.page.value != 0 then [IntToString(p.page.value)] else []
  {
    var es := ListEntries(p);
    Query.PresentGetAll(es, 0);
    Query.PresentGetAll(es, 1);
    Query.PresentGetAll(es, 2);
    Query.PresentGetAll(es, 3);
    Query.PresentGetAll(es, 4);
    Query.PresentGetAll(es, 5);
    Query.PresentGetAll(es, 6);
  }

  /** The `set` calls of `list`, on a fresh `URLSearchParams`. */
  method BuildListQuery(p: ListIssuesParams) returns (queryParams: Query.SearchParams)
    ensures fresh(queryParams)
    ensures queryParams.pairs == ListQuery(p)
  {
    var es := ListEntries(p);
    queryParams := new Query.SearchParams();
    assert es[..0] == [];
    Query.SetIfGiven(queryParams, [], es, 0);
    Query.SetIfGiven(queryParams, [], es, 1);
    Query.SetIfGiven(queryParams, [], es, 2);
    Query.SetIfGiven(queryParams, [], es, 3);
    Query.SetIfGiven(queryParams, [], es, 4);
    Query.SetIfGiven(queryParams, [], es, 5);
    Query.SetIfGiven(queryParams, [], es, 6);
    assert es[..7] == es;
  }

  /** `list(params)`. */
  method List(config: Transport.Config, p: ListIssuesParams) returns (r: Result<Transport.Call, Error>)
    ensures p.workspace == "" || p.repoSlug == "" ==> r == Failure(PlainError(RepoRequired))
    ensures p.workspace != "" && p.repoSlug != "" && Transport.GetAtlassianCredentials(config).None? ==>
      r == Failure(AuthMissing(Some(CredentialsRequired)))
    ensures p.workspace != "" && p.repoSlug != "" && Transport.GetAtlassianCredentials(config).Some? ==>
      r == Success(Transport.Call(Transport.GetAtlassianCredentials(config).value,
        Query.WithQuery(IssuesPath(p.workspace, p.repoSlug), ListQuery(p)), Transport.NoOptions))
  {
    if p.workspace == "" || p.repoSlug == "" {
      return Failure(PlainError(RepoRequired));
    }
    var credentials := Transport.GetAtlassianCredentials(config);
    if credentials.None? {
      return Failure(AuthMissing(Some(CredentialsRequired)));
    }
    var queryParams := BuildListQuery(p);
    var qs := queryParams.ToString();
    var queryString := if qs != "" then "?" + qs else "";
    var path := IssuesPath(p.workspace, p.repoSlug) + queryString;
    assert path == Query.WithQuery(IssuesPath(p.workspace, p.repoSlug), ListQuery(p)) by {
      Query.SerializeEmptyIff(ListQuery(p));
    }
    return Success(Transport.Call(credentials.value, path, Transport.NoOptions));
  }

  // ---------------------------------------------------------------- one issue

  datatype IssueRef = IssueRef(workspace: string, repoSlug: string, issueId: int)

  predicate ValidRef(ref: IssueRef)
  {
    ref.workspace != "" && ref.repoSlug != "" && ref.issueId != 0
  }

  /** The call on one issue's path, after the identifier and credential checks shared by `get` and `remove`. */
  function IssueCall(config: Transport.Config, ref: IssueRef, options: Transport.RequestOptions): (r: Result<Transport.Call, Error>)
    ensures !ValidRef(ref) <==> r == Failure(PlainError(IssueRequired))
    ensures ValidRef(ref) && Transport.GetAtlassianCredentials(config).None? <==> r == Failure(AuthMissing(Some(CredentialsRequired)))
    ensures r.Success? ==> r.value.path == IssuePath(ref.workspace, ref.repoSlug, ref.issueId) && r.value.options == options
  {
    if !ValidRef(ref) then Failure(PlainError(IssueRequired))
    else match Transport.GetAtlassianCredentials(config)
      case None => Failure(AuthMissing(Some(CredentialsRequired)))
      case Some(credentials) => Success(Transport.Call(credentials, IssuePath(ref.workspace, ref.repoSlug, ref.issueId), options))
  }

  /** `get(params)`: a GET of the issue's path; an issue id of 0 is rejected like a missing one. */
  function Get(config: Transport.Config, ref: IssueRef): (r: Result<Transport.Call, Error>)
    ensures ref.issueId == 0 ==> r == Failure(PlainError(IssueRequired))
    ensures r.Success? ==> r.value.options.verb.None? && r.value.options.body.None?
  {
    IssueCall(config, ref, Transport.NoOptions)
  }

  /** `remove(params)`: a DELETE of the issue's path, with no body. */
  function Remove(config: Transport.Config, ref: IssueRef): (r: Result<Transport.Call, Error>)
    ensures ref.issueId == 0 ==> r == Failure(PlainError(IssueRequired))
    ensures r.Success? ==> r.value.options.verb == Some(Transport.DELETE) && r.value.options.body.None?
  {
    IssueCall(config, ref, Transport.RequestOptions(Some(Transport.DELETE), None, None))
  }

  // ---------------------------------------------------------------- create

  datatype CreateIssueParams = CreateIssueParams(
    workspace: string, repoSlug: string, title: string,
    content: Option<string>, kind: Option<string>, priority: Option<string>)

  /** The body `create` builds: `title`, then `content`, `kind` and `priority` when truthy. */
  function CreateEntries(p: CreateIssueParams): (es: FieldEntries)
    ensures DistinctKeys(es)
  {
    [("title", Some(JStr(p.title))),
     ("content", if Given(p.content) then Some(Markdown(p.content.value)) else None),
     ("kind", if Given(p.kind) then Some(JStr(p.kind.value)) else None),
     ("priority", if Given(p.priority) then Some(JStr(p.priority.value)) else None)]
  }

  /** The create body always names the title and carries each optional field exactly when it is truthy. */
  lemma CreateBodyFields(p: CreateIssueParams)
    ensures var fs := Fields(CreateEntries(p));
      && LastField(fs, "title") == Value(JStr(p.title))
      && LastField(fs, "content") == (if Given(p.content) then Value(Markdown(p.content.value)) else Undefined)
      && LastField(fs, "kind") == (if Given(p.kind) then Value(JStr(p.kind.value)) else Undefined)
      && LastField(fs, "priority") == (if Given(p.priority) then Value(JStr(p.priority.value)) else Undefined)
  {
    var es := CreateEntries(p);
    FieldsMember(es, 0);
    FieldsMember(es, 1);
    FieldsMember(es, 2);
    FieldsMember(es, 3);
  }

  /** The body object of `create`, filled field by field. */
  method BuildCreateBody(p: CreateIssueParams) returns (body: seq<(string, Json)>)
    ensures body == Fields(CreateEntries(p))
  {
    var es := CreateEntries(p);
    assert es[..0] == [];
    body := [];
    body := AssignIfPresent(body, es, 0);
    body := AssignIfPresent(body, es, 1);
    body := AssignIfPresent(body, es, 2);
    body := AssignIfPresent(body, es, 3);
    assert es[..4] == es;
  }

  /** `create(params)`: a POST of the built body to the issues path. */
  method Create(config: Transport.Config, p: CreateIssueParams) returns (r: Result<Transport.Call, Error>)
    ensures p.workspace == "" || p.repoSlug == "" || p.title == "" ==> r == Failure(PlainError(TitleRequired))
    ensures p.workspace != "" && p.repoSlug != "" && p.title != "" && Transport.GetAtlassianCredentials(config).None? ==>
      r == Failure(AuthMissing(Some(CredentialsRequired)))
    ensures p.workspace != "" && p.repoSlug != "" && p.title != "" && Transport.GetAtlassianCredentials(config).Some? ==>
      r == Success(Transport.Call(Transport.GetAtlassianCredentials(config).value, IssuesPath(p.workspace, p.repoSlug),
        Transport.RequestOptions(Some(Transport.POST), None, Some(JObj(Fields(CreateEntries(p)))))))
  {
    if p.workspace == "" || p.repoSlug == "" || p.title == "" {
      return Failure(PlainError(TitleRequired));
    }
    var credentials := Transport.GetAtlassianCredentials(config);
    if credentials.None? {
      return Failure(AuthMissing(Some(CredentialsRequired)));
    }
    var body := BuildCreateBody(p);
    var path := IssuesPath(p.workspace, p.repoSlug);
    return Success(Transport.Call(credentials.value, path, Transport.RequestOptions(Some(Transport.POST), None, Some(JObj(body)))));
  }

  // ---------------------------------------------------------------- update

  datatype UpdateIssueParams = UpdateIssueParams(
    workspace: string, repoSlug: string, issueId: int,
    title: Option<string>, content: Option<string>, status: Option<string>,
    kind: Option<string>, priority: Option<string>, assignee: Option<string>)

  /** A string field that is set whenever it is not `undefined`, even when empty. */
  function IfDefined(o: Option<string>): Option<Json>
  {
    if o.Some? then Some(JStr(o.value)) else None
  }

  /** The body `update` builds: each field that is not `undefined`; `status` goes out as `state`. */
  function UpdateEntries(p: UpdateIssueParams): (es: FieldEntries)
    ensures DistinctKeys(es)
  {
    var es := [("title", IfDefined(p.title)),
     ("content", if p.content.Some? then Some(Markdown(p.content.value)) else None),
     ("state", IfDefined(p.status)),
     ("kind", IfDefined(p.kind)),
     ("priority", IfDefined(p.priority)),
     ("assignee", if p.assignee.Some? then Some(JObj([("uuid", JStr(p.assignee.value))])) else None)];
    assert "title" != "state" && "kind" != "title" && "kind" != "state" by {
      assert "title"[1] != "state"[1] && "kind"[0] != "title"[0] && "kind"[0] != "state"[0];
    }
    es
  }

  /** The update body carries exactly the fields given, empty strings included, under the API's names. */
  lemma UpdateBodyFields(p: UpdateIssueParams)
    ensures var fs := Fields(UpdateEntries(p));
      && LastField(fs, "title") == (if p.title.Some? then Value(JStr(p.title.value)) else Undefined)
      && LastField(fs, "content") == (if p.content.Some? then Value(Markdown(p.content.value)) else Undefined)
      && LastField(fs, "state") == (if p.status.Some? then Value(JStr(p.status.value)) else Undefined)
      && LastField(fs, "kind") == (if p.kind.Some? then Value(JStr(p.kind.value)) else Undefined)
      && LastField(fs, "priority") == (if p.priority.Some? then Value(JStr(p.priority.value)) else Undefined)
      && LastField(fs, "assignee") == (if p.assignee.Some? then Value(JObj([("uuid", JStr(p.assignee.value))])) else Undefined)
      && LastField(fs, "status") == Undefined
  {
    var es := UpdateEntries(p);
    FieldsMember(es, 0);
    FieldsMember(es, 1);
    FieldsMember(es, 2);
    FieldsMember(es, 3);
    FieldsMember(es, 4);
    FieldsMember(es, 5);
    assert es[0].0 != "status" && es[1].0 != "status" && es[2].0 != "status" by {
      assert "status"[4] != "state"[4] && |"status"| != |"title"| && |"status"| != |"content"|;
    }
    assert es[3].0 != "status" && es[4].0 != "status" && es[5].0 != "status" by {
      assert |"status"| != |"kind"| && |"status"| != |"priority"| && |"status"| != |"assignee"|;
    }
    FieldsAbsent(es, "status");
  }

  /** The body object of `update`, filled field by field. */
  method BuildUpdateBody(p: UpdateIssueParams) returns (body: seq<(string, Json)>)
    ensures body == Fields(UpdateEntries(p))
  {
    var es := UpdateEntries(p);
    assert es[..0] == [];
    body := [];
    body := AssignIfPresent(body, es, 0);
    body := AssignIfPresent(body, es, 1);
    body := AssignIfPresent(body, es, 2);
    body := AssignIfPresent(body, es, 3);
    body := AssignIfPresent(body, es, 4);
    body := AssignIfPresent(body, es, 5);
    assert es[..6] == es;
  }

  /** `update(params)`: a PUT of the built body to the issue's path. */
  method Update(config: Transport.Config, p: UpdateIssueParams) returns (r: Result<Transport.Call, Error>)
    ensures p.workspace == "" || p.repoSlug == "" || p.issueId == 0 ==> r == Failure(PlainError(IssueRequired))
    ensures p.workspace != "" && p.repoSlug != "" && p.issueId != 0 && Transport.GetAtlassianCredentials(config).None? ==>
      r == Failure(AuthMissing(Some(CredentialsRequired)))
    ensures p.workspace != "" && p.repoSlug != "" && p.issueId != 0 && Transport.GetAtlassianCredentials(config).Some? ==>
      r == Success(Transport.Call(Transport.GetAtlassianCredentials(config).value, IssuePath(p.workspace, p.repoSlug, p.issueId),
        Transport.RequestOptions(Some(Transport.PUT), None, Some(JObj(Fields(UpdateEntries(p)))))))
  {
    if p.workspace == "" || p.repoSlug == "" || p.issueId == 0 {
      return Failure(PlainError(IssueRequired));
    }
    var credentials := Transport.GetAtlassianCredentials(config);
    if credentials.None? {
      return Failure(AuthMissing(Some(CredentialsRequired)));
    }
    var body := BuildUpdateBody(p);
    var path := IssuePath(p.workspace, p.repoSlug, p.issueId);
    return Success(Transport.Call(credentials.value, path, Transport.RequestOptions(Some(Transport.PUT), None, Some(JObj(body)))));
  }

  // ---------------------------------------------------------------- comments

  datatype ListCommentsParams = ListCommentsParams(
    workspace: string, repoSlug: string, issueId: int, page: Option<int>, pagelen: Option<int>)

  function CommentsQuery(p: ListCommentsParams): Query.Pairs
  {
    Query.Present([("pagelen", Query.IntText(p.pagelen)), ("page", Query.IntText(p.page))])
  }

  /** Only a non-zero page length and page number are sent. */
  lemma CommentsQueryParameters(p: ListCommentsParams)
    ensures Query.GetAll(CommentsQuery(p), "pagelen") == if p.pagelen.Some? && p.pagelen.value != 0 then [IntToString(p.pagelen.value)] else []
    ensures Query.GetAll(CommentsQuery(p), "page") == if p.page.Some? && p.page.value != 0 then [IntToString(p.page.value)] else []
  {
    var es := [("pagelen", Query.IntText(p.pagelen)), ("page", Query.IntText(p.page))];
    assert "pagelen" != "page" by {
      assert |"pagelen"| != |"page"|;
    }
    Query.PresentGetAll(es, 0);
    Query.PresentGetAll(es, 1);
  }

  /** The `set` calls of `listComments`, on a fresh `URLSearchParams`. */
  method BuildCommentsQuery(p: ListCommentsParams) returns (queryParams: Query.SearchParams)
    ensures fresh(queryParams)
    ensures queryParams.pairs == CommentsQuery(p)
  {
    var es := [("pagelen", Query.IntText(p.pagelen)), ("page", Query.IntText(p.page))];
    assert Query.DistinctNames(es) by {
      assert |"pagelen"| != |"page"|;
    }
    queryParams := new Query.SearchParams();
    assert es[..0] == [];
    Query.SetIfGiven(queryParams, [], es, 0);
    Query.SetIfGiven(queryParams, [], es, 1);
    assert es[..2] == es;
  }

  /** `listComments(params)`. */
  method ListComments(config: Transport.Config, p: ListCommentsParams) returns (r: Result<Transport.Call, Error>)
    ensures p.workspace == "" || p.repoSlug == "" || p.issueId == 0 ==> r == Failure(PlainError(IssueRequired))
    ensures p.workspace != "" && p.repoSlug != "" && p.issueId != 0 && Transport.GetAtlassianCredentials(config).None? ==>
      r == Failure(AuthMissing(Some(CredentialsRequired)))
    ensures p.workspace != "" && p.repoSlug != "" && p.issueId != 0 && Transport.GetAtlassianCredentials(config).Some? ==>
      r == Success(Transport.Call(Transport.GetAtlassianCredentials(config).value,
        Query.WithQuery(IssuePath(p.workspace, p.repoSlug, p.issueId) + "/comments", CommentsQuery(p)), Transport.NoOptions))
  {
    if p.workspace == "" || p.repoSlug == "" || p.issueId == 0 {
      return Failure(PlainError(IssueRequired));
    }
    var credentials := Transport.GetAtlassianCredentials(config);
    if credentials.None? {
      return Failure(AuthMissing(Some(CredentialsRequired)));
    }
    var queryParams := BuildCommentsQuery(p);
    var qs := queryParams.ToString();
    var queryString := if qs != "" then "?" + qs else "";
    var base := IssuePath(p.workspace, p.repoSlug, p.issueId) + "/comments";
    assert base + queryString == Query.WithQuery(base, CommentsQuery(p)) by {
      Query.SerializeEmptyIff(CommentsQuery(p));
    }
    return Success(Transport.Call(credentials.value, base + queryString, Transport.NoOptions));
  }

  datatype AddCommentParams = AddCommentParams(workspace: string, repoSlug: string, issueId: int, content: string)

  /** `addComment(params)`: a POST of `{ content: { raw, markup: 'markdown' } }` to the comments path. */
  function AddComment(config: Transport.Config, p: AddCommentParams): (r: Result<Transport.Call, Error>)
    ensures p.workspace == "" || p.repoSlug == "" || p.issueId == 0 || p.content == "" <==>
      r == Failure(PlainError(CommentRequired))
    ensures (!(p.workspace == "" || p.repoSlug == "" || p.issueId == 0 || p.content == "") &&
             Transport.GetAtlassianCredentials(config).None?) <==> r == Failure(AuthMissing(Some(CredentialsRequired)))
    ensures (!(p.workspace == "" || p.repoSlug == "" || p.issueId == 0 || p.content == "") &&
             Transport.GetAtlassianCredentials(config).Some?) <==> r.Success?
    ensures r.Success? ==> r.value.credentials == Transport.GetAtlassianCredentials(config).value
    ensures r.Success? ==>
      && r.value.path == IssuePath(p.workspace, p.repoSlug, p.issueId) + "/comments"
      && r.value.options.verb == Some(Transport.POST)
      && r.value.options.body == Some(JObj([("content", Markdown(p.content))]))
  {
    if p.workspace == "" || p.repoSlug == "" || p.issueId == 0 || p.content == "" then
      Failure(PlainError(CommentRequired))
    else match Transport.GetAtlassianCredentials(config)
      case None => Failure(AuthMissing(Some(CredentialsRequired)))
      case Some(credentials) =>
        Success(Transport.Call(credentials, IssuePath(p.workspace, p.repoSlug, p.issueId) + "/comments",
          Transport.RequestOptions(Some(Transport.POST), None, Some(JObj([("content", Markdown(p.content))])))))
  }
}
