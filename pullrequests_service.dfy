/**
 * The pull-request service: the requests it sends to list, read, create and comment on
 * pull requests and to fetch their raw diff and diffstat. Identifiers are validated first,
 * then credentials are required, then the path, query and body are built.
 */
module PullRequestsService {
  import opened Wrappers
  import opened Strings
  import opened Json
  import opened Errors
  import Query
  import Transport

  const RepoRequired := "Both workspace and repo_slug parameters are required"
  const PullRequestRequired := "workspace, repo_slug, and pull_request_id parameters are all required"
  const CommentRequired := "Comment content is required"
  const TitleRequired := "Pull request title is required"
  const SourceRequired := "Source branch name is required"
  const DestinationRequired := "Destination branch name is required"

  /** `/2.0/repositories/{workspace}/{repo_slug}/pullrequests`. */
  function PullRequestsPath(workspace: string, repoSlug: string): string
  {
    "/2.0/repositories/" + workspace + "/" + repoSlug + "/pullrequests"
  }

  /** `/2.0/repositories/{workspace}/{repo_slug}/pullrequests/{pull_request_id}`. */
  function PullRequestPath(workspace: string, repoSlug: string, id: int): (r: string)
    ensures StartsWith(r, PullRequestsPath(workspace, repoSlug) + "/")
  {
    PullRequestsPath(workspace, repoSlug) + "/" + IntToString(id)
  }

  // ---------------------------------------------------------------- list

  /** The `state` filter: one state, or an array of them. */
  datatype StateFilter = One(state: string) | Many(states: seq<string>)

  datatype ListPullRequestsParams = ListPullRequestsParams(
    workspace: string, repoSlug: string, state: Option<StateFilter>,
    q: Option<string>, sort: Option<string>, page: Option<int>, pagelen: Option<int>)

  /** The `state` values sent: every element of an array (an array is truthy even when empty), a non-empty single state. */
  function StateValues(state: Option<StateFilter>): seq<string>
  {
    match state
    case None => []
    case Some(One(s)) => if s != "" then [s] else []
    case Some(Many(ss)) => ss
  }

  /** The entries set after the state: `q`, `sort`, `pagelen`, `page`. */
  function ListEntries(p: ListPullRequestsParams): (es: Query.Entries)
    ensures Query.DistinctNames(es)
    ensures forall i :: 0 <= i < |es| ==> es[i].0 != "state"
  {
    var es := [("q", p.q), ("sort", p.sort), ("pagelen", Query.IntText(p.pagelen)), ("page", Query.IntText(p.page))];
    assert "sort" != "page" && "pagelen" != "page" && "sort" != "state" by {
      assert "sort"[0] != "page"[0] && |"pagelen"| != |"page"| && "sort"[1] != "state"[1];
    }
    assert "pagelen" != "state" && "page" != "state" by {
      assert "page"[0] != "state"[0];
    }
    es
  }

  /** The list query: the state pairs, then the other truthy parameters. */
  function ListQuery(p: ListPullRequestsParams): Query.Pairs
  {
    Query.Repeated("state", StateValues(p.state)) + Query.Present(ListEntries(p))
  }

  /** Every state is sent, in order, under a repeated `state` key; each other filter once when truthy. */
  lemma ListQueryParameters(p: ListPullRequestsParams)
    ensures Query.GetAll(ListQuery(p), "state") == StateValues(p.state)
    ensures Query.GetAll(ListQuery(p), "q") == if Given(p.q) then [p.q.value] else []
    ensures Query.GetAll(ListQuery(p), "sort") == if Given(p.sort) then [p.sort.value] else []
    ensures Query.GetAll(ListQuery(p), "pagelen") == if p.pagelen.Some? && p.pagelen.value != 0 then [IntToString(p.pagelen.value)] else []
    ensures Query.GetAll(ListQuery(p), "page") == if p.page.Some? && p.page.value != 0 then [IntToString(p.page.value)] else []
  {
    var states := Query.Repeated("state", StateValues(p.state));
    var es := ListEntries(p);
    Query.GetAllConcat(states, Query.Present(es), "state");
    Query.GetAllRepeated("state", StateValues(p.state), "state");
    Query.PresentAbsent(es, "state");
    ListOtherParameter(p, 0);
    ListOtherParameter(p, 1);
    ListOtherParameter(p, 2);
    ListOtherParameter(p, 3);
  }

  lemma ListOtherParameter(p: ListPullRequestsParams, i: nat)
    requires i < 4
    ensures var es := ListEntries(p);
      Query.GetAll(ListQuery(p), es[i].0) == if Given(es[i].1) then [es[i].1.value] else []
  {
    var es := ListEntries(p);
    var states := Query.Repeated("state", StateValues(p.state));
    Query.GetAllConcat(states, Query.Present(es), es[i].0);
    Query.GetAllRepeated("state", StateValues(p.state), es[i].0);
    Query.PresentGetAll(es, i);
  }

  /** The `append` loop over an array of states. */
  method AppendStates(queryParams: Query.SearchParams, states: seq<string>)
    requires queryParams.pairs == []
    modifies queryParams
    ensures queryParams.pairs == Query.Repeated("state", states)
  {
    var i := 0;
    while i < |states|
      invariant 0 <= i <= |states|
      invariant queryParams.pairs == Query.Repeated("state", states[..i])
    {
      assert states[..i + 1][..i] == states[..i];
      queryParams.Append("state", states[i]);
      i := i + 1;
    }
    assert states[..i] == states;
  }

  /** The `state` handling of `list`: an array is appended element by element, a single state is set. */
  method AddStates(queryParams: Query.SearchParams, state: Option<StateFilter>)
    requires queryParams.pairs == []
    modifies queryParams
    ensures queryParams.pairs == Query.Repeated("state", StateValues(state))
  {
    match state {
      case None =>
      case Some(One(s)) =>
        if s != "" {
          queryParams.Set("state", s);
        }
      case Some(Many(ss)) =>
        AppendStates(queryParams, ss);
    }
  }

  /** The query `list` builds on a fresh `URLSearchParams`. */
  method BuildListQuery(p: ListPullRequestsParams) returns (queryParams: Query.SearchParams)
    ensures fresh(queryParams)
    ensures queryParams.pairs == ListQuery(p)
  {
    queryParams := new Query.SearchParams();
    AddStates(queryParams, p.state);
    var pre := queryParams.pairs;
    var es := ListEntries(p);
    NoOtherNames(p.state, es);
    assert es[..0] == [];
    Query.SetIfGiven(queryParams, pre, es, 0);
    Query.SetIfGiven(queryParams, pre, es, 1);
    Query.SetIfGiven(queryParams, pre, es, 2);
    Query.SetIfGiven(queryParams, pre, es, 3);
    assert es[..4] == es;
  }

  /** The state pairs use none of the other entries' names. */
  lemma NoOtherNames(state: Option<StateFilter>, es: Query.Entries)
    requires forall i :: 0 <= i < |es| ==> es[i].0 != "state"
    ensures forall i :: 0 <= i < |es| ==> !Query.HasName(Query.Repeated("state", StateValues(state)), es[i].0)
  {
    forall i | 0 <= i < |es|
      ensures !Query.HasName(Query.Repeated("state", StateValues(state)), es[i].0)
    {
      Query.GetAllRepeated("state", StateValues(state), es[i].0);
    }
  }

  /** `list(params)`. */
  method List(config: Transport.Config, p: ListPullRequestsParams) returns (r: Result<Transport.Call, Error>)
    ensures p.workspace == "" || p.repoSlug == "" ==> r == Failure(PlainError(RepoRequired))
    ensures p.workspace != "" && p.repoSlug != "" && Transport.GetAtlassianCredentials(config).None? ==>
      r == Failure(AuthMissing(Some(CredentialsRequired)))
    ensures p.workspace != "" && p.repoSlug != "" && Transport.GetAtlassianCredentials(config).Some? ==>
      r == Success(Transport.Call(Transport.GetAtlassianCredentials(config).value,
        Query.WithQuery(PullRequestsPath(p.workspace, p.repoSlug), ListQuery(p)), Transport.NoOptions))
  {
    if p.workspace == "" || p.repoSlug == "" {
      return Failure(PlainError(RepoRequired));
    }
    var credentials := Transport.GetAtlassianCredentials(config);
    if credentials.None? {
      return Failure(AuthMissing(Some(CredentialsRequired)));
    }
    var queryParams := BuildListQuery(p);
    var qs := queryParams.ToString();
    var queryString := if qs != "" then "?" + qs else "";
    var path := PullRequestsPath(p.workspace, p.repoSlug) + queryString;
    assert path == Query.WithQuery(PullRequestsPath(p.workspace, p.repoSlug), ListQuery(p)) by {
      Query.SerializeEmptyIff(ListQuery(p));
    }
    return Success(Transport.Call(credentials.value, path, Transport.NoOptions));
  }

  // ---------------------------------------------------------------- one pull request

  datatype PullRequestRef = PullRequestRef(workspace: string, repoSlug: string, pullRequestId: int)

  predicate ValidRef(ref: PullRequestRef)
  {
    ref.workspace != "" && ref.repoSlug != "" && ref.pullRequestId != 0
  }

  /** The call on `{pull request path}{suffix}`, after the identifier and credential checks. */
  function PullRequestCall(config: Transport.Config, ref: PullRequestRef, suffix: string, options: Transport.RequestOptions): (r: Result<Transport.Call, Error>)
    ensures !ValidRef(ref) <==> r == Failure(PlainError(PullRequestRequired))
    ensures ValidRef(ref) && Transport.GetAtlassianCredentials(config).None? <==> r == Failure(AuthMissing(Some(CredentialsRequired)))
    ensures r.Success? ==>
      && r.value.credentials == Transport.GetAtlassianCredentials(config).value
      && r.value.path == PullRequestPath(ref.workspace, ref.repoSlug, ref.pullRequestId) + suffix
      && r.value.options == options
  {
    if !ValidRef(ref) then Failure(PlainError(PullRequestRequired))
    else match Transport.GetAtlassianCredentials(config)
      case None => Failure(AuthMissing(Some(CredentialsRequired)))
      case Some(credentials) =>
        Success(Transport.Call(credentials, PullRequestPath(ref.workspace, ref.repoSlug, ref.pullRequestId) + suffix, options))
  }

  /** `get(params)`: a plain GET of the pull request's path. */
  function Get(config: Transport.Config, ref: PullRequestRef): (r: Result<Transport.Call, Error>)
    ensures ref.pullRequestId == 0 ==> r == Failure(PlainError(PullRequestRequired))
    ensures r.Success? ==> r.value.options == Transport.NoOptions
  {
    PullRequestCall(config, ref, "", Transport.NoOptions)
  }

  /** The headers of the raw diff request, replacing both JSON defaults. */
  const PlainTextHeaders: Transport.Headers := [("Accept", "text/plain"), ("Content-Type", "text/plain")]

  /** `getRawDiff(params)`: a GET of `/diff` asking for plain text. */
  function GetRawDiff(config: Transport.Config, ref: PullRequestRef): (r: Result<Transport.Call, Error>)
    ensures ref.pullRequestId == 0 ==> r == Failure(PlainError(PullRequestRequired))
    ensures r.Success? ==> r.value.path == PullRequestPath(ref.workspace, ref.repoSlug, ref.pullRequestId) + "/diff"
    ensures r.Success? ==> r.value.options == Transport.RequestOptions(None, Some(PlainTextHeaders), None)
  {
    PullRequestCall(config, ref, "/diff", Transport.RequestOptions(None, Some(PlainTextHeaders), None))
  }

  /** The raw diff request goes out as a GET whose Accept and Content-Type are both `text/plain`, replacing the JSON defaults. */
  lemma RawDiffHeaders(config: Transport.Config, ref: PullRequestRef)
    requires GetRawDiff(config, ref).Success?
    ensures var c := GetRawDiff(config, ref).value;
      var req := Transport.PrepareRequest(c.credentials, c.path, c.options);
      && req.Success?
      && req.value.verb == Transport.GET
      && Transport.Lookup(req.value.headers, "Accept") == Some("text/plain")
      && Transport.Lookup(req.value.headers, "Content-Type") == Some("text/plain")
  {
    var c := GetRawDiff(config, ref).value;
    Transport.ConfiguredCredentialsPrepare(config, c.path, c.options);
    Transport.PrepareRequestVerbAndBody(c.credentials, c.path, c.options);
    assert Transport.HasHeader(PlainTextHeaders, "Accept") by {
      assert PlainTextHeaders[0].0 == "Accept";
    }
    assert Transport.HasHeader(PlainTextHeaders, "Content-Type") by {
      assert PlainTextHeaders[1].0 == "Content-Type";
    }
    assert Transport.Lookup(PlainTextHeaders, "Accept") == Some("text/plain") by {
      assert "Content-Type"[0] != "Accept"[0];
      assert PlainTextHeaders[..1] == [("Accept", "text/plain")];
    }
    Transport.PrepareRequestHeaders(c.credentials, c.path, c.options, "Accept");
    Transport.PrepareRequestHeaders(c.credentials, c.path, c.options, "Content-Type");
  }

  /** `getDiffstat(params)`: a plain GET of `/diffstat`. */
  function GetDiffstat(config: Transport.Config, ref: PullRequestRef): (r: Result<Transport.Call, Error>)
    ensures ref.pullRequestId == 0 ==> r == Failure(PlainError(PullRequestRequired))
    ensures r.Success? ==> r.value.path == PullRequestPath(ref.workspace, ref.repoSlug, ref.pullRequestId) + "/diffstat"
    ensures r.Success? ==> r.value.options == Transport.NoOptions
  {
    PullRequestCall(config, ref, "/diffstat", Transport.NoOptions)
  }

  // ---------------------------------------------------------------- comments

  datatype GetCommentsParams = GetCommentsParams(
    ref: PullRequestRef, page: Option<int>, pagelen: Option<int>, sort: Option<string>)

  function CommentsEntries(p: GetCommentsParams): (es: Query.Entries)
    ensures Query.DistinctNames(es)
  {
    var es := [("pagelen", Query.IntText(p.pagelen)), ("page", Query.IntText(p.page)), ("sort", p.sort)];
    assert "pagelen" != "page" && "sort" != "page" by {
      assert |"pagelen"| != |"page"| && "sort"[0] != "page"[0];
    }
    es
  }

  function CommentsQuery(p: GetCommentsParams): Query.Pairs
  {
    Query.Present(CommentsEntries(p))
  }

  /** A non-zero page length and page number and a non-empty sort are each sent once; nothing else is. */
  lemma CommentsQueryParameters(p: GetCommentsParams)
    ensures Query.GetAll(CommentsQuery(p), "pagelen") == if p.pagelen.Some? && p.pagelen.value != 0 then [IntToString(p.pagelen.value)] else []
    ensures Query.GetAll(CommentsQuery(p), "page") == if p.page.Some? && p.page.value != 0 then [IntToString(p.page.value)] else []
    ensures Query.GetAll(CommentsQuery(p), "sort") == if Given(p.sort) then [p.sort.value] else []
    ensures CommentsQuery(p) == [] <==> !Given(Query.IntText(p.pagelen)) && !Given(Query.IntText(p.page)) && !Given(p.sort)
  {
    var es := CommentsEntries(p);
    Query.PresentGetAll(es, 0);
    Query.PresentGetAll(es, 1);
    Query.PresentGetAll(es, 2);
    Query.PresentEmpty(es);
  }

  method BuildCommentsQuery(p: GetCommentsParams) returns (queryParams: Query.SearchParams)
    ensures fresh(queryParams)
    ensures queryParams.pairs == CommentsQuery(p)
  {
    var es := CommentsEntries(p);
    queryParams := new Query.SearchParams();
    assert es[..0] == [];
    Query.SetIfGiven(queryParams, [], es, 0);
    Query.SetIfGiven(queryParams, [], es, 1);
    Query.SetIfGiven(queryParams, [], es, 2);
    assert es[..3] == es;
  }

  /** `getComments(params)`. */
  method GetComments(config: Transport.Config, p: GetCommentsParams) returns (r: Result<Transport.Call, Error>)
    ensures !ValidRef(p.ref) ==> r == Failure(PlainError(PullRequestRequired))
    ensures ValidRef(p.ref) && Transport.GetAtlassianCredentials(config).None? ==>
      r == Failure(AuthMissing(Some(CredentialsRequired)))
    ensures ValidRef(p.ref) && Transport.GetAtlassianCredentials(config).Some? ==>
      r == Success(Transport.Call(Transport.GetAtlassianCredentials(config).value,
        Query.WithQuery(PullRequestPath(p.ref.workspace, p.ref.repoSlug, p.ref.pullRequestId) + "/comments", CommentsQuery(p)),
        Transport.NoOptions))
  {
    if !ValidRef(p.ref) {
      return Failure(PlainError(PullRequestRequired));
    }
    var credentials := Transport.GetAtlassianCredentials(config);
    if credentials.None? {
      return Failure(AuthMissing(Some(CredentialsRequired)));
    }
    var queryParams := BuildCommentsQuery(p);
    var qs := queryParams.ToString();
    var queryString := if qs != "" then "?" + qs else "";
    var base := PullRequestPath(p.ref.workspace, p.ref.repoSlug, p.ref.pullRequestId) + "/comments";
    assert base + queryString == Query.WithQuery(base, CommentsQuery(p)) by {
      Query.SerializeEmptyIff(CommentsQuery(p));
    }
    return Success(Transport.Call(credentials.value, base + queryString, Transport.NoOptions));
  }

  /** The comment `content` object as given (`None` when absent) and the optional inline location. */
  datatype AddCommentParams = AddCommentParams(ref: PullRequestRef, content: Option<Json>, inline: Option<Json>)

  /** The negation of `!params.content || !params.content.raw`: a truthy content with a truthy `raw`. */
  predicate HasRawContent(content: Option<Json>)
  {
    content.Some? && Truthy(content.value) && Present(Member(content.value, "raw"))
  }

  /** `{ content, inline }`: both forwarded as given; an `undefined` one is dropped when the body is serialised. */
  function CommentBody(p: AddCommentParams): Json
  {
    JObj(Fields([("content", p.content), ("inline", p.inline)]))
  }

  /** `addComment(params)`: identifiers, then content, then credentials, then a POST to `/comments`. */
  function AddComment(config: Transport.Config, p: AddCommentParams): (r: Result<Transport.Call, Error>)
    ensures !ValidRef(p.ref) <==> r == Failure(PlainError(PullRequestRequired))
    ensures ValidRef(p.ref) && !HasRawContent(p.content) <==> r == Failure(PlainError(CommentRequired))
    ensures ValidRef(p.ref) && HasRawContent(p.content) && Transport.GetAtlassianCredentials(config).None? <==>
      r == Failure(AuthMissing(Some(CredentialsRequired)))
    ensures r.Success? ==>
      && r.value.path == PullRequestPath(p.ref.workspace, p.ref.repoSlug, p.ref.pullRequestId) + "/comments"
      && r.value.options.verb == Some(Transport.POST)
      && r.value.options.body == Some(CommentBody(p))
  {
    if !ValidRef(p.ref) then Failure(PlainError(PullRequestRequired))
    else if !HasRawContent(p.content) then Failure(PlainError(CommentRequired))
    else match Transport.GetAtlassianCredentials(config)
      case None => Failure(AuthMissing(Some(CredentialsRequired)))
      case Some(credentials) =>
        Success(Transport.Call(credentials,
          PullRequestPath(p.ref.workspace, p.ref.repoSlug, p.ref.pullRequestId) + "/comments",
          Transport.RequestOptions(Some(Transport.POST), None, Some(CommentBody(p)))))
  }

  /** The comment body forwards the `content` object unchanged, and carries `inline` exactly when a location is given. */
  lemma CommentBodyFields(p: AddCommentParams)
    ensures LastField(CommentBody(p).fields, "content") == if p.content.Some? then Value(p.content.value) else Undefined
    ensures LastField(CommentBody(p).fields, "inline") == if p.inline.Some? then Value(p.inline.value) else Undefined
  {
    var es: FieldEntries := [("content", p.content), ("inline", p.inline)];
    assert DistinctKeys(es) by {
      assert "content"[0] != "inline"[0];
    }
    FieldsMember(es, 0);
    FieldsMember(es, 1);
  }

  // ---------------------------------------------------------------- create

  datatype CreatePullRequestParams = CreatePullRequestParams(
    workspace: string, repoSlug: string, title: string,
    sourceBranch: Option<string>, destinationBranch: Option<string>,
    description: Option<string>, closeSourceBranch: Option<bool>)

  /** `{ branch: { name } }`. */
  function BranchRef(name: string): Json
  {
    JObj([("branch", JObj([("name", JStr(name))]))])
  }

  /** The first failed check of `create`, in the order the source makes them. */
  function CreateValidation(p: CreatePullRequestParams): Option<string>
  {
    if p.workspace == "" || p.repoSlug == "" then Some(RepoRequired)
    else if p.title == "" then Some(TitleRequired)
    else if !Given(p.sourceBranch) then Some(SourceRequired)
    else if !Given(p.destinationBranch) then Some(DestinationRequired)
    else None
  }

  /** The request body: five fields, the description defaulting to the empty string and the flag coerced to a boolean. */
  function CreateBody(p: CreatePullRequestParams): Json
    requires p.sourceBranch.Some? && p.destinationBranch.Some?
  {
    JObj([
      ("title", JStr(p.title)),
      ("source", BranchRef(p.sourceBranch.value)),
      ("destination", BranchRef(p.destinationBranch.value)),
      ("description", JStr(if Given(p.description) then p.description.value else "")),
      ("close_source_branch", JBool(p.closeSourceBranch == Some(true)))])
  }

  /** `create(params)`: every validation before the credentials check, then a POST to the pull-requests path. */
  function Create(config: Transport.Config, p: CreatePullRequestParams): (r: Result<Transport.Call, Error>)
    ensures CreateValidation(p).Some? ==> r == Failure(PlainError(CreateValidation(p).value))
    ensures r.Failure? && r.error.PlainError? ==> CreateValidation(p).Some?
    ensures CreateValidation(p).None? && Transport.GetAtlassianCredentials(config).None? <==>
      r == Failure(AuthMissing(Some(CredentialsRequired)))
    ensures r.Success? ==>
      && Given(p.sourceBranch) && Given(p.destinationBranch)
      && r.value.path == PullRequestsPath(p.workspace, p.repoSlug)
      && r.value.options == Transport.RequestOptions(Some(Transport.POST), None, Some(CreateBody(p)))
  {
    match CreateValidation(p)
    case Some(message) => Failure(PlainError(message))
    case None =>
      match Transport.GetAtlassianCredentials(config)
      case None => Failure(AuthMissing(Some(CredentialsRequired)))
      case Some(credentials) =>
        Success(Transport.Call(credentials, PullRequestsPath(p.workspace, p.repoSlug),
          Transport.RequestOptions(Some(Transport.POST), None, Some(CreateBody(p)))))
  }

  /** The checks fire in order: each message is reported only when every earlier check passed. */
  lemma CreateValidationOrder(p: CreatePullRequestParams)
    ensures CreateValidation(p) == Some(RepoRequired) <==> p.workspace == "" || p.repoSlug == ""
    ensures CreateValidation(p) == Some(TitleRequired) <==> p.workspace != "" && p.repoSlug != "" && p.title == ""
    ensures CreateValidation(p) == Some(SourceRequired) <==>
      p.workspace != "" && p.repoSlug != "" && p.title != "" && !Given(p.sourceBranch)
    ensures CreateValidation(p) == Some(DestinationRequired) <==>
      p.workspace != "" && p.repoSlug != "" && p.title != "" && Given(p.sourceBranch) && !Given(p.destinationBranch)
  {
    assert |RepoRequired| == 52 && |DestinationRequired| == 35 && |TitleRequired| == 30 && |SourceRequired| == 30;
    assert TitleRequired[0] == 'P';
    assert SourceRequired[0] == 'S';
  }

  /** The body names exactly the five fields, with the defaults applied. */
  lemma CreateBodyFields(p: CreatePullRequestParams)
    requires p.sourceBranch.Some? && p.destinationBranch.Some?
    ensures Keys(CreateBody(p).fields) == ["title", "source", "destination", "description", "close_source_branch"]
    ensures LastField(CreateBody(p).fields, "description") == Value(JStr(if Given(p.description) then p.description.value else ""))
    ensures LastField(CreateBody(p).fields, "close_source_branch") == Value(JBool(p.closeSourceBranch == Some(true)))
    ensures LastField(CreateBody(p).fields, "title") == Value(JStr(p.title))
  {
    var fs := CreateBody(p).fields;
    assert fs[..1][..0] == [] && fs[..2][..1] == fs[..1] && fs[..3][..2] == fs[..2] && fs[..4][..3] == fs[..3] && fs[..5] == fs;
    assert Keys(fs[..1]) == ["title"];
    assert Keys(fs[..2]) == ["title", "source"];
    assert Keys(fs[..3]) == ["title", "source", "destination"];
    assert Keys(fs[..4]) == ["title", "source", "destination", "description"];
    assert "title"[0] != "close_source_branch"[0] && "title"[0] != "description"[0];
  }
}
