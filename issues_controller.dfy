/**
 * The issues controller: the defaults and validation each issues tool applies before it
 * calls the issues service, the text `remove` answers with, the pagination footer
 * condition and the hint added to a BBQL syntax error. The Markdown formatting of the
 * service's answers is modelled in `IssuesFormatter`; the error handler that wraps every
 * failure is not part of this model.
 */
module IssuesController {
  import opened Wrappers
  import opened Strings
  import opened Errors
  import Query
  import Transport
  import IssuesService
  import opened Json

  const DefaultPageLength := 10
  const DefaultCommentsPageLength := 20

  const TitleRequired := "Issue title is required"
  const ContentRequired := "Comment content is required"

  /** `limit || fallback`: an absent or zero limit gives the fallback. */
  function LimitOr(limit: Option<int>, fallback: int): (r: int)
    ensures limit.Some? && limit.value != 0 ==> r == limit.value
    ensures limit.None? || limit.value == 0 ==> r == fallback
  {
    if limit.Some? && limit.value != 0 then limit.value else fallback
  }

  // ---------------------------------------------------------------- list

  datatype ListIssuesOptions = ListIssuesOptions(
    workspaceSlug: string, repoSlug: string,
    status: Option<string>, kind: Option<string>, priority: Option<string>,
    query: Option<string>, sort: Option<string>, limit: Option<int>, page: Option<int>)

  /** The service parameters `list` builds: every filter passed through, `query` as `q`, `limit || 10` as the page length. */
  function ListServiceParams(options: ListIssuesOptions): (p: IssuesService.ListIssuesParams)
    ensures p.workspace == options.workspaceSlug && p.repoSlug == options.repoSlug
    ensures p.status == options.status && p.kind == options.kind && p.priority == options.priority
    ensures p.q == options.query && p.sort == options.sort && p.page == options.page
    ensures p.pagelen.Some? && p.pagelen.value != 0
  {
    IssuesService.ListIssuesParams(options.workspaceSlug, options.repoSlug, options.status, options.kind,
      options.priority, options.query, options.sort, options.page, Some(LimitOr(options.limit, DefaultPageLength)))
  }

  /** The query `list` sends, given the tool's options. */
  function ListQueryOf(options: ListIssuesOptions): Query.Pairs
  {
    IssuesService.ListQuery(ListServiceParams(options))
  }

  /** The page length is always sent: the limit, or 10 when the limit is absent or 0. */
  lemma ListPageLength(options: ListIssuesOptions)
    ensures Query.GetAll(ListQueryOf(options), "pagelen") == [IntToString(LimitOr(options.limit, 10))]
  {
    IssuesService.ListQueryParameters(ListServiceParams(options));
  }

  /** The tool's `query` reaches the API as the BBQL filter `q`, sent exactly when it is non-empty. */
  lemma ListFilter(options: ListIssuesOptions)
    ensures Query.GetAll(ListQueryOf(options), "q") == if Given(options.query) then [options.query.value] else []
    ensures Query.GetAll(ListQueryOf(options), "status") == if Given(options.status) then [options.status.value] else []
  {
    IssuesService.ListQueryParameters(ListServiceParams(options));
  }

  /** `list(options)` up to the service call. */
  method List(config: Transport.Config, options: ListIssuesOptions) returns (r: Result<Transport.Call, Error>)
    ensures options.workspaceSlug == "" || options.repoSlug == "" ==> r == Failure(PlainError(IssuesService.RepoRequired))
    ensures options.workspaceSlug != "" && options.repoSlug != "" && Transport.GetAtlassianCredentials(config).Some? ==>
      r.Success? && r.value.path ==
        Query.WithQuery(IssuesService.IssuesPath(options.workspaceSlug, options.repoSlug), ListQueryOf(options))
  {
    r := IssuesService.List(config, ListServiceParams(options));
  }

  /** The first line of the hint added to a BBQL syntax error. */
  const HintHead := "Hint: The 'query' parameter expects BBQL (Bitbucket Query Language) syntax."

  /** The lines of the hint after the first. */
  const HintRest :=
    "\nExamples: title ~ \"bug\", state=\"open\" AND priority>=\"major\", content.raw ~ \"login\"\n" +
    "Operators: ~ (contains), = (equals), !=, >, >=, <, <=, AND, OR"

  /** The text that, after the error message, explains the BBQL syntax. */
  const BbqlHint := "\n\n" + HintHead + HintRest

  /** The marker of a BBQL syntax error in the message Bitbucket answers with. */
  const BbqlMarker := "Invalid filter query expression"

  /** The message of an error; the default message of `AuthMissing(None)` is not part of this model. */
  function MessageOf(e: Error): Option<string>
  {
    match e
    case AuthMissing(d) => d
    case AuthInvalid(m) => Some(m)
    case ApiError(m, _, _) => Some(m)
    case Unexpected(m) => Some(m)
    case PlainError(m) => Some(m)
    case RawSyntaxError(m) => Some(m)
  }

  /**
   * The error `list` hands to the error handler: a message that names a BBQL syntax error
   * becomes a plain error with the hint appended; any other error passes unchanged.
   */
  function EnhanceListError(e: Error): (r: Error)
    ensures MessageOf(e).Some? && Contains(MessageOf(e).value, BbqlMarker) <==> r != e
  {
    match MessageOf(e)
    case Some(m) => if Contains(m, BbqlMarker) then PlainError(m + BbqlHint) else e
    case None => e
  }

  /** The enhanced error keeps the original message in front and carries the hint. */
  lemma EnhancedMessage(e: Error)
    requires MessageOf(e).Some? && Contains(MessageOf(e).value, BbqlMarker)
    ensures var r := EnhanceListError(e);
      && r.PlainError?
      && StartsWith(r.message, MessageOf(e).value)
      && Contains(r.message, BbqlMarker)
      && Contains(r.message, HintHead)
  {
    AppendedHint(MessageOf(e).value, BbqlMarker, "\n\n", HintHead, HintRest);
  }

  lemma AppendedHint(m: string, marker: string, sep: string, head: string, rest: string)
    requires Contains(m, marker)
    ensures StartsWith(m + (sep + head + rest), m)
    ensures Contains(m + (sep + head + rest), marker)
    ensures Contains(m + (sep + head + rest), head)
  {
    var t := m + (sep + head + rest);
    assert t[..|m|] == m;
    ContainsWithin(m, marker, "", sep + head + rest);
    assert "" + m + (sep + head + rest) == t;
    ContainsAt(m + sep, head, rest);
    assert m + sep + head + rest == t;
  }

  /** The page information the footer reports: whether more pages follow, and how many items this page holds. */
  datatype PaginationInfo = PaginationInfo(hasMore: bool, count: Option<int>)

  /** The footer is added when there is pagination information that has more pages or a non-zero count. */
  predicate FooterShown(pagination: Option<PaginationInfo>)
  {
    pagination.Some? && (pagination.value.hasMore || (pagination.value.count.Some? && pagination.value.count.value != 0))
  }

  /** The content `list` and `listComments` answer with, the footer text supplied as `footer`. */
  function WithFooter(formatted: string, pagination: Option<PaginationInfo>, footer: string): (r: string)
    ensures !FooterShown(pagination) ==> r == formatted
    ensures FooterShown(pagination) ==> StartsWith(r, formatted + "\n\n") && |r| == |formatted| + 2 + |footer|
  {
    if FooterShown(pagination) then
      assert (formatted + "\n\n" + footer)[..|formatted + "\n\n"|] == formatted + "\n\n";
      formatted + "\n\n" + footer
    else formatted
  }

  // ---------------------------------------------------------------- get, update, remove

  datatype IssueIdentifier = IssueIdentifier(workspaceSlug: string, repoSlug: string, issueId: int)

  function RefOf(identifier: IssueIdentifier): (ref: IssuesService.IssueRef)
    ensures ref.workspace == identifier.workspaceSlug && ref.repoSlug == identifier.repoSlug && ref.issueId == identifier.issueId
  {
    IssuesService.IssueRef(identifier.workspaceSlug, identifier.repoSlug, identifier.issueId)
  }

  /** `get(options)` fetches exactly the identified issue. */
  function Get(config: Transport.Config, identifier: IssueIdentifier): (r: Result<Transport.Call, Error>)
    ensures r.Success? ==>
      r.value.path == IssuesService.IssuePath(identifier.workspaceSlug, identifier.repoSlug, identifier.issueId)
      && r.value.options == Transport.NoOptions
  {
    IssuesService.Get(config, RefOf(identifier))
  }

  const DeletedHead := "✓ Issue #"
  const DeletedTail := " deleted successfully"

  /** The text `remove` answers with once the issue is deleted. */
  function DeletedMessage(issueId: int): (r: string)
    ensures StartsWith(r, DeletedHead + IntToString(issueId))
    ensures |r| >= |DeletedTail| && r[|r| - |DeletedTail|..] == DeletedTail
  {
    Framed(DeletedHead, IntToString(issueId), DeletedTail);
    DeletedHead + IntToString(issueId) + DeletedTail
  }

  lemma Framed(head: string, x: string, tail: string)
    ensures StartsWith(head + x + tail, head + x)
    ensures var r := head + x + tail; r[|r| - |tail|..] == tail
  {
    var r := head + x + tail;
    assert r[..|head + x|] == head + x;
    assert r[|r| - |tail|..] == tail;
  }

  /** The answer to a deletion names the deleted issue: different issues give different answers. */
  lemma DeletedMessageNamesIssue(a: int, b: int)
    requires a != b
    ensures DeletedMessage(a) != DeletedMessage(b)
  {
    IntToStringInjective(a, b);
    ConcatCancel(DeletedHead, IntToString(a), IntToString(b), DeletedTail);
  }

  /** `remove(options)`: the DELETE call, and the text answered once it succeeds. */
  function Remove(config: Transport.Config, identifier: IssueIdentifier): (r: Result<(Transport.Call, string), Error>)
    ensures r.Success? ==>
      && r.value.0.path == IssuesService.IssuePath(identifier.workspaceSlug, identifier.repoSlug, identifier.issueId)
      && r.value.0.options.verb == Some(Transport.DELETE)
      && r.value.1 == DeletedMessage(identifier.issueId)
    ensures r.Failure? <==> IssuesService.Remove(config, RefOf(identifier)).Failure?
  {
    match IssuesService.Remove(config, RefOf(identifier))
    case Failure(e) => Failure(e)
    case Success(call) => Success((call, DeletedMessage(identifier.issueId)))
  }

  datatype UpdateIssueOptions = UpdateIssueOptions(
    workspaceSlug: string, repoSlug: string, issueId: int,
    title: Option<string>, content: Option<string>, status: Option<string>,
    kind: Option<string>, priority: Option<string>, assignee: Option<string>)

  /** `update(options)`: every field is passed through unchanged. */
  method Update(config: Transport.Config, options: UpdateIssueOptions) returns (r: Result<Transport.Call, Error>)
    ensures var p := IssuesService.UpdateIssueParams(options.workspaceSlug, options.repoSlug, options.issueId,
        options.title, options.content, options.status, options.kind, options.priority, options.assignee);
      r.Success? ==> r.value.options.body == Some(JObj(Fields(IssuesService.UpdateEntries(p))))
  {
    var p := IssuesService.UpdateIssueParams(options.workspaceSlug, options.repoSlug, options.issueId,
      options.title, options.content, options.status, options.kind, options.priority, options.assignee);
    r := IssuesService.Update(config, p);
  }

  // ---------------------------------------------------------------- create

  datatype CreateIssueOptions = CreateIssueOptions(
    workspaceSlug: string, repoSlug: string, title: string,
    content: Option<string>, kind: Option<string>, priority: Option<string>)

  /** `create(options)`: a blank title is refused before the service is called. */
  method Create(config: Transport.Config, options: CreateIssueOptions) returns (r: Result<Transport.Call, Error>)
    ensures IsBlank(options.title) <==> r == Failure(PlainError(TitleRequired))
    ensures r.Success? ==>
      && r.value.path == IssuesService.IssuesPath(options.workspaceSlug, options.repoSlug)
      && r.value.options.verb == Some(Transport.POST)
  {
    if options.title == "" || IsBlank(options.title) {
      return Failure(PlainError(TitleRequired));
    }
    var p := IssuesService.CreateIssueParams(options.workspaceSlug, options.repoSlug, options.title,
      options.content, options.kind, options.priority);
    r := IssuesService.Create(config, p);
    assert TitleRequired != IssuesService.TitleRequired by {
      assert |TitleRequired| != |IssuesService.TitleRequired|;
    }
  }

  // ---------------------------------------------------------------- comments

  datatype ListCommentsOptions = ListCommentsOptions(
    workspaceSlug: string, repoSlug: string, issueId: int, limit: Option<int>, page: Option<int>)

  function CommentsServiceParams(options: ListCommentsOptions): (p: IssuesService.ListCommentsParams)
    ensures p.workspace == options.workspaceSlug && p.repoSlug == options.repoSlug && p.issueId == options.issueId
    ensures p.page == options.page
  {
    IssuesService.ListCommentsParams(options.workspaceSlug, options.repoSlug, options.issueId,
      options.page, Some(LimitOr(options.limit, DefaultCommentsPageLength)))
  }

  /** Comments are fetched 20 to a page unless a non-zero limit is given. */
  lemma CommentsPageLength(options: ListCommentsOptions)
    ensures Query.GetAll(IssuesService.CommentsQuery(CommentsServiceParams(options)), "pagelen") ==
      [IntToString(LimitOr(options.limit, 20))]
  {
    IssuesService.CommentsQueryParameters(CommentsServiceParams(options));
  }

  /** `listComments(options)` up to the service call. */
  method ListComments(config: Transport.Config, options: ListCommentsOptions) returns (r: Result<Transport.Call, Error>)
    ensures (options.workspaceSlug != "" && options.repoSlug != "" && options.issueId != 0 &&
      Transport.GetAtlassianCredentials(config).Some?) ==>
      r.Success? && r.value.path ==
        Query.WithQuery(IssuesService.IssuePath(options.workspaceSlug, options.repoSlug, options.issueId) + "/comments",
          IssuesService.CommentsQuery(CommentsServiceParams(options)))
  {
    r := IssuesService.ListComments(config, CommentsServiceParams(options));
  }

  datatype AddCommentOptions = AddCommentOptions(workspaceSlug: string, repoSlug: string, issueId: int, content: string)

  /** `addComment(options)`: blank content is refused before the service is called. */
  function AddComment(config: Transport.Config, options: AddCommentOptions): (r: Result<Transport.Call, Error>)
    ensures IsBlank(options.content) <==> r == Failure(PlainError(ContentRequired))
    ensures r.Success? ==>
      r.value.options.body == Some(JObj([("content", IssuesService.Markdown(options.content))]))
  {
    if IsBlank(options.content) then Failure(PlainError(ContentRequired))
    else
      var r := IssuesService.AddComment(config,
        IssuesService.AddCommentParams(options.workspaceSlug, options.repoSlug, options.issueId, options.content));
      assert ContentRequired != IssuesService.CommentRequired by {
        assert |ContentRequired| != |IssuesService.CommentRequired|;
      }
      r
  }
}
