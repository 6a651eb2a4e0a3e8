# Bitbucket MCP server: a verified model of its core

This project models the logic at the core of the Atlassian Bitbucket MCP server. The
server exposes Bitbucket (workspaces, pull requests, issues, search and a generic API
call) as MCP tools and CLI commands. Underneath the tool wiring, each call does four things:

- it resolves credentials;
- it validates its arguments and builds a request (path, query string, JSON body);
- it sends the request through a transport that decides the URL and the `Authorization`
  header and classifies the response;
- it renders the answer as Markdown.

The model covers those steps. The HTTP response, the configuration values, the clock, the
JSON parser and the Markdown optimiser are inputs or parameters.

One Dafny module stands for each source file of the core:

- `Transport`: `src/utils/transport.util.ts`.
- `ApiController`: `src/controllers/atlassian.api.controller.ts`.
- `Formatter` and `DiffFormat`: `src/utils/formatter.util.ts`. `formatDiff` is a loop
  proved equal to a step function over its state.
- `PullRequestsFormatter`, `IssuesFormatter` and `SearchFormatter`: the three formatters
  under `src/controllers`.
- `IssuesService`, `PullRequestsService`, `SearchService` and `WorkspacesService`: the
  services under `src/services`.
- `IssuesController` and `WorkspacesController`: the two controllers.
- `Confirmation`: `src/utils/confirmation.util.ts`.
- `JsonExtract`: `extractJsonFromOutput` of `src/utils/cli.test.util.ts`.

Shared modules model the platform the code relies on:

- `Strings`: the JavaScript string operations the code uses.
- `Json`: parsed JSON values, truthiness and property access.
- `Query`: `URLSearchParams`, as a class whose `Set` and `Append` update an ordered list of
  pairs.
- `Encoding`: UTF-8, base64 (section 4 of RFC 4648) and the form-urlencoded serializer.
- `NodePath`: `path.basename` and `path.extname`.
- `Errors`: the typed errors.
- `Wrappers`: `Option` and `Result`.

Code that builds its output step by step is modelled in the same form:

- the diff loop;
- the `lines.push` sequences of the formatters;
- the `+=` of the search formatter;
- the `queryParams.set`/`append` calls;
- the field-by-field request bodies.

Each such step is a method whose `ensures` ties its result to a specification function.
The lemmas state the properties of those functions: caps, fallbacks, partitions,
orderings and round trips.

## Model

| member | source | states |
|---|---|---|
| Transport.GetAtlassianCredentials | src/utils/transport.util.ts:44-84 | the standard triple wins whenever all three are non-empty (with `useBitbucketAuth` false), otherwise a complete Bitbucket pair (with `useBitbucketAuth` true), and nothing exactly when neither set is complete |
| Transport.BasicAuthDecodes | src/utils/transport.util.ts:118-120 | the `Authorization` value starts `Basic ` and its base64 token decodes back to the UTF-8 bytes of `user`, a colon and `secret` |
| Transport.NormalizePath | src/utils/transport.util.ts:137 | the normalised path always starts with `/`; a path that already does is kept, any other gets `/` in front |
| Transport.NormalizePathIdempotent | src/utils/transport.util.ts:137 | normalising twice is normalising once |
| Transport.Lookup | src/utils/transport.util.ts:143-148 | a header object holds a value for a key exactly when the key is among its names |
| Transport.Upsert | src/utils/transport.util.ts:143-148 | assigning a key keeps every existing name in place and appends only a new key |
| Transport.LookupUpsert | src/utils/transport.util.ts:143-148 | after assigning `k`, reading `k` gives the new value and reading any other key gives what it gave before |
| Transport.Spread | src/utils/transport.util.ts:143-148 | spreading extra headers over defaults keeps the defaults' names first and in order |
| Transport.LookupSpread | src/utils/transport.util.ts:143-148 | after the spread, a key the caller supplies reads the caller's value and every other key reads its default |
| Transport.PrepareRequestFailure | src/utils/transport.util.ts:107-134 | request preparation fails exactly when the active variant misses one of its fields, and then with AuthInvalid |
| Transport.PrepareRequestUrl | src/utils/transport.util.ts:107-140 | the URL is the variant's base (`https://api.bitbucket.org` or `https://{site}.atlassian.net`) followed by the normalised path, and by the path itself when it starts with `/` |
| Transport.PrepareRequestVerbAndBody | src/utils/transport.util.ts:151-155 | the method defaults to GET, and a body is sent exactly when the caller's body is truthy, and then it is that body |
| Transport.PrepareRequestHeaders | src/utils/transport.util.ts:143-148 | caller headers override the `Authorization`, `Content-Type` and `Accept` defaults key by key; keys the caller omits keep the Basic value and `application/json` |
| Transport.ConfiguredCredentialsPrepare | src/utils/transport.util.ts:44-134 | credentials produced by `getAtlassianCredentials` always pass the request's own field guard |
| Transport.ErrorMessageFallback | src/utils/transport.util.ts:181-213 | a body that does not start with `{` or `[`, or that fails to parse, leaves the message at `{status} {statusText}` |
| Transport.ErrorMessagePriority | src/utils/transport.util.ts:192-208 | the message is `errors[0].title` when the errors array is non-empty (the status line if that title is missing), else `message`, else `error.message`, and the status line `status statusText` when none of them supplies one |
| Transport.Classify | src/utils/transport.util.ts:216-223 | 401 or 403 give AuthInvalid `Invalid Atlassian credentials` (and only they do), 404 gives ApiError `Resource not found` with the raw body, any other status the ApiError whose message is the body-derived error message, with that status and the raw body |
| Transport.CatchThrown | src/utils/transport.util.ts:254-271 | a thrown TypeError or SyntaxError becomes an ApiError with status 500, anything else an Unexpected error; both are McpErrors |
| Transport.CompleteDispatch | src/utils/transport.util.ts:173-250 | a 2xx `text/plain` response yields its body unchanged, a non-2xx response fails with its classification, and success implies a 2xx response |
| Transport.CompleteFailsWithMcpError | src/utils/transport.util.ts:251-271 | the corrected completion only ever fails with an McpError |
| Transport.CompleteAgreesExceptParseFailure | src/utils/transport.util.ts:238-271 | the code as written and the corrected version differ exactly on a 2xx non-text body that does not parse as JSON |
| Transport.EmptyNoContentEscapes | src/utils/transport.util.ts:250-266 | an empty 204 reply makes the code as written fail with a raw SyntaxError that is not an McpError, while the corrected version gives ApiError 500 `Network or parsing error: …` |
| Transport.Fetch | src/utils/transport.util.ts:93-273 | as written, `fetchAtlassian` fails with an McpError or with a raw SyntaxError, the latter exactly when preparation succeeds and a 2xx non-text reply does not parse; it fails with the preparation error whenever preparation fails |
| Transport.FetchCorrected | src/utils/transport.util.ts:238-271 | corrected (parse awaited inside the `try`): fails only with McpErrors, differs from `Fetch` exactly where that one escapes with a raw SyntaxError, and there gives ApiError 500 `Network or parsing error: …` |
| ApiController.NormalizeApiPath | src/controllers/atlassian.api.controller.ts:38-47 | the result always starts with `/2.0`; a path already starting with `/2.0` is kept; otherwise it is the path with its leading `/` ensured, with `/2.0` in front only when still missing |
| ApiController.NormalizeApiPathIdempotent | src/controllers/atlassian.api.controller.ts:38-47 | normalising twice is normalising once |
| ApiController.NormalizeApiPathOfRelative | src/controllers/atlassian.api.controller.ts:38-47 | a relative path such as `repositories/ws` becomes `/2.0/repositories/ws` |
| ApiController.AppendQuery | src/controllers/atlassian.api.controller.ts:49-58 | no or empty parameters leave the path alone; otherwise the serialised query follows `&` when the path already has a `?`, else `?` |
| ApiController.HandleGet | src/controllers/atlassian.api.controller.ts:24-64 | missing credentials give AuthMissing, and only they do; otherwise the call uses the configured credentials, its path is exactly the normalised path followed by the query string that `AppendQuery` joins with `?` or `&`, and the method is GET with no body |
| ApiController.HandlePost | src/controllers/atlassian.api.controller.ts:88-131 | the same credential guard and the same path (normalised path plus the joined query string), with method POST and the caller's body |
| ApiController.HandlersAgreeOnPath | src/controllers/atlassian.api.controller.ts:38-58 | GET and POST succeed together and address the same path (also lines 105-125) |
| ApiController.HandleGetUrl | src/controllers/atlassian.api.controller.ts:61-63 | with Bitbucket credentials the transport sends the built path unchanged after `https://api.bitbucket.org` |
| Confirmation.CheckWriteOperationConfirmation | src/utils/confirmation.util.ts:21-67 | the operation is confirmed exactly when `confirmed` is `true` (not when missing or false), and a warning is present exactly when it is not confirmed |
| Confirmation.FramedTrim | src/utils/confirmation.util.ts:63-66 | trimming the warning removes only the line breaks around it |
| Confirmation.FramedText | src/utils/confirmation.util.ts:30-66 | a warning framed by a head starting with `#` and a tail ending with `*` trims to itself, starts with the head and the name, contains the name and the details, and has no whitespace at either end |
| Confirmation.UnconfirmedWarning | src/utils/confirmation.util.ts:30-66 | an unconfirmed call's warning starts with the heading and operation name, contains the operation name and details, and has no leading or trailing whitespace |
| Confirmation.FormatConfirmationWarning | src/utils/confirmation.util.ts:75-84 | one text item whose text is the message unchanged |
| WorkspacesController.ServiceParams | src/controllers/atlassian.workspaces.controller.ts:56-64 | the service parameters carry a numeric page length, a page exactly when a cursor is given, `q` exactly when the query is non-empty, and never a sort |
| WorkspacesController.PageLength | src/controllers/atlassian.workspaces.controller.ts:21 | the page length sent is the limit, or 25 when the limit is absent or 0 (also line 57) |
| WorkspacesController.NumericCursor | src/controllers/atlassian.workspaces.controller.ts:58 | a cursor that is the text of a page number asks for that page |
| WorkspacesController.NonNumericCursor | src/controllers/atlassian.workspaces.controller.ts:58 | a non-numeric cursor reads as NaN, which the service drops, so no page is sent (also `src/services/vendor.atlassian.workspaces.service.ts:86-88`) |
| WorkspacesController.FilterOnlyWhenGiven | src/controllers/atlassian.workspaces.controller.ts:62-64 | `q` is sent exactly when the query is non-empty, and `sort` never is |
| WorkspacesController.List | src/controllers/atlassian.workspaces.controller.ts:45-69 | missing credentials fail with AuthMissing; otherwise the request goes to the permissions path with the query built from the options |
| WorkspacesController.Get | src/controllers/atlassian.workspaces.controller.ts:110-122 | `get` asks for exactly `/2.0/workspaces/{workspaceSlug}`, and fails only without credentials |
| WorkspacesService.ListEntries | src/services/vendor.atlassian.workspaces.service.ts:75-88 | the parameters `list` sets have distinct names |
| WorkspacesService.ListQueryParameters | src/services/vendor.atlassian.workspaces.service.ts:80-88 | `q`, `pagelen` and `page` are each sent once when truthy and not at all otherwise, `sort` never, and the query is empty exactly when none is truthy |
| WorkspacesService.List | src/services/vendor.atlassian.workspaces.service.ts:58-97 | missing credentials fail with AuthMissing; otherwise the call goes to `/2.0/user/permissions/workspaces` plus `?` and the query only when it is non-empty |
| WorkspacesService.BuildListQuery | src/services/vendor.atlassian.workspaces.service.ts:75-88 | the `set` calls on a fresh parameter list leave exactly the pairs of the query specification function |
| WorkspacesService.Get | src/services/vendor.atlassian.workspaces.service.ts:113-131 | missing credentials fail with AuthMissing and only they do; otherwise the path is `/2.0/workspaces/{workspace}` with default options |
| Formatter.FormatUrl | src/utils/formatter.util.ts:77-84 | a missing or empty url gives `Not available`; otherwise the result is a link, opening with `[` and closing with `)` |
| Formatter.FormatUrlParts | src/utils/formatter.util.ts:82-83 | the link text sits between `[` and `](` and is the title, or the url when the title is missing or empty; the target between `](` and `)` is the url |
| Formatter.FormatUrlTitleDefault | src/utils/formatter.util.ts:82 | a missing or empty title renders as if the url were the title |
| Formatter.Noun | src/utils/formatter.util.ts:99 | the word is singular exactly for a count of one and takes an `s` otherwise |
| Formatter.FormatPagination | src/utils/formatter.util.ts:93-103 | both forms start with `*Showing N item(s).`; without more results only a closing `*` follows; with more results the summary is followed by ` More results are available.*` and the text ends with `--cursor "<next>"` |
| Formatter.FormatPaginationHint | src/utils/formatter.util.ts:98-102 | the text contains `--cursor` if and only if `hasMore` |
| Formatter.Clamp | src/utils/formatter.util.ts:112 | the level is clamped into [1, 6] and a level already inside is kept |
| Formatter.FormatHeading | src/utils/formatter.util.ts:111-115 | the clamped number of `#`, one space, then the text unchanged |
| Formatter.FormatHeadingClamps | src/utils/formatter.util.ts:112 | a level of at most 1 renders as `# text`, a level of at least 6 as `###### text` |
| Formatter.FormatValue | src/utils/formatter.util.ts:147-183 | booleans become Yes/No, http(s) strings become links, other strings that are not timestamps stay as they are, and `undefined`/`null` become `Not available` |
| Formatter.BulletLinesCount | src/utils/formatter.util.ts:129-137 | one line per entry whose value is neither `undefined` nor `null` |
| Formatter.BulletLinesInOrder | src/utils/formatter.util.ts:129-137 | when every value is present, line `i` renders entry `i` as `- **key**: value` |
| Formatter.FormatBulletList | src/utils/formatter.util.ts:123-140 | the loop's lines, joined by line breaks, are the bullet lines of the specification function |
| Formatter.MapIndexed | src/utils/formatter.util.ts:207-208 | item `i` is formatted with its own index |
| Formatter.FormatNumberedList | src/utils/formatter.util.ts:199-210 | an empty list gives `No items.`; one item is just that item formatted |
| Formatter.NumberedListAppend | src/utils/formatter.util.ts:207-209 | each further item adds exactly one `\n\n---\n\n` separator and the item formatted with its index, so n items carry n-1 separators |
| DiffFormat.LastSep | src/utils/formatter.util.ts:257 | the greedy first group ends at the last ` b/` before the end of the line: nothing after the found position is a separator, and none is found only when there is none |
| DiffFormat.ExtractFileNameOfHeader | src/utils/formatter.util.ts:257-258 | a header `diff --git a/P b/Q` yields `P`, even when `P` itself contains ` b/` |
| DiffFormat.FormatDiff | src/utils/formatter.util.ts:223-307 | the method's text is the specification function's: the no-changes sentence for blank input, else the rendered lines joined by line breaks |
| DiffFormat.FormatLines | src/utils/formatter.util.ts:232-305 | the loop's lines are the rendering of the state machine run over the lines, followed by its closing lines |
| DiffFormat.CloseLines | src/utils/formatter.util.ts:293-304 | after the loop, a set `inFile` gets a closing fence and a truncated pass gets a blank line and the notice naming `maxFiles` |
| DiffFormat.RunSkipsPreamble | src/utils/formatter.util.ts:240-291 | lines before the first `diff --git` header leave no trace |
| DiffFormat.RunBlockBody | src/utils/formatter.util.ts:264-290 | in an open block, lines are copied up to the per-file cap; past it the omission marker, a closing fence and a blank line are emitted once and the rest of the block is dropped |
| DiffFormat.RunBlockFits | src/utils/formatter.util.ts:264-290 | a block body within the cap is copied entirely and the block stays open |
| DiffFormat.RunBlockOverflows | src/utils/formatter.util.ts:264-276 | a block body over the cap keeps exactly its first `maxLinesPerFile - lineCount` lines, then the marker, fence and blank line, and closes the block |
| DiffFormat.CopiesVerbatim | src/utils/formatter.util.ts:278-289 | every kept line renders as the line itself, whatever its prefix (`+`, `-`, `@@` or context) |
| DiffFormat.RunDropsOutsideBlock | src/utils/formatter.util.ts:240-291 | lines outside a block that are not headers change nothing |
| DiffFormat.StepCounts | src/utils/formatter.util.ts:240-291 | one iteration adds a heading and an opening fence per rendered header, a closing fence per block it ends, counts every header, and truncates exactly on a header past the cap |
| DiffFormat.RunFileCount | src/utils/formatter.util.ts:249-254 | headers are counted up to one past the cap; the pass truncates exactly when there are more than `maxFiles` headers, and then `maxFiles` headings are rendered |
| DiffFormat.RunKeepsFences | src/utils/formatter.util.ts:243-276 | the pass keeps closed fences matched to opened ones, counting the open block, until it truncates |
| DiffFormat.FenceBalance | src/utils/formatter.util.ts:243-296 | closing fences equal opening ones, except that a pass truncated inside an open block emits one closing fence more |
| DiffFormat.FenceBalanceCorrected | src/utils/formatter.util.ts:243-296 | corrected (the fence closed after the loop only when the loop did not stop at the cap), every opening fence has exactly one closing fence, truncated or not |
| DiffFormat.DiffFileCap | src/utils/formatter.util.ts:249-254 | the output is truncated exactly when there are more headers than `maxFiles`, and shows `min(headers, maxFiles)` file headings (also lines 298-304) |
| DiffFormat.DoubleCloseExample | src/utils/formatter.util.ts:243-296 | on two files with a cap of one and the first block open, the output holds the closing fence twice before the notice |
| DiffFormat.SingleCloseExample | src/utils/formatter.util.ts:243-304 | corrected, the same diff closes its block once and then gives the notice |
| DiffFormat.DoubleCloseRun | src/utils/formatter.util.ts:242-254 | on that diff the second header closes the open block, then truncates with the block still marked open |
| IssuesFormatter.Or | src/controllers/atlassian.issues.formatter.ts:46-50 | `o \|\| fallback`: the value when it is a non-empty string, else the fallback |
| IssuesFormatter.ListDescription | src/controllers/atlassian.issues.formatter.ts:34-41 | missing or blank content gives `No description`; content up to 150 characters is kept; longer content is its first 150 characters and `...` (153 in all) |
| IssuesFormatter.ListPropertiesKeys | src/controllers/atlassian.issues.formatter.ts:44-70 | the list view's bullet keys are the nine fixed ones in order, then `URL`, `Votes` and `Watchers`, each exactly when the issue has that field |
| IssuesFormatter.IssueBlocksLength | src/controllers/atlassian.issues.formatter.ts:31-75 | each issue contributes three lines |
| IssuesFormatter.IssueHeadingAt | src/controllers/atlassian.issues.formatter.ts:31-32 | line `3k` of the blocks is issue `k`'s heading, so issues appear in input order |
| IssuesFormatter.FormatIssuesList | src/controllers/atlassian.issues.formatter.ts:21-78 | an empty list gives `No issues found matching your criteria.`; otherwise the loop's text is the `Issues` heading, a blank line and every issue's block, joined by line breaks |
| IssuesFormatter.IssueLines | src/controllers/atlassian.issues.formatter.ts:32-74 | the pushes for one issue are its heading, its bullet list and a blank line |
| IssuesFormatter.DescriptionSection | src/controllers/atlassian.issues.formatter.ts:116-122 | the Description section is present exactly when the content is not blank, and carries the optimised content |
| IssuesFormatter.LinksSection | src/controllers/atlassian.issues.formatter.ts:124-132 | the Links section is present exactly when the issue has a web link, and carries `- [View in Bitbucket](href)` |
| IssuesFormatter.DetailsLines | src/controllers/atlassian.issues.formatter.ts:85-135 | the detail view has five head lines plus four per present section; its first line is the title heading, the optimised content sits at line 7 when present and the link on the second-last line when present |
| IssuesFormatter.FormatIssueDetails | src/controllers/atlassian.issues.formatter.ts:85-135 | the text starts with `# Issue #id: title` and a line break |
| IssuesFormatter.UpdatedLine | src/controllers/atlassian.issues.formatter.ts:161-164 | the `Updated` line appears exactly when `updated_on` is present and differs from `created_on` |
| IssuesFormatter.ContentLine | src/controllers/atlassian.issues.formatter.ts:168-171 | the optimised content appears exactly when the comment has non-empty content |
| IssuesFormatter.CommentBlock | src/controllers/atlassian.issues.formatter.ts:153-175 | one comment gives seven lines plus the optional `Updated` and content lines: its heading, `**Author**:` with `Unknown` as fallback, the `Updated` line only when shown, and a closing blank, separator and blank |
| IssuesFormatter.CommentBlocksEnd | src/controllers/atlassian.issues.formatter.ts:173-175 | a non-empty comment list ends with the blank, separator, blank closing |
| IssuesFormatter.FormatCommentsList | src/controllers/atlassian.issues.formatter.ts:142-179 | an empty list gives `No comments found on this issue.`; otherwise the loop's text is the `Comments` heading, a blank line and every comment's block |
| IssuesFormatter.CommentLines | src/controllers/atlassian.issues.formatter.ts:153-175 | the pushes for one comment are that comment's block |
| IssuesFormatter.SuccessLink | src/controllers/atlassian.issues.formatter.ts:193-197 | the `View at:` line and a blank appear exactly when the issue has a web link |
| IssuesFormatter.FormatIssueSuccess | src/controllers/atlassian.issues.formatter.ts:187-209 | the message starts `✓ Issue {action}: #{id} - {title}` and a blank line, then `View at: href` when there is a link, and ends with the State/Kind/Priority bullets |
| IssuesFormatter.Preview | src/controllers/atlassian.issues.formatter.ts:229-234 | the preview is the content when at most 100 characters long, else its first 100 characters and `...` |
| IssuesFormatter.FormatCommentSuccess | src/controllers/atlassian.issues.formatter.ts:216-238 | the message starts `✓ Comment #{id} added successfully` and a blank line, and ends with the preview when there is content |
| IssuesController.LimitOr | src/controllers/atlassian.issues.controller.ts:56 | `limit \|\| fallback`: a non-zero limit is kept, an absent or zero limit gives the fallback (also line 303) |
| IssuesController.ListServiceParams | src/controllers/atlassian.issues.controller.ts:56-69 | every filter is passed through, `query` becomes `q`, and the page length is always a non-zero number |
| IssuesController.ListPageLength | src/controllers/atlassian.issues.controller.ts:56 | the page length sent is the limit, or 10 when the limit is absent or 0 |
| IssuesController.ListFilter | src/controllers/atlassian.issues.controller.ts:59-69 | `query` reaches the API as `q` and `status` as `status`, each sent exactly when non-empty |
| IssuesController.List | src/controllers/atlassian.issues.controller.ts:45-86 | a missing workspace or repository fails before the request; with credentials the request goes to the issues path with the query built from the options |
| IssuesController.EnhanceListError | src/controllers/atlassian.issues.controller.ts:87-112 | an error is changed exactly when its message contains `Invalid filter query expression` |
| IssuesController.EnhancedMessage | src/controllers/atlassian.issues.controller.ts:89-98 | the enhanced error is a plain Error whose message starts with the original message and carries the marker and the BBQL hint |
| IssuesController.WithFooter | src/controllers/atlassian.issues.controller.ts:80-84 | the pagination footer is appended after a blank line exactly when pagination reports more results or a count (also lines 323-327) |
| IssuesController.Get | src/controllers/atlassian.issues.controller.ts:121-145 | `get` fetches exactly the identified issue's path with default options |
| IssuesController.DeletedMessage | src/controllers/atlassian.issues.controller.ts:274-276 | the answer starts `✓ Issue #{id}` and ends ` deleted successfully` |
| IssuesController.DeletedMessageNamesIssue | src/controllers/atlassian.issues.controller.ts:274-276 | different issue ids give different answers |
| IssuesController.Remove | src/controllers/atlassian.issues.controller.ts:253-285 | `remove` sends DELETE to the issue's path, answers with the deletion message, and fails exactly when the service does |
| IssuesController.Update | src/controllers/atlassian.issues.controller.ts:208-237 | every option reaches the update body unchanged |
| IssuesController.Create | src/controllers/atlassian.issues.controller.ts:161-192 | a blank or whitespace-only title fails with `Issue title is required`, and only such a title does so before the service; otherwise the request is a POST to the issues path |
| IssuesController.CommentsPageLength | src/controllers/atlassian.issues.controller.ts:303 | comments are fetched 20 to a page unless a non-zero limit is given |
| IssuesController.ListComments | src/controllers/atlassian.issues.controller.ts:292-329 | with a workspace, repository, issue id and credentials, the request goes to the issue's `/comments` path with the comments query |
| IssuesController.AddComment | src/controllers/atlassian.issues.controller.ts:345-374 | blank content fails with `Comment content is required`, and only blank content does so before the service; otherwise the body carries the content as markdown |
| IssuesService.IssuePath | src/services/vendor.atlassian.issues.service.ts:163 | an issue's path is the issues path of its repository followed by `/` and the id |
| IssuesService.ListEntries | src/services/vendor.atlassian.issues.service.ts:88-111 | the parameters `list` sets have distinct names |
| IssuesService.ListQueryParameters | src/services/vendor.atlassian.issues.service.ts:88-111 | `status`, `kind`, `priority`, `q`, `sort`, `pagelen` and `page` are each sent once when truthy (numbers when non-zero) and left out otherwise |
| IssuesService.BuildListQuery | src/services/vendor.atlassian.issues.service.ts:88-111 | the `set` calls on a fresh parameter list leave exactly the pairs of the query specification function |
| IssuesService.List | src/services/vendor.atlassian.issues.service.ts:69-120 | a missing workspace or repository is refused before the credentials are checked; missing credentials give AuthMissing; otherwise a GET of the issues path with `?` and the query only when the query is non-empty |
| IssuesService.IssueCall | src/services/vendor.atlassian.issues.service.ts:150-163 | a missing workspace, repository or falsy issue id (0 included) is refused first, exactly then; missing credentials come next; otherwise the call goes to the issue's path (also lines 363-376) |
| IssuesService.Get | src/services/vendor.atlassian.issues.service.ts:143-167 | an issue id of 0 is refused like a missing one; `get` sends no method and no body |
| IssuesService.Remove | src/services/vendor.atlassian.issues.service.ts:356-382 | an issue id of 0 is refused; `remove` sends DELETE with no body |
| IssuesService.CreateEntries | src/services/vendor.atlassian.issues.service.ts:217-234 | the create body's keys are distinct |
| IssuesService.CreateBodyFields | src/services/vendor.atlassian.issues.service.ts:217-234 | the create body always holds `title`, and `content` (as `{raw, markup: 'markdown'}`), `kind` and `priority` exactly when truthy |
| IssuesService.BuildCreateBody | src/services/vendor.atlassian.issues.service.ts:217-234 | the fields filled one by one are exactly the create body of the specification function |
| IssuesService.Create | src/services/vendor.atlassian.issues.service.ts:196-243 | a missing workspace, repository or title is refused before the credentials check; otherwise a POST of the create body to the issues path |
| IssuesService.UpdateEntries | src/services/vendor.atlassian.issues.service.ts:295-324 | the update body's keys are distinct |
| IssuesService.UpdateBodyFields | src/services/vendor.atlassian.issues.service.ts:295-324 | the update body holds exactly the fields that are not `undefined`, empty strings included; `status` goes out as `state` (and never as `status`) and `assignee` as `{uuid}` |
| IssuesService.BuildUpdateBody | src/services/vendor.atlassian.issues.service.ts:295-324 | the fields filled one by one are exactly the update body of the specification function |
| IssuesService.Update | src/services/vendor.atlassian.issues.service.ts:274-333 | a missing workspace, repository or falsy issue id is refused first; missing credentials next; otherwise a PUT of the update body to the issue's path |
| IssuesService.CommentsQueryParameters | src/services/vendor.atlassian.issues.service.ts:431-438 | only a non-zero page length and page number are sent |
| IssuesService.BuildCommentsQuery | src/services/vendor.atlassian.issues.service.ts:431-438 | the `set` calls on a fresh parameter list leave exactly the comments query |
| IssuesService.ListComments | src/services/vendor.atlassian.issues.service.ts:408-447 | the same refusals in the same order; otherwise a GET of the issue's `/comments` path with `?` and the query only when non-empty |
| IssuesService.AddComment | src/services/vendor.atlassian.issues.service.ts:472-512 | a missing workspace, repository, issue id or content is refused, exactly then; with valid input, missing credentials give AuthMissing `Atlassian credentials are required for this operation` and present ones a success; a success is a POST with those credentials of `{content: {raw, markup: 'markdown'}}` to the issue's `/comments` path |
| PullRequestsService.PullRequestPath | src/services/vendor.atlassian.pullrequests.service.ts:165 | a pull request's path is the pull-requests path of its repository followed by `/` and the id |
| PullRequestsService.ListEntries | src/services/vendor.atlassian.pullrequests.service.ts:99-111 | the parameters set after the state have distinct names, none of them `state` |
| PullRequestsService.ListQueryParameters | src/services/vendor.atlassian.pullrequests.service.ts:84-111 | every state of an array is sent in order under a repeated `state` key (a single state once); `q`, `sort`, `pagelen` and `page` once each when truthy |
| PullRequestsService.AppendStates | src/services/vendor.atlassian.pullrequests.service.ts:89-93 | the `append` loop over an array of states leaves one `state` pair per element, in order |
| PullRequestsService.AddStates | src/services/vendor.atlassian.pullrequests.service.ts:88-97 | an array of states is appended element by element, a single state is set once, no state adds nothing |
| PullRequestsService.BuildListQuery | src/services/vendor.atlassian.pullrequests.service.ts:84-111 | the calls on a fresh parameter list leave exactly the pairs of the query specification function |
| PullRequestsService.List | src/services/vendor.atlassian.pullrequests.service.ts:64-120 | a missing workspace or repository is refused before the credentials check; otherwise a GET of the pull-requests path, with `?` and the query only when it is non-empty |
| PullRequestsService.PullRequestCall | src/services/vendor.atlassian.pullrequests.service.ts:152-165 | a missing workspace or repository or a falsy pull request id is refused first, exactly then; missing credentials next; otherwise the call goes to the pull request's path plus the suffix |
| PullRequestsService.Get | src/services/vendor.atlassian.pullrequests.service.ts:143-169 | an id of 0 is refused; `get` is a plain GET |
| PullRequestsService.GetRawDiff | src/services/vendor.atlassian.pullrequests.service.ts:443-477 | an id of 0 is refused; the raw diff is a GET of `/diff` with both Accept and Content-Type set to `text/plain` |
| PullRequestsService.RawDiffHeaders | src/services/vendor.atlassian.pullrequests.service.ts:471-476 | the prepared request is a GET whose Accept and Content-Type are both `text/plain`, overriding the JSON defaults (also `src/utils/transport.util.ts:143-148`) |
| PullRequestsService.GetDiffstat | src/services/vendor.atlassian.pullrequests.service.ts:490-518 | an id of 0 is refused; the diffstat is a plain GET of `/diffstat` |
| PullRequestsService.CommentsQueryParameters | src/services/vendor.atlassian.pullrequests.service.ts:221-233 | a non-zero page length and page and a non-empty sort are each sent once, and the query is empty exactly when none is given |
| PullRequestsService.BuildCommentsQuery | src/services/vendor.atlassian.pullrequests.service.ts:221-233 | the `set` calls leave exactly the comments query |
| PullRequestsService.GetComments | src/services/vendor.atlassian.pullrequests.service.ts:196-243 | the identifier refusal, then the credentials refusal, then a GET of `/comments` with `?` and the query only when non-empty |
| PullRequestsService.AddComment | src/services/vendor.atlassian.pullrequests.service.ts:282-320 | identifiers are checked first, then a truthy `content` with a truthy `raw`, then credentials, each failing exactly in its case; success is a POST of the comment body to `/comments` |
| PullRequestsService.CommentBodyFields | src/services/vendor.atlassian.pullrequests.service.ts:315-318 | the comment body forwards the `content` object unchanged, and carries `inline` exactly when a location is given |
| PullRequestsService.Create | src/services/vendor.atlassian.pullrequests.service.ts:355-419 | any validation failure is reported before the credentials check, and plain errors come only from validation; success is a POST of the create body to the pull-requests path |
| PullRequestsService.CreateValidationOrder | src/services/vendor.atlassian.pullrequests.service.ts:367-386 | each check fires exactly when every earlier one passed: workspace and repository, title, source branch name, destination branch name |
| PullRequestsService.CreateBodyFields | src/services/vendor.atlassian.pullrequests.service.ts:398-412 | the body names exactly title, source, destination, description and close_source_branch; the description defaults to `''` and close_source_branch is true only for `true` |
| PullRequestsFormatter.OrElse | src/controllers/atlassian.pullrequests.formatter.ts:64-68 | `o \|\| fallback`: the value when it is a non-empty string, else the fallback |
| PullRequestsFormatter.ChosenDescription | src/controllers/atlassian.pullrequests.formatter.ts:44-54 | a non-blank `summary.raw` wins, else a non-blank `summary.markup` other than `markdown`, else `No description provided` |
| PullRequestsFormatter.ListDescription | src/controllers/atlassian.pullrequests.formatter.ts:56-58 | a description up to 150 characters is kept; a longer one becomes its first 150 characters and `...` |
| PullRequestsFormatter.ListAuthor | src/controllers/atlassian.pullrequests.formatter.ts:64 | the author is the display name, else the nickname, else `Unknown` |
| PullRequestsFormatter.ListItem | src/controllers/atlassian.pullrequests.formatter.ts:40-79 | each list item starts with its `## #id: title` heading line |
| PullRequestsFormatter.FormatPullRequestsList | src/controllers/atlassian.pullrequests.formatter.ts:28-88 | an empty list gives exactly `No pull requests found matching your criteria.`; otherwise the text opens with the list heading and a blank line and closes with the retrieval line |
| PullRequestsFormatter.TotalsConcat | src/controllers/atlassian.pullrequests.formatter.ts:159-167 | the insertion and deletion totals add up over any split of the entries |
| PullRequestsFormatter.TotalsOfUnchanged | src/controllers/atlassian.pullrequests.formatter.ts:164-167 | entries with no truthy counts leave both totals at zero |
| PullRequestsFormatter.Totals | src/controllers/atlassian.pullrequests.formatter.ts:160-167 | the `forEach` accumulation equals the totals of the specification function, counting only truthy `lines_added`/`lines_removed` |
| PullRequestsFormatter.ChangeText | src/controllers/atlassian.pullrequests.formatter.ts:179-183 | the `(+a, -r)` suffix is empty exactly when neither count is truthy |
| PullRequestsFormatter.FileLines | src/controllers/atlassian.pullrequests.formatter.ts:178-187 | one line per file, in order |
| PullRequestsFormatter.Shown | src/controllers/atlassian.pullrequests.formatter.ts:175-178 | the files listed are a prefix of at most ten, and all of them when there are at most ten |
| PullRequestsFormatter.FileList | src/controllers/atlassian.pullrequests.formatter.ts:175-193 | the first ten files get a line each, in order, and `- ... and {total-10} more files` follows exactly when there are more than ten |
| PullRequestsFormatter.FileChanges | src/controllers/atlassian.pullrequests.formatter.ts:155-195 | the pushes of the File Changes section are the section of the specification function |
| PullRequestsFormatter.TopLevel | src/controllers/atlassian.pullrequests.formatter.ts:216-226 | the top-level list holds only comments of the input that have no parent |
| PullRequestsFormatter.RepliesTo | src/controllers/atlassian.pullrequests.formatter.ts:216-226 | the bucket of a parent id holds only comments of the input whose parent is that id |
| PullRequestsFormatter.GroupComments | src/controllers/atlassian.pullrequests.formatter.ts:210-226 | the first pass builds the top-level list and, for every id, the bucket of the replies to it, in input order, with no empty bucket (also lines 349-365) |
| PullRequestsFormatter.PushChild | src/controllers/atlassian.pullrequests.formatter.ts:219-222 | pushing to a parent's bucket (creating it first when needed) extends that bucket alone, by one comment |
| PullRequestsFormatter.GroupNext | src/controllers/atlassian.pullrequests.formatter.ts:216-226 | each further comment extends exactly one of the top level or its parent's bucket |
| PullRequestsFormatter.Partition | src/controllers/atlassian.pullrequests.formatter.ts:210-226 | the top level and the replies together are the input as a multiset: no comment lost, none invented |
| PullRequestsFormatter.ReplyInItsBucket | src/controllers/atlassian.pullrequests.formatter.ts:217-222 | a comment with a parent lands in that parent's bucket |
| PullRequestsFormatter.TopInTopLevel | src/controllers/atlassian.pullrequests.formatter.ts:223-225 | a comment without a parent lands at the top level |
| PullRequestsFormatter.ExactlyOneBucket | src/controllers/atlassian.pullrequests.formatter.ts:216-226 | each comment is at the top level exactly when it has no parent, and in the bucket of an id exactly when that id is its parent |
| PullRequestsFormatter.NoNestedReplies | src/controllers/atlassian.pullrequests.formatter.ts:232-236 | a reply to a comment that is itself a reply is in no bucket the views render (also lines 368-372) |
| PullRequestsFormatter.LineInfoCases | src/controllers/atlassian.pullrequests.formatter.ts:426-435 | a range `(changed line F -> T)` is shown exactly when both ends are present (a JSON `null` counts as present), and nothing exactly when `to` is absent |
| PullRequestsFormatter.CommentAuthor | src/controllers/atlassian.pullrequests.formatter.ts:411 | the author is the display name, else `Unknown User` |
| PullRequestsFormatter.Body | src/controllers/atlassian.pullrequests.formatter.ts:453-460 | a deleted comment shows `*This comment has been deleted.*`; otherwise the optimised content, or `*No content provided.*` when that is empty; never an empty line |
| PullRequestsFormatter.UpdatedLines | src/controllers/atlassian.pullrequests.formatter.ts:419-421 | the `Updated on` line appears exactly when `updated_on` is present and differs from `created_on` |
| PullRequestsFormatter.CommentLinesShape | src/controllers/atlassian.pullrequests.formatter.ts:407-469 | a comment's lines start with its level-3 heading, and the body follows a blank line after the posted, updated, inline and snippet lines |
| PullRequestsFormatter.DeletedComment | src/controllers/atlassian.pullrequests.formatter.ts:412-414 | a deleted comment's heading reads `[DELETED] Comment by …` and its lines hold the deletion notice (also lines 455-457) |
| PullRequestsFormatter.FormatComment | src/controllers/atlassian.pullrequests.formatter.ts:407-469 | the lines `formatComment` pushes are the comment's lines of the specification function |
| PullRequestsFormatter.QuoteRoundTrip | src/controllers/atlassian.pullrequests.formatter.ts:254 | quoting a reply (`\n` to `\n> `) loses nothing: unquoting gives the text back (also line 386) |
| PullRequestsFormatter.QuoteMarks | src/controllers/atlassian.pullrequests.formatter.ts:254 | every line break of a quoted reply is followed by `> ` (also line 386) |
| PullRequestsFormatter.Take | src/controllers/atlassian.pullrequests.formatter.ts:230 | `slice(0, cap)` keeps a prefix: exactly `cap` elements when there are more, all of them otherwise (also line 242) |
| PullRequestsFormatter.ReplyLineAt | src/controllers/atlassian.pullrequests.formatter.ts:244-256 | reply `i` takes lines `3i` to `3i+2`: a blank, the author line, and the quoted optimised content |
| PullRequestsFormatter.MoreReplies | src/controllers/atlassian.pullrequests.formatter.ts:259-264 | the `...and k more replies` notice appears exactly when a cap leaves replies out |
| PullRequestsFormatter.RepliesSectionSize | src/controllers/atlassian.pullrequests.formatter.ts:237-265 | the replies section shows exactly the first `cap` replies (all without a cap) and adds the notice exactly when some are left out |
| PullRequestsFormatter.FormatReplies | src/controllers/atlassian.pullrequests.formatter.ts:237-265 | the pushes for the replies are the replies section of the specification function (also lines 373-388) |
| PullRequestsFormatter.FormatReply | src/controllers/atlassian.pullrequests.formatter.ts:245-255 | the lines pushed for one reply are its three lines of the specification function |
| PullRequestsFormatter.FormatReplyBlocks | src/controllers/atlassian.pullrequests.formatter.ts:244-256 | the loop over the shown replies pushes their blocks in order |
| PullRequestsFormatter.ThreadBlocks | src/controllers/atlassian.pullrequests.formatter.ts:232-271 | one block per shown top-level comment |
| PullRequestsFormatter.ThreadHeadingAt | src/controllers/atlassian.pullrequests.formatter.ts:232-233 | every shown top-level comment is rendered: thread `i`'s heading follows the first `i` threads (also lines 368-369) |
| PullRequestsFormatter.LastThreadBlock | src/controllers/atlassian.pullrequests.formatter.ts:267-270 | separators stand only between threads: the last thread is not followed by one (also lines 390-393) |
| PullRequestsFormatter.FormatThreads | src/controllers/atlassian.pullrequests.formatter.ts:232-271 | the thread loop, reading replies from the grouped buckets, pushes the threads of the specification function (also lines 368-394) |
| PullRequestsFormatter.FormatThread | src/controllers/atlassian.pullrequests.formatter.ts:233-270 | one thread is the comment, its replies and, unless it is the last, a blank line and a separator |
| PullRequestsFormatter.FormatPullRequestComments | src/controllers/atlassian.pullrequests.formatter.ts:332-400 | the comments view's text is the specification function's lines joined by line breaks |
| PullRequestsFormatter.UncappedReplies | src/controllers/atlassian.pullrequests.formatter.ts:373-388 | without a cap every reply is shown, in order, and none is counted as left out |
| PullRequestsFormatter.CommentsViewShowsEveryThread | src/controllers/atlassian.pullrequests.formatter.ts:368-394 | the comments view renders every top-level comment: the `i`-th heading sits two lines after the threads before it |
| PullRequestsFormatter.CommentsViewShape | src/controllers/atlassian.pullrequests.formatter.ts:336-346 | the comments view opens with `# Comments on Pull Request #{prId}` and a blank line and closes with the retrieval line (also lines 396-397) |
| PullRequestsFormatter.ReviewerLines | src/controllers/atlassian.pullrequests.formatter.ts:132-135 | one `- name` bullet per entry of `reviewers`, in order |
| PullRequestsFormatter.DescriptionSection | src/controllers/atlassian.pullrequests.formatter.ts:139-152 | the raw summary when given, else the rendered description, optimised under a Description heading; else no section |
| PullRequestsFormatter.MoreComments | src/controllers/atlassian.pullrequests.formatter.ts:273-279 | the `...and k more comments` notice appears exactly when there are more than five top-level comments |
| PullRequestsFormatter.ReviewerList | src/controllers/atlassian.pullrequests.formatter.ts:132-135 | the `forEach` over reviewers pushes their bullets |
| PullRequestsFormatter.FormatCommentThreads | src/controllers/atlassian.pullrequests.formatter.ts:205-287 | the details view's comments part: grouping, the first five threads with three replies each, the count of the rest, the link |
| PullRequestsFormatter.FormatPullRequestDetails | src/controllers/atlassian.pullrequests.formatter.ts:98-324 | the details text is the specification function's lines joined by line breaks |
| PullRequestsFormatter.LinkList | src/controllers/atlassian.pullrequests.formatter.ts:298-315 | the links loop pushes the present links in the order html, commits, comments, diff |
| PullRequestsFormatter.DetailsSections | src/controllers/atlassian.pullrequests.formatter.ts:128-292 | the pushes between the basic information and the links are the sections of the specification function |
| PullRequestsFormatter.ReviewersPart | src/controllers/atlassian.pullrequests.formatter.ts:129-137 | the pushes are the Reviewers section of the specification function: a heading and the bullets when `reviewers` is non-empty, nothing otherwise |
| PullRequestsFormatter.FileChangesPush | src/controllers/atlassian.pullrequests.formatter.ts:155-195 | the pushes are the File Changes section of the specification function, present only for a diffstat with an entry |
| PullRequestsFormatter.DiffPush | src/controllers/atlassian.pullrequests.formatter.ts:198-202 | the pushes are the full-diff section of the specification function: the diff formatted with five files of one hundred lines, only when there is a raw diff |
| PullRequestsFormatter.CommentsPush | src/controllers/atlassian.pullrequests.formatter.ts:205-292 | the pushes are the comments section of the specification function: nothing without comments data, the no-comments notice for an empty list, the threads otherwise |
| PullRequestsFormatter.GroupedThreads | src/controllers/atlassian.pullrequests.formatter.ts:210-232 | grouping then rendering gives the threads of the first `maxComments` top-level comments, and the number of top-level comments |
| PullRequestsFormatter.DetailsShape | src/controllers/atlassian.pullrequests.formatter.ts:104-111 | the details view opens with the title heading, a blank line and `## Basic Information`, and closes with the retrieval line (also lines 320-321) |
| PullRequestsFormatter.DetailsCommentsCapped | src/controllers/atlassian.pullrequests.formatter.ts:228-279 | with comments, the details view shows the threads of the first five top-level comments (fewer when there are fewer), with at most three replies each, and counts the rest |
| SearchFormatter.KnownKeys | src/controllers/atlassian.search.formatter.ts:16-46 | the table maps `.ts` to `typescript`, the key `dockerfile` to `dockerfile`, `.gitignore` to `gitignore`, and has no entry for the empty extension |
| SearchFormatter.NoExtensionNoHint | src/controllers/atlassian.search.formatter.ts:14-47 | `getLanguageHint` of a path without an extension is the empty hint |
| SearchFormatter.DockerfileKeyUnreachable | src/controllers/atlassian.search.formatter.ts:15 | a lower-cased `path.extname` is never `dockerfile`, so that key of the table is never looked up (also line 43) |
| SearchFormatter.NamedFilesAsWritten | src/controllers/atlassian.search.formatter.ts:14-47 | as written, a file named `Dockerfile` or `.gitignore` (any case, any directory) gets no hint |
| SearchFormatter.LanguageHintAgrees | src/controllers/atlassian.search.formatter.ts:14-47 | for a path with an extension the corrected hint is the hint as written |
| SearchFormatter.NamedFiles | src/controllers/atlassian.search.formatter.ts:42-44 | corrected: a file named `Dockerfile` gets `dockerfile` and one named `.gitignore` gets `gitignore`, in any case and directory |
| SearchFormatter.LowerCaseExtension | src/controllers/atlassian.search.formatter.ts:14-47 | the hint of `stem.ext` is the table entry of `.ext` lower-cased, as written and corrected |
| SearchFormatter.Highlighting | src/controllers/atlassian.search.formatter.ts:84-91 | highlighting wraps each matched segment in escaped backticks, adding four characters per match and keeping the text; the line is its plain text exactly when nothing matched |
| SearchFormatter.MatchWording | src/controllers/atlassian.search.formatter.ts:68-70 | the summary says `1 match found` exactly for a count of one and `n matches found` otherwise |
| SearchFormatter.GroupNewlines | src/controllers/atlassian.search.formatter.ts:79-99 | every matched line is one line of output, and a group ends with a blank line exactly when it shows more than one line |
| SearchFormatter.ResultShape | src/controllers/atlassian.search.formatter.ts:55-105 | a result opens with its `### ` heading, closes its code block, and contains every group of lines; its code block carries the hint as written |
| SearchFormatter.ValuesOrEmpty | src/controllers/atlassian.search.formatter.ts:117 | `values \|\| []`: a missing list is the empty list (also line 156) |
| SearchFormatter.CodeSearchShape | src/controllers/atlassian.search.formatter.ts:113-143 | the answer starts with `**No code matches found.**` exactly when there are no results, otherwise it contains every result; both end with the retrieval footer |
| SearchFormatter.FormatLine | src/controllers/atlassian.search.formatter.ts:79-93 | the pushes for one line are the line number, the highlighted segments and a line break |
| SearchFormatter.FormatGroup | src/controllers/atlassian.search.formatter.ts:77-99 | one group's lines, then a blank line when it has more than one |
| SearchFormatter.AppendGroups | src/controllers/atlassian.search.formatter.ts:77-100 | the loop over the groups appends their texts in order |
| SearchFormatter.FormatCodeSearchResult | src/controllers/atlassian.search.formatter.ts:55-105 | `formatCodeSearchResult` builds exactly the result text of the specification function, whose code block carries the language hint as written (`path.extname` lookup) |
| SearchFormatter.AppendResults | src/controllers/atlassian.search.formatter.ts:134-136 | the loop over the results appends their texts (with the hint as written) in order |
| SearchFormatter.FormatCodeSearchResults | src/controllers/atlassian.search.formatter.ts:113-143 | `formatCodeSearchResults` builds exactly the code-search text of the specification function, with the language hint as written |
| SearchFormatter.Field | src/controllers/atlassian.search.formatter.ts:178-203 | a field is read only from an object value that holds it |
| SearchFormatter.TitlePrecedence | src/controllers/atlassian.search.formatter.ts:184-192 | the title is the first truthy of `title`, `name` and `summary`, a summary cut to 80 characters and `...`; `Untitled` when none |
| SearchFormatter.Link | src/controllers/atlassian.search.formatter.ts:195-203 | the link is the `html` href when truthy, else the `self` href, else none |
| SearchFormatter.BodyText | src/controllers/atlassian.search.formatter.ts:224-236 | the body is `description`, else `content`, cut to 500 characters and `...`; none when neither is truthy |
| SearchFormatter.ItemShape | src/controllers/atlassian.search.formatter.ts:205-238 | an entry's heading links its title when it has a link; a body stands between blank lines and is at most 503 characters |
| SearchFormatter.ContentSearchShape | src/controllers/atlassian.search.formatter.ts:152-246 | the answer starts with `**No content matches found.**` exactly when there are no results, otherwise it contains every entry; both end with the retrieval footer |
| SearchFormatter.ContentSearchThrows | src/controllers/atlassian.search.formatter.ts:176-182 | the answer is missing (a TypeError) exactly when some entry is `null`; an empty list gives the no-matches text and a list of objects the answer text |
| SearchFormatter.FormatContentItem | src/controllers/atlassian.search.formatter.ts:176-239 | a `null` entry throws (reading its `type`), and only a `null` one does; any other entry's pushes are the entry text of the specification function |
| SearchFormatter.ChooseTitle | src/controllers/atlassian.search.formatter.ts:184-192 | the `if`/`else if` chain picks the title of the specification function |
| SearchFormatter.ChooseLink | src/controllers/atlassian.search.formatter.ts:195-203 | the `if`/`else if` chain picks the link of the specification function |
| SearchFormatter.AppendItems | src/controllers/atlassian.search.formatter.ts:176-239 | the loop throws exactly when some entry is `null`; otherwise it appends the entries' texts in order |
| SearchFormatter.FormatContentSearchResults | src/controllers/atlassian.search.formatter.ts:152-246 | `formatContentSearchResults` gives exactly the outcome of the specification function: the content-search text, or a throw when an entry is `null` |
| SearchService.CommitsQueryParameters | src/services/vendor.atlassian.search.service.ts:146-165 | `q` is `message ~ "query"` exactly when the query is non-empty; `page`, `pagelen` and `fields` are sent exactly when truthy |
| SearchService.BuildCommitsQuery | src/services/vendor.atlassian.search.service.ts:146-165 | the appends build the commit query of the specification function |
| SearchService.SearchCommits | src/services/vendor.atlassian.search.service.ts:142-193 | no credentials fail with `No Atlassian credentials available`; otherwise the call goes to the repository's commits path, with `?` and the query only when the query string is non-empty |
| SearchService.MappedNameFinal | src/services/vendor.atlassian.search.service.ts:210-217 | corrected mapping: the names the table maps to are lower-case and are not themselves keys |
| SearchService.ApiLanguageIdempotent | src/services/vendor.atlassian.search.service.ts:223-224 | corrected mapping (own keys of the table only): mapping a language twice is mapping it once, and the result is lower-case |
| SearchService.LanguageMappingAsWritten | src/services/vendor.atlassian.search.service.ts:210-224 | as written, a plain-object lookup returns the table's own entry for each of its keys |
| SearchService.ApiLanguageAsWrittenAgrees | src/services/vendor.atlassian.search.service.ts:223-224 | apart from `constructor` and `__proto__`, the lookup as written agrees with the corrected one |
| SearchService.ConstructorLanguage | src/services/vendor.atlassian.search.service.ts:223-229 | as written, `constructor` in any case is sent as the text of the `Object` function; corrected, it passes through |
| SearchService.ProtoLanguage | src/services/vendor.atlassian.search.service.ts:223-229 | as written, `__proto__` in any case is sent as `[object Object]`; corrected, it passes through |
| SearchService.ApiLanguageTable | src/services/vendor.atlassian.search.service.ts:210-224 | corrected mapping: every spelling of `hcl`/`tf` maps to `terraform`, `typescript` to `ts`, `javascript` to `js`, `python` to `py`; any other name is lower-cased |
| SearchService.CodeSearchQueryOrder | src/services/vendor.atlassian.search.service.ts:205-233 | the search query comes first, then ` repo:`, ` lang:` and ` ext:` in that order, each only when its parameter is truthy; the ` lang:` value is the lookup as written |
| SearchService.CodeQueryParameters | src/services/vendor.atlassian.search.service.ts:236-252 | `search_query` is always the first pair, `page` and `pagelen` only when truthy, so the query string is never empty |
| SearchService.CodeEntriesNames | src/services/vendor.atlassian.search.service.ts:240-252 | the optional pairs have distinct names and never repeat `search_query` |
| SearchService.SearchCode | src/services/vendor.atlassian.search.service.ts:201-275 | no credentials fail with `No Atlassian credentials available`; otherwise the call goes to the workspace's code-search path, always with `?` and the query, whose ` lang:` value is the lookup as written |
| SearchService.ComposeSearchQuery | src/services/vendor.atlassian.search.service.ts:205-233 | the `+=` steps, with `languageMapping[mapped] || mapped` as written, build the code search query of the specification function |
| SearchService.ContentPaging | src/services/vendor.atlassian.search.service.ts:306-307 | `pagelen` is the limit when truthy, else 25; `page` is the page when truthy, else 1 |
| SearchService.ContentFilters | src/services/vendor.atlassian.search.service.ts:303 | `q` is always sent, even empty; `content_type` only when truthy (also lines 310-312) |
| SearchService.SearchContent | src/services/vendor.atlassian.search.service.ts:283-339 | no credentials fail with `Atlassian credentials are required for content search`; otherwise the call goes to the workspace's (or repository's) search path with `?` and the query |
| SearchService.BuildContentQuery | src/services/vendor.atlassian.search.service.ts:300-312 | the `set` calls build the content query of the specification function |
| JsonExtract.FirstWhere | src/utils/cli.test.util.ts:128-135 | a line found is at or after the start and satisfies the test |
| JsonExtract.FirstWhereIsFirst | src/utils/cli.test.util.ts:128-135 | the search stops at the first such line and finds none only when no line qualifies |
| JsonExtract.FirstBalanced | src/utils/cli.test.util.ts:148-157 | a cut found is past the start and leaves the brace depth at zero |
| JsonExtract.FirstBalancedIsFirst | src/utils/cli.test.util.ts:150-157 | the cut is at the first point where the depth is zero; there is none only when the depth never returns to zero |
| JsonExtract.CutAfterLeadingNonBrace | src/utils/cli.test.util.ts:150-156 | a text that opens with a character other than a brace is cut after that single character |
| JsonExtract.BracesInStringsCount | src/utils/cli.test.util.ts:151-152 | braces inside JSON strings are counted, so a `}` in a string value ends the document early |
| JsonExtract.NoStartLine | src/utils/cli.test.util.ts:137-139 | without a line that starts the JSON output the answer is `null` |
| JsonExtract.IndentedStartLine | src/utils/cli.test.util.ts:142-165 | when the start line is indented and the whole text does not parse, only its first (blank) character is re-parsed, and the answer is `null` when that fails |
| JsonExtract.ExtractJsonFromOutput | src/utils/cli.test.util.ts:122-167 | `extractJsonFromOutput` returns the answer of the specification function: the whole text from the start line when it parses, else its brace-balanced prefix when that parses, else `null` |
| JsonExtract.StartLine | src/utils/cli.test.util.ts:125-135 | the first loop yields the index of the first line whose trimmed text starts with `{` and holds no `[`, or -1 |
| JsonExtract.CutPoint | src/utils/cli.test.util.ts:148-157 | the brace-counting loop yields the first balanced length, or 0 |
| Query.Without | src/services/vendor.atlassian.pullrequests.service.ts:95 | removing a name keeps the other pairs in order and leaves none with that name |
| Query.GetAll | src/services/vendor.atlassian.pullrequests.service.ts:92 | `getAll(k)` is empty exactly when no pair has the name (also line 95) |
| Query.GetAllAppend | src/services/vendor.atlassian.pullrequests.service.ts:92 | `append` adds one value at the end of its name's values and changes no other name (also `src/services/vendor.atlassian.search.service.ts:150`) |
| Query.GetAllConcat | src/services/vendor.atlassian.search.service.ts:236-252 | the values of a name over joined pair lists are the values of each part, in order |
| Query.SetPairsGetAll | src/services/vendor.atlassian.issues.service.ts:91-112 | after `set(k, v)` the name `k` has exactly the value `v`, and every other name is untouched |
| Query.SetPairsOfNewName | src/services/vendor.atlassian.issues.service.ts:91-112 | `set` of a name not yet present appends one pair |
| Query.IntText | src/services/vendor.atlassian.issues.service.ts:106-111 | a number parameter is sent as its decimal text when it is truthy, and not at all when it is absent or zero |
| Query.PresentAbsent | src/services/vendor.atlassian.issues.service.ts:88-112 | a name no builder step uses is absent from the query |
| Query.PresentGetAll | src/services/vendor.atlassian.issues.service.ts:91-112 | with distinct names, each parameter is sent with its value exactly when it is truthy |
| Query.SetNext | src/services/vendor.atlassian.issues.service.ts:91-112 | each `if (value) set(name, value)` step appends its pair or changes nothing |
| Query.PresentEmpty | src/services/vendor.atlassian.issues.service.ts:114-116 | the query string is empty exactly when every parameter is falsy |
| Query.Repeated | src/services/vendor.atlassian.pullrequests.service.ts:89-93 | the `forEach` of `append` adds one pair per state |
| Query.GetAllRepeated | src/services/vendor.atlassian.pullrequests.service.ts:89-93 | repeating the `state` name gives back every state in order and adds no other name |
| Query.SerializePair | src/services/vendor.atlassian.search.service.ts:263 | a serialized pair is `name=value` with no `&` in it |
| Query.SerializeEmptyIff | src/services/vendor.atlassian.issues.service.ts:114-116 | the serialization is empty exactly when there are no pairs, which decides the `?` (also `src/services/vendor.atlassian.search.service.ts:176-178`) |
| Query.WithQuery | src/services/vendor.atlassian.issues.service.ts:114-117 | the path alone when there are no pairs, else the path, `?` and the serialization |
| Query.SearchParams.constructor | src/services/vendor.atlassian.issues.service.ts:88 | `new URLSearchParams()` holds no pairs |
| Query.SearchParams.Set | src/services/vendor.atlassian.issues.service.ts:91-112 | `set` replaces the first pair of its name, drops the rest, or appends one |
| Query.SearchParams.Append | src/services/vendor.atlassian.pullrequests.service.ts:92 | `append` adds one pair at the end (also `src/services/vendor.atlassian.search.service.ts:150-164`) |
| Query.SetIfGiven | src/services/vendor.atlassian.issues.service.ts:91-112 | one `if (value) queryParams.set(name, value)` step extends the built pairs by that entry |
| Query.AppendIfGiven | src/services/vendor.atlassian.search.service.ts:149-165 | one `if (value) queryParams.append(name, value)` step extends the built pairs by that entry |
| Encoding.Utf8Char | src/utils/transport.util.ts:118-120 | a code point is one to four UTF-8 bytes, a single byte equal to it exactly when it is ASCII |
| Encoding.Utf8Concat | src/utils/transport.util.ts:118-120 | the bytes of joined strings are the joined bytes, so `user:password` encodes piece by piece |
| Encoding.Utf8OfAscii | src/utils/transport.util.ts:118-120 | on ASCII text UTF-8 is the identity on code points |
| Encoding.B64IndexOfChar | src/utils/transport.util.ts:120 | every character of the base64 alphabet of RFC 4648 section 4 decodes to its own index |
| Encoding.Base64Encode | src/utils/transport.util.ts:118-120 | padded base64 (RFC 4648 section 4) produces four characters per started group of three bytes (also lines 131-133) |
| Encoding.QuadBits | src/utils/transport.util.ts:120 | regrouping the four 6-bit groups of a group gives its three bytes back |
| Encoding.DecodeInnerGroup | src/utils/transport.util.ts:120 | a full group followed by more groups decodes to its bytes, then the rest |
| Encoding.DecodeTwo | src/utils/transport.util.ts:120 | a group of two bytes (three characters and one `=`) decodes back |
| Encoding.DecodeOne | src/utils/transport.util.ts:120 | a group of one byte (two characters and two `=`) decodes back |
| Encoding.Base64RoundTrip | src/utils/transport.util.ts:118-120 | the `Authorization` header's base64 loses nothing: decoding it gives the bytes back (also lines 131-133) |
| Encoding.Base64Alphabet | src/utils/transport.util.ts:120 | every character of an encoding is from the alphabet or the pad `=` |
| Encoding.FormByte | src/services/vendor.atlassian.search.service.ts:263 | `application/x-www-form-urlencoded` serialization copies a safe byte, writes a space as `+`, and escapes any other byte as `%XX` |
| Encoding.FormEncodeHasNoDelimiters | src/services/vendor.atlassian.search.service.ts:263 | a serialized name or value never holds `&`, `=`, `?` or `#`, so the query string cannot be misread (also `src/services/vendor.atlassian.issues.service.ts:114-116`) |
| Encoding.FormEncodeOfSafe | src/services/vendor.atlassian.search.service.ts:263 | text of safe characters only (a slug, a page number) is serialized unchanged |
| Json.Member | src/utils/transport.util.ts:193-207 | reading `errors`, `title`, `message` or `error` throws exactly on `null`, returns only an object's own field, and is `undefined` when the object has no such key |
| Json.LastField | src/utils/transport.util.ts:189 | a key is present exactly when some field has it, and the value read is one of its fields |
| Json.LastFieldOfAppend | src/services/vendor.atlassian.issues.service.ts:295-319 | a key assigned last is read back with the value assigned |
| Json.KeysOfFields | src/services/vendor.atlassian.issues.service.ts:295-319 | the keys of a built object are exactly the keys of the entries that were present |
| Json.FieldsAbsent | src/services/vendor.atlassian.issues.service.ts:295-319 | a key no step assigns is absent from the body |
| Json.FieldsNext | src/services/vendor.atlassian.issues.service.ts:297-318 | each conditional assignment appends its field, or nothing |
| Json.AssignIfPresent | src/services/vendor.atlassian.issues.service.ts:297-318 | one `if (...) body.key = value` step extends the body by that entry |
| Json.FieldsMember | src/services/vendor.atlassian.issues.service.ts:295-319 | with distinct keys, each key reads back its value, or `undefined` when it was left out |
| NodePath.StripTrailingSlashesSpec | src/controllers/atlassian.search.formatter.ts:15 | `path.extname` first drops trailing slashes: what remains does not end with `/` and is followed only by slashes |
| NodePath.LastIndexOfSpec | src/controllers/atlassian.search.formatter.ts:15 | the last occurrence search finds a character with none after it, and finds none only when there is none |
| NodePath.LastIndexOfAt | src/controllers/atlassian.search.formatter.ts:15 | a character with none after it is the last occurrence |
| NodePath.BasenameHasNoSlash | src/controllers/atlassian.search.formatter.ts:15 | a basename holds no `/` |
| NodePath.ExtNameShape | src/controllers/atlassian.search.formatter.ts:15 | an extension is empty or a `.` followed by no other dot, and it ends the basename |
| NodePath.BasenameIn | src/controllers/atlassian.search.formatter.ts:15 | the basename of a name placed in a directory is that name |
| NodePath.ExtensionAt | src/controllers/atlassian.search.formatter.ts:15 | a basename other than `..` whose last dot is not its first character has the extension from that dot |
| NodePath.NoDotNoExtension | src/controllers/atlassian.search.formatter.ts:15 | a basename without a dot has no extension |
| NodePath.ExtNameOfFile | src/controllers/atlassian.search.formatter.ts:15 | a file `stem.ext` in a directory has the extension `.ext` |
| NodePath.ExtNameTrailingSlash | src/controllers/atlassian.search.formatter.ts:15 | a trailing slash does not change the extension |
| NodePath.LeadingDotOnly | src/controllers/atlassian.search.formatter.ts:15 | a name whose only dot is its first character (`.gitignore`) has no extension |
| NodePath.NoExtension | src/controllers/atlassian.search.formatter.ts:15 | a name with no dot after its first character has no extension, in any directory |
| NodePath.NamedFileSpelling | src/controllers/atlassian.search.formatter.ts:15 | any spelling of `Dockerfile` or `.gitignore` holds no `/` and no dot after its first character (also lines 42-44) |

## Left out

- Network, logging and configuration loading. `fetch` and the reading of the response are replaced by an input record: status, status text, content type and body text. The configuration is its five optional values. Logging has no effect on results and is dropped.
- Request timeouts. The search service passes a `timeout` option that the transport never reads, so it is not modelled.
- `JSON.parse` and `JSON.stringify`. Parsing is a function parameter that returns a value or a syntax error. Request bodies are JSON values, not their serialised text.
- The clock and date rendering. `formatDate`, `new Date()` and the `Information retrieved at` time are parameters or the text `retrievedAt`. The date branch of `formatValue` is not modelled.
- `optimizeBitbucketMarkdown` is a parameter (`optimize`); its definition is not part of this model.
- `handleControllerError`, `extractPaginationInfo` and the constructors of `src/utils/error.util.ts` are not part of this model. Errors are modelled by their kind, message, status and original body.
- Transport.CatchThrown: the caught error object, which the source attaches to the ApiError or Unexpected error as its original error, is not kept; only its message is, and the ApiError's body slot is empty.
- `applyJqFilter` and `toJsonString` (JMESPath filtering of the generic API response) are not part of this model.
- `src/utils/atlassian.util.ts` is not part of this model. The display name of a content type (`getContentTypeDisplay`) is a parameter of the content-search formatter.
- Strings are sequences of Unicode scalar values. Lengths and `slice` positions therefore count code points where JavaScript counts UTF-16 code units. The two agree except on characters outside the Basic Multilingual Plane.
- `toLowerCase` is modelled for ASCII letters only. It is applied to file extensions and language names, whose table keys are ASCII.
- The percent-encoding of `URLSearchParams` is modelled byte by byte on UTF-8. Lone surrogates cannot occur in this model's strings.
- The `reviewers` of a pull request are modelled by their display names, the only field the formatter reads.
- Tool and CLI registration, the Zod argument schemas, process startup, `runCommand` of the CLI test utility and the `*.test.ts` files are outside the core. The schema bounds appear only where the code relies on them.
- Concurrency: every tool call is a sequential computation.
- Strings.ParseInt and Strings.IntToString: work on exact integers. JavaScript numbers are doubles, so integers beyond 2^53, fractions and exponent notation (`1e21`) are not modelled. JSON numbers are likewise restricted to integers.
- DiffFormat.FormatDiff: keeps the doubled closing fence of the source (see Findings); the corrected variant is stated separately and is not used by the pull-request formatter, which renders the diff as the source does.

## Findings

| source | as written | input that shows it | evidently intended | confidence | as-written member | corrected member |
|---|---|---|---|---|---|---|
| src/utils/transport.util.ts:250 | `return response.json()` inside the `try` is not awaited, so a body that fails to parse rejects outside the `catch` and escapes as a raw `SyntaxError` | a 2xx reply (for example 204) with an empty body and no `text/plain` content type | the parse failure is caught and becomes the `ApiError` "Network or parsing error: …" with status 500, like every other transport failure | high, not executed | Transport.EmptyNoContentEscapes | Transport.FetchCorrected |
| src/utils/formatter.util.ts:243-296 | a header past `maxFiles` closes the open block but leaves `inFile` set, so the fence is closed again after the loop | two files, `maxFiles` = 1, with a body line in the first file | the open block is closed once before the truncation notice | high, not executed | DiffFormat.DoubleCloseExample | DiffFormat.FenceBalanceCorrected |
| src/controllers/atlassian.search.formatter.ts:14-47 | the table is looked up with `path.extname`, which is empty for `Dockerfile` and `.gitignore`, so the keys `dockerfile` and `.gitignore` never match a file of that name | `src/Dockerfile`, or `.gitignore` | a file named `Dockerfile` is hinted `dockerfile` and one named `.gitignore` is hinted `gitignore` | medium, not executed | SearchFormatter.NamedFilesAsWritten | SearchFormatter.NamedFiles |
| src/services/vendor.atlassian.search.service.ts:223-224 | `languageMapping[mappedLanguage]` reads inherited properties of the object literal | language `constructor` (sent as `lang:function Object() { [native code] }`) or `__proto__` (sent as `lang:[object Object]`) | only the five listed names are mapped; any other name passes through lower-cased | high, not executed | SearchService.ConstructorLanguage | SearchService.ApiLanguageTable |

In every row the operations the rest of the model builds on (`Transport.Fetch`,
`DiffFormat.FormatDiff`, the code-search result text and `SearchService.CodeSearchQuery`)
behave as written. The corrected definitions (`Transport.FetchCorrected`,
`DiffFormat.DiffLinesCorrected`, `SearchFormatter.LanguageHint`, `SearchService.ApiLanguage`)
stand beside them with their own lemmas.
