/**
 * The issues formatter: the Markdown answers of the issues tools. Dates are rendered by
 * `formatDate` and comment bodies by `optimizeBitbucketMarkdown`; both are parameters, as
 * the first reads the clock and the locale and the second is not part of this model.
 */
module IssuesFormatter {
  import opened Wrappers
  import opened Strings
  import opened Formatter

  /** The fields of an issue the formatter reads; a missing nested field is `None`. */
  datatype Issue = Issue(
    id: int, title: string,
    /** `content.raw` */
    content: Option<string>,
    state: Option<string>, kind: Option<string>, priority: Option<string>,
    /** `reporter.display_name` and `assignee.display_name` */
    reporter: Option<string>, assignee: Option<string>,
    createdOn: string, updatedOn: string,
    /** `links.html.href` */
    htmlHref: Option<string>,
    votes: Option<int>, watches: Option<int>)

  datatype IssueComment = IssueComment(
    id: int,
    /** `user.display_name` */
    author: Option<string>,
    createdOn: string, updatedOn: Option<string>,
    /** `content.raw` */
    content: Option<string>)

  const NoIssues := "No issues found matching your criteria."
  const NoComments := "No comments found on this issue."
  const NoDescription := "No description"

  /** `o || fallback` for an optional string. */
  function Or(o: Option<string>, fallback: string): (r: string)
    ensures Given(o) ==> r == o.value
    ensures !Given(o) ==> r == fallback
  {
    if Given(o) then o.value else fallback
  }

  /** The description in the list view: non-blank content cut to 150 characters, else `No description`. */
  function ListDescription(content: Option<string>): (r: string)
    ensures content.None? || IsBlank(content.value) ==> r == NoDescription
    ensures content.Some? && !IsBlank(content.value) && |content.value| <= 150 ==> r == content.value
    ensures content.Some? && !IsBlank(content.value) && |content.value| > 150 ==>
      |r| == 153 && StartsWith(r, content.value[..150]) && r[150..] == "..."
  {
    if content.Some? && content.value != "" && !IsBlank(content.value) then Ellipsize(content.value, 150)
    else NoDescription
  }

  /** The entries both views always show. */
  function BaseProperties(issue: Issue, formatDate: string -> string): seq<(string, Value)>
  {
    [("ID", VNum(issue.id)),
     ("State", VStr(Or(issue.state, "N/A"))),
     ("Kind", VStr(Or(issue.kind, "N/A"))),
     ("Priority", VStr(Or(issue.priority, "N/A"))),
     ("Reporter", VStr(Or(issue.reporter, "Unknown"))),
     ("Assignee", VStr(Or(issue.assignee, "Unassigned"))),
     ("Created", VStr(formatDate(issue.createdOn))),
     ("Updated", VStr(formatDate(issue.updatedOn)))]
  }

  /** The vote and watch counts, each only when the issue has the field. */
  function CountProperties(issue: Issue): seq<(string, Value)>
  {
    (if issue.votes.Some? then [("Votes", VNum(issue.votes.value))] else []) +
    (if issue.watches.Some? then [("Watchers", VNum(issue.watches.value))] else [])
  }

  /** The entries of one issue in the list view, in insertion order. */
  function ListProperties(issue: Issue, formatDate: string -> string): seq<(string, Value)>
  {
    BaseProperties(issue, formatDate) + [("Description", VStr(ListDescription(issue.content)))] + Url(issue) + CountProperties(issue)
  }

  /** The keys the list view always shows, in order. */
  const ListKeys := ["ID", "State", "Kind", "Priority", "Reporter", "Assignee", "Created", "Updated", "Description"]

  function Url(issue: Issue): seq<(string, Value)>
  {
    if Given(issue.htmlHref) then [("URL", VStr(FormatUrl(issue.htmlHref, Some("Issue #" + IntToString(issue.id)))))] else []
  }

  /**
   * The keys of the list view, in order: the nine fixed ones, then `URL`, `Votes` and
   * `Watchers`, each only when the issue has the field.
   */
  lemma ListPropertiesKeys(issue: Issue, formatDate: string -> string)
    ensures Keys(ListProperties(issue, formatDate)) == ListKeys +
      (if Given(issue.htmlHref) then ["URL"] else []) +
      (if issue.votes.Some? then ["Votes"] else []) +
      (if issue.watches.Some? then ["Watchers"] else [])
  {
    var base := BaseProperties(issue, formatDate) + [("Description", VStr(ListDescription(issue.content)))];
    KeysConcat(base + Url(issue), CountProperties(issue));
    KeysConcat(base, Url(issue));
    BaseKeys(issue, formatDate);
    CountKeys(issue);
    var url: seq<string> := if Given(issue.htmlHref) then ["URL"] else [];
    var votes: seq<string> := if issue.votes.Some? then ["Votes"] else [];
    var watches: seq<string> := if issue.watches.Some? then ["Watchers"] else [];
    assert Keys(Url(issue)) == url;
    AppendAssoc(ListKeys + url, votes, watches);
  }

  lemma BaseKeys(issue: Issue, formatDate: string -> string)
    ensures Keys(BaseProperties(issue, formatDate) + [("Description", VStr(ListDescription(issue.content)))]) == ListKeys
  {
  }

  lemma CountKeys(issue: Issue)
    ensures Keys(CountProperties(issue)) ==
      (if issue.votes.Some? then ["Votes"] else []) + (if issue.watches.Some? then ["Watchers"] else [])
  {
    var votes: seq<(string, Value)> := if issue.votes.Some? then [("Votes", VNum(issue.votes.value))] else [];
    var watches: seq<(string, Value)> := if issue.watches.Some? then [("Watchers", VNum(issue.watches.value))] else [];
    KeysConcat(votes, watches);
  }

  /** The heading of one issue in the list. */
  function IssueHeading(issue: Issue): string
  {
    FormatHeading("#" + IntToString(issue.id) + ": " + issue.title, 2)
  }

  /** The lines of one issue in the list: its heading, its bullet list, a blank line. */
  function IssueBlock(issue: Issue, formatDate: string -> string): seq<string>
  {
    [IssueHeading(issue), Bullets(ListProperties(issue, formatDate), formatDate), ""]
  }

  function IssueBlocks(issues: seq<Issue>, formatDate: string -> string): seq<string>
  {
    if |issues| == 0 then []
    else IssueBlocks(issues[..|issues| - 1], formatDate) + IssueBlock(issues[|issues| - 1], formatDate)
  }

  lemma IssueBlocksNext(issues: seq<Issue>, i: nat, formatDate: string -> string)
    requires i < |issues|
    ensures IssueBlocks(issues[..i + 1], formatDate) == IssueBlocks(issues[..i], formatDate) + IssueBlock(issues[i], formatDate)
  {
    assert issues[..i + 1][..i] == issues[..i];
  }

  /** One more pass of the loop appends the next issue's lines after those already written. */
  lemma IssueBlocksStep(head: seq<string>, issues: seq<Issue>, i: nat, formatDate: string -> string)
    requires i < |issues|
    ensures head + IssueBlocks(issues[..i], formatDate) + IssueBlock(issues[i], formatDate) ==
      head + IssueBlocks(issues[..i + 1], formatDate)
  {
    IssueBlocksNext(issues, i, formatDate);
  }

  /** Each issue takes three lines. */
  lemma {:induction false} IssueBlocksLength(issues: seq<Issue>, formatDate: string -> string)
    ensures |IssueBlocks(issues, formatDate)| == 3 * |issues|
  {
    if |issues| > 0 {
      IssueBlocksLength(issues[..|issues| - 1], formatDate);
    }
  }

  /** Line `3k` is the heading of issue `k`: the issues appear in input order. */
  lemma {:induction false} IssueHeadingAt(issues: seq<Issue>, k: nat, formatDate: string -> string)
    requires k < |issues|
    ensures |IssueBlocks(issues, formatDate)| == 3 * |issues|
    ensures IssueBlocks(issues, formatDate)[3 * k] == IssueHeading(issues[k])
  {
    var init := issues[..|issues| - 1];
    var done := IssueBlocks(init, formatDate);
    var block := IssueBlock(issues[|issues| - 1], formatDate);
    IssueBlocksLength(issues, formatDate);
    IssueBlocksLength(init, formatDate);
    assert IssueBlocks(issues, formatDate) == done + block;
    if k < |init| {
      IssueHeadingAt(init, k, formatDate);
      assert issues[k] == init[k];
      IndexOfAppend(done, block, 3 * k);
    } else {
      assert k == |init| && 3 * k == |done|;
      IndexOfAppend(done, block, 3 * k);
      IssueBlockHead(issues[k], formatDate);
    }
  }

  lemma IssueBlockHead(issue: Issue, formatDate: string -> string)
    ensures |IssueBlock(issue, formatDate)| == 3 && IssueBlock(issue, formatDate)[0] == IssueHeading(issue)
  {
  }

  /** `formatIssuesList(issuesData)`: the `for...of` loop over the issues. */
  method FormatIssuesList(issues: seq<Issue>, formatDate: string -> string) returns (r: string)
    ensures |issues| == 0 ==> r == NoIssues
    ensures |issues| > 0 ==> r == Join([FormatHeading("Issues", 1), ""] + IssueBlocks(issues, formatDate), "\n")
  {
    if |issues| == 0 {
      return NoIssues;
    }
    var lines := [FormatHeading("Issues", 1), ""];
    ghost var head := lines;
    for i := 0 to |issues|
      invariant lines == head + IssueBlocks(issues[..i], formatDate)
    {
      var block := IssueLines(issues[i], formatDate);
      IssueBlocksStep(head, issues, i, formatDate);
      lines := lines + block;
    }
    assert issues[..|issues|] == issues;
    r := Join(lines, "\n");
  }

  /** The pushes for one issue. */
  method IssueLines(issue: Issue, formatDate: string -> string) returns (lines: seq<string>)
    ensures lines == IssueBlock(issue, formatDate)
  {
    lines := [IssueHeading(issue)];
    var properties := ListProperties(issue, formatDate);
    var bulletList := FormatBulletList(properties, Some(SameKey), formatDate);
    lines := lines + [bulletList];
    lines := lines + [""];
  }

  // ---------------------------------------------------------------- details

  /** The issue has content worth a Description section: present and not blank. */
  predicate HasDescription(issue: Issue)
  {
    issue.content.Some? && !IsBlank(issue.content.value)
  }

  function DetailsHeading(issue: Issue): string
  {
    FormatHeading("Issue #" + IntToString(issue.id) + ": " + issue.title, 1)
  }

  /** The title, the Details heading and the bullet list of the fixed entries and counts. */
  function DetailsHead(issue: Issue, formatDate: string -> string): (r: seq<string>)
    ensures |r| == 5 && r[0] == DetailsHeading(issue)
  {
    [DetailsHeading(issue), "", FormatHeading("Details", 2),
     Bullets(BaseProperties(issue, formatDate) + CountProperties(issue), formatDate), ""]
  }

  /** The Description section: present exactly when the content is not blank. */
  function DescriptionSection(issue: Issue, optimize: string -> string): (r: seq<string>)
    ensures HasDescription(issue) ==> |r| == 4 && r[2] == optimize(issue.content.value)
    ensures !HasDescription(issue) ==> r == []
  {
    if issue.content.Some? && issue.content.value != "" && !IsBlank(issue.content.value) then
      [FormatHeading("Description", 2), "", optimize(issue.content.value), ""]
    else []
  }

  /** The Links section: present exactly when the issue has a web link. */
  function LinksSection(issue: Issue): (r: seq<string>)
    ensures Given(issue.htmlHref) ==> |r| == 4 && r[2] == "- " + FormatUrl(issue.htmlHref, Some("View in Bitbucket"))
    ensures !Given(issue.htmlHref) ==> r == []
  {
    if Given(issue.htmlHref) then [FormatHeading("Links", 2), "", "- " + FormatUrl(issue.htmlHref, Some("View in Bitbucket")), ""]
    else []
  }

  /** The lines of `formatIssueDetails(issue)`. */
  function DetailsLines(issue: Issue, formatDate: string -> string, optimize: string -> string): (r: seq<string>)
    ensures |r| == 5 + (if HasDescription(issue) then 4 else 0) + (if Given(issue.htmlHref) then 4 else 0)
    ensures r[0] == DetailsHeading(issue)
    ensures HasDescription(issue) ==> r[7] == optimize(issue.content.value)
    ensures Given(issue.htmlHref) ==> r[|r| - 2] == "- " + FormatUrl(issue.htmlHref, Some("View in Bitbucket"))
  {
    var head := DetailsHead(issue, formatDate);
    var description := DescriptionSection(issue, optimize);
    var links := LinksSection(issue);
    SectionsAt(head, description, links);
    head + description + links
  }

  /** Where the lines of three consecutive sections land in the whole. */
  lemma SectionsAt(head: seq<string>, description: seq<string>, links: seq<string>)
    requires |head| == 5 && (|description| == 0 || |description| == 4) && (|links| == 0 || |links| == 4)
    ensures var r := head + description + links;
      && r[0] == head[0]
      && (|description| == 4 ==> r[7] == description[2])
      && (|links| == 4 ==> r[|r| - 2] == links[2])
  {
  }

  /** `formatIssueDetails(issue)`. */
  function FormatIssueDetails(issue: Issue, formatDate: string -> string, optimize: string -> string): (r: string)
    ensures StartsWith(r, DetailsHeading(issue) + "\n")
  {
    var lines := DetailsLines(issue, formatDate, optimize);
    JoinFirst(lines, "\n");
    Join(lines, "\n")
  }

  // ---------------------------------------------------------------- comments

  /** The `Updated` line appears when the comment has an update time that differs from its creation time. */
  predicate UpdatedShown(c: IssueComment)
  {
    Given(c.updatedOn) && c.updatedOn.value != c.createdOn
  }

  function CommentHeading(c: IssueComment): string
  {
    FormatHeading("Comment #" + IntToString(c.id), 2)
  }

  /** The heading, author and posting time of a comment. */
  function CommentHead(c: IssueComment, formatDate: string -> string): (r: seq<string>)
    ensures |r| == 3 && r[0] == CommentHeading(c) && r[1] == "**Author**: " + Or(c.author, "Unknown")
  {
    [CommentHeading(c), "**Author**: " + Or(c.author, "Unknown"), "**Posted**: " + formatDate(c.createdOn)]
  }

  function UpdatedLine(c: IssueComment, formatDate: string -> string): (r: seq<string>)
    ensures UpdatedShown(c) ==> r == ["**Updated**: " + formatDate(c.updatedOn.value)]
    ensures !UpdatedShown(c) ==> r == []
  {
    if c.updatedOn.Some? && c.updatedOn.value != "" && c.updatedOn.value != c.createdOn then
      ["**Updated**: " + formatDate(c.updatedOn.value)]
    else []
  }

  function ContentLine(c: IssueComment, optimize: string -> string): (r: seq<string>)
    ensures Given(c.content) ==> r == [optimize(c.content.value)]
    ensures !Given(c.content) ==> r == []
  {
    if c.content.Some? && c.content.value != "" then [optimize(c.content.value)] else []
  }

  const CommentTail := ["", Separator, ""]

  /** The lines of one comment. */
  function CommentBlock(c: IssueComment, formatDate: string -> string, optimize: string -> string): (r: seq<string>)
    ensures |r| == 7 + (if UpdatedShown(c) then 1 else 0) + (if Given(c.content) then 1 else 0)
    ensures r[0] == CommentHeading(c)
    ensures r[1] == "**Author**: " + Or(c.author, "Unknown")
    ensures UpdatedShown(c) ==> r[3] == "**Updated**: " + formatDate(c.updatedOn.value)
    ensures !UpdatedShown(c) ==> r[3] == ""
    ensures r[|r| - 3..] == CommentTail
  {
    var r := CommentHead(c, formatDate) + UpdatedLine(c, formatDate) + [""] + ContentLine(c, optimize) + CommentTail;
    assert r[|r| - 3..] == CommentTail;
    r
  }

  function CommentBlocks(comments: seq<IssueComment>, formatDate: string -> string, optimize: string -> string): seq<string>
  {
    if |comments| == 0 then []
    else CommentBlocks(comments[..|comments| - 1], formatDate, optimize) + CommentBlock(comments[|comments| - 1], formatDate, optimize)
  }

  lemma CommentBlocksNext(comments: seq<IssueComment>, i: nat, formatDate: string -> string, optimize: string -> string)
    requires i < |comments|
    ensures CommentBlocks(comments[..i + 1], formatDate, optimize) ==
      CommentBlocks(comments[..i], formatDate, optimize) + CommentBlock(comments[i], formatDate, optimize)
  {
    assert comments[..i + 1][..i] == comments[..i];
  }

  /** One more pass of the loop appends the next comment's lines after those already written. */
  lemma CommentBlocksStep(head: seq<string>, comments: seq<IssueComment>, i: nat, formatDate: string -> string, optimize: string -> string)
    requires i < |comments|
    ensures head + CommentBlocks(comments[..i], formatDate, optimize) + CommentBlock(comments[i], formatDate, optimize) ==
      head + CommentBlocks(comments[..i + 1], formatDate, optimize)
  {
    CommentBlocksNext(comments, i, formatDate, optimize);
  }

  /** Every comment closes with a separator line, so the list ends with one. */
  lemma CommentBlocksEnd(comments: seq<IssueComment>, formatDate: string -> string, optimize: string -> string)
    requires |comments| > 0
    ensures var r := CommentBlocks(comments, formatDate, optimize);
      |r| >= 7 && r[|r| - 3..] == CommentTail
  {
    var init := comments[..|comments| - 1];
    var b := CommentBlock(comments[|comments| - 1], formatDate, optimize);
    var r := CommentBlocks(comments, formatDate, optimize);
    assert r == CommentBlocks(init, formatDate, optimize) + b;
    SuffixOfAppend(CommentBlocks(init, formatDate, optimize), b, 3);
  }

  /** `formatCommentsList(commentsData)`: the `for...of` loop over the comments. */
  method FormatCommentsList(comments: seq<IssueComment>, formatDate: string -> string, optimize: string -> string) returns (r: string)
    ensures |comments| == 0 ==> r == NoComments
    ensures |comments| > 0 ==> r == Join([FormatHeading("Comments", 1), ""] + CommentBlocks(comments, formatDate, optimize), "\n")
  {
    if |comments| == 0 {
      return NoComments;
    }
    var lines := [FormatHeading("Comments", 1), ""];
    ghost var head := lines;
    for i := 0 to |comments|
      invariant lines == head + CommentBlocks(comments[..i], formatDate, optimize)
    {
      var block := CommentLines(comments[i], formatDate, optimize);
      CommentBlocksStep(head, comments, i, formatDate, optimize);
      lines := lines + block;
    }
    assert comments[..|comments|] == comments;
    r := Join(lines, "\n");
  }

  /** The pushes for one comment. */
  method CommentLines(comment: IssueComment, formatDate: string -> string, optimize: string -> string) returns (lines: seq<string>)
    ensures lines == CommentBlock(comment, formatDate, optimize)
  {
    lines := [CommentHeading(comment)];
    var author := Or(comment.author, "Unknown");
    var timestamp := formatDate(comment.createdOn);
    lines := lines + ["**Author**: " + author];
    lines := lines + ["**Posted**: " + timestamp];
    assert lines == CommentHead(comment, formatDate);
    if comment.updatedOn.Some? && comment.updatedOn.value != "" && comment.updatedOn.value != comment.createdOn {
      lines := lines + ["**Updated**: " + formatDate(comment.updatedOn.value)];
    }
    lines := lines + [""];
    ghost var upper := lines;
    assert upper == CommentHead(comment, formatDate) + UpdatedLine(comment, formatDate) + [""];
    if comment.content.Some? && comment.content.value != "" {
      lines := lines + [optimize(comment.content.value)];
    }
    assert lines == upper + ContentLine(comment, optimize);
    lines := lines + [""];
    lines := lines + [Separator];
    lines := lines + [""];
    assert lines == upper + ContentLine(comment, optimize) + CommentTail;
  }

  // ---------------------------------------------------------------- success messages

  /** The first line of `formatIssueSuccess(issue, action)`. */
  function SuccessHead(issue: Issue, action: string): string
  {
    "✓ Issue " + action + ": #" + IntToString(issue.id) + " - " + issue.title
  }

  /** The brief details closing a success message. */
  function SuccessDetails(issue: Issue, formatDate: string -> string): string
  {
    Bullets([("State", VStr(Or(issue.state, "N/A"))), ("Kind", VStr(Or(issue.kind, "N/A"))),
      ("Priority", VStr(Or(issue.priority, "N/A")))], formatDate)
  }

  function SuccessLink(issue: Issue): (r: seq<string>)
    ensures Given(issue.htmlHref) ==> r == ["View at: " + issue.htmlHref.value, ""]
    ensures !Given(issue.htmlHref) ==> r == []
  {
    if Given(issue.htmlHref) then ["View at: " + issue.htmlHref.value, ""] else []
  }

  /** `formatIssueSuccess(issue, action)`. */
  function FormatIssueSuccess(issue: Issue, action: string, formatDate: string -> string): (r: string)
    ensures StartsWith(r, SuccessHead(issue, action) + "\n\n")
    ensures Given(issue.htmlHref) ==> StartsWith(r, SuccessHead(issue, action) + "\n\n" + ("View at: " + issue.htmlHref.value) + "\n")
    ensures EndsWith(r, "\n" + SuccessDetails(issue, formatDate))
  {
    var middle := SuccessLink(issue);
    var last := SuccessDetails(issue, formatDate);
    DoubleNewline();
    MessageShape(SuccessHead(issue, action), middle, last, "\n", "\n\n");
    Join([SuccessHead(issue, action), ""] + middle + [last], "\n")
  }

  /** The first line of `formatCommentSuccess(comment)`. */
  function CommentSuccessHead(comment: IssueComment): string
  {
    "✓ Comment #" + IntToString(comment.id) + " added successfully"
  }

  /** The author, when known, and the posting time. */
  function CommentSuccessMiddle(comment: IssueComment, formatDate: string -> string): (r: seq<string>)
    ensures |r| > 0
  {
    (if Given(comment.author) then ["**Author**: " + comment.author.value] else []) +
    ["**Posted**: " + formatDate(comment.createdOn)]
  }

  /** The preview line: the content cut to 100 characters. */
  function Preview(content: string): (r: string)
    ensures |content| <= 100 ==> r == "**Content**: " + content
    ensures |content| > 100 ==> r == "**Content**: " + content[..100] + "..."
  {
    "**Content**: " + (if |content| > 100 then content[..100] + "..." else content)
  }

  /** `formatCommentSuccess(comment)`. */
  function FormatCommentSuccess(comment: IssueComment, formatDate: string -> string): (r: string)
    ensures StartsWith(r, CommentSuccessHead(comment) + "\n\n")
    ensures Given(comment.content) ==> EndsWith(r, "\n" + Preview(comment.content.value))
    ensures !Given(comment.content) ==> EndsWith(r, "\n")
  {
    var middle := CommentSuccessMiddle(comment, formatDate);
    if comment.content.Some? && comment.content.value != "" then
      DoubleNewline();
      MessageShape(CommentSuccessHead(comment), middle + [""], Preview(comment.content.value), "\n", "\n\n");
      Join([CommentSuccessHead(comment), ""] + (middle + [""]) + [Preview(comment.content.value)], "\n")
    else
      DoubleNewline();
      MessageShape(CommentSuccessHead(comment), middle, "", "\n", "\n\n");
      assert "\n" + "" == "\n";
      Join([CommentSuccessHead(comment), ""] + middle + [""], "\n")
  }
}
