/**
 * The pull requests formatter: the Markdown answers of the pull request tools. Dates are
 * rendered by `formatDate`, comment bodies by `optimizeBitbucketMarkdown` (`optimize`), and
 * the time in the closing footer is the `retrievedAt` text; all three are parameters.
 */
module PullRequestsFormatter {
  import opened Wrappers
  import opened Strings
  import opened Formatter
  import DiffFormat

  /** The fields of a pull request the formatter reads; a missing nested field is `None`. */
  datatype PullRequest = PullRequest(
    id: int, title: string, state: string,
    /** `summary.raw` and `summary.markup` */
    summaryRaw: Option<string>, summaryMarkup: Option<string>,
    /** `rendered.description.raw` */
    renderedDescription: Option<string>,
    /** `author.display_name` and `author.nickname` */
    authorName: Option<string>, authorNickname: Option<string>,
    createdOn: string, updatedOn: string,
    /** `source.branch.name`, `destination.branch.name` and `destination.repository.full_name` */
    sourceBranch: Option<string>, destinationBranch: Option<string>, repository: string,
    commentCount: Option<int>, taskCount: Option<int>,
    /** `reviewers[].display_name` */
    reviewers: seq<string>,
    /** `links.html.href`, `links.commits.href`, `links.comments.href` and `links.diff.href` */
    htmlHref: Option<string>, commitsHref: Option<string>, commentsHref: Option<string>, diffHref: Option<string>)

  const NoPullRequests := "No pull requests found matching your criteria."
  const NoDescriptionProvided := "No description provided"

  /** `o || fallback` for an optional string. */
  function OrElse(o: Option<string>, fallback: string): (r: string)
    ensures Given(o) ==> r == o.value
    ensures !Given(o) ==> r == fallback
  {
    if Given(o) then o.value else fallback
  }

  /** An optional field placed in a bullet list: `undefined` when missing. */
  function Field(o: Option<string>): Value
  {
    if o.Some? then VStr(o.value) else VUndefined
  }

  /** The closing lines of every view: a separator and the retrieval time. */
  function Footer(retrievedAt: string): seq<string>
  {
    [FooterRule, RetrievedLine(retrievedAt)]
  }

  const FooterRule := "\n\n" + Separator

  function RetrievedLine(retrievedAt: string): string
  {
    "*Information retrieved at: " + retrievedAt + "*"
  }

  // ---------------------------------------------------------------- list view

  /** The description in the list view, before it is cut. */
  function ChosenDescription(pr: PullRequest): (r: string)
    ensures pr.summaryRaw.Some? && !IsBlank(pr.summaryRaw.value) ==> r == pr.summaryRaw.value
    ensures ((pr.summaryRaw.None? || IsBlank(pr.summaryRaw.value)) &&
      pr.summaryMarkup.Some? && !IsBlank(pr.summaryMarkup.value) && pr.summaryMarkup.value != "markdown") ==>
      r == pr.summaryMarkup.value
    ensures ((pr.summaryRaw.None? || IsBlank(pr.summaryRaw.value)) &&
      (pr.summaryMarkup.None? || IsBlank(pr.summaryMarkup.value) || pr.summaryMarkup.value == "markdown")) ==>
      r == NoDescriptionProvided
  {
    if pr.summaryRaw.Some? && pr.summaryRaw.value != "" && !IsBlank(pr.summaryRaw.value) then pr.summaryRaw.value
    else if pr.summaryMarkup.Some? && pr.summaryMarkup.value != "" && !IsBlank(pr.summaryMarkup.value) &&
      pr.summaryMarkup.value != "markdown" then pr.summaryMarkup.value
    else NoDescriptionProvided
  }

  /** The description in the list view: the chosen text, cut to 150 characters and `...`. */
  function ListDescription(pr: PullRequest): (r: string)
    ensures |ChosenDescription(pr)| <= 150 ==> r == ChosenDescription(pr)
    ensures |ChosenDescription(pr)| > 150 ==>
      |r| == 153 && StartsWith(r, ChosenDescription(pr)[..150]) && r[150..] == "..."
  {
    Ellipsize(ChosenDescription(pr), 150)
  }

  /** The author in the list view: the display name, else the nickname, else `Unknown`. */
  function ListAuthor(pr: PullRequest): (r: string)
    ensures Given(pr.authorName) ==> r == pr.authorName.value
    ensures !Given(pr.authorName) && Given(pr.authorNickname) ==> r == pr.authorNickname.value
    ensures !Given(pr.authorName) && !Given(pr.authorNickname) ==> r == "Unknown"
  {
    OrElse(pr.authorName, OrElse(pr.authorNickname, "Unknown"))
  }

  /** The entries of one pull request in the list view, in insertion order. */
  function ListProperties(pr: PullRequest, formatDate: string -> string): seq<(string, Value)>
  {
    [("ID", VNum(pr.id)),
     ("State", VStr(pr.state)),
     ("Author", VStr(ListAuthor(pr))),
     ("Created", VStr(formatDate(pr.createdOn))),
     ("Updated", VStr(formatDate(pr.updatedOn))),
     ("Source Branch", VStr(OrElse(pr.sourceBranch, "Unknown"))),
     ("Destination Branch", VStr(OrElse(pr.destinationBranch, "Unknown"))),
     ("Description", VStr(ListDescription(pr))),
     ("URL", VStr(if Given(pr.htmlHref) then FormatUrl(pr.htmlHref, Some("PR #" + IntToString(pr.id))) else "N/A"))]
  }

  /** The heading of one pull request in the list. */
  function ListHeading(pr: PullRequest): string
  {
    FormatHeading("#" + IntToString(pr.id) + ": " + pr.title, 2)
  }

  /** The numbered-list formatter: the heading line, then the bullet list. */
  function ListItem(pr: PullRequest, index: int, formatDate: string -> string): (r: string)
    ensures StartsWith(r, ListHeading(pr) + "\n")
  {
    var heading := ListHeading(pr);
    var bullets := Bullets(ListProperties(pr, formatDate), formatDate);
    JoinPairStarts(heading, bullets, "\n");
    Join([heading, bullets], "\n")
  }

  /** `formatPullRequestsList(pullRequestsData)`; a missing `values` list is the empty one. */
  function FormatPullRequestsList(pullRequests: seq<PullRequest>, formatDate: string -> string, retrievedAt: string): (r: string)
    ensures |pullRequests| == 0 ==> r == NoPullRequests
    ensures |pullRequests| > 0 ==> StartsWith(r, FormatHeading("Bitbucket Pull Requests", 1) + "\n\n")
    ensures |pullRequests| > 0 ==> EndsWith(r, "\n" + RetrievedLine(retrievedAt))
  {
    if |pullRequests| == 0 then NoPullRequests
    else
      var heading := FormatHeading("Bitbucket Pull Requests", 1);
      var list := FormatNumberedList(pullRequests, (pr, index) => ListItem(pr, index, formatDate));
      DoubleNewline();
      MessageShape(heading, [list, FooterRule], RetrievedLine(retrievedAt), "\n", "\n\n");
      Join([heading, ""] + [list, FooterRule] + [RetrievedLine(retrievedAt)], "\n")
  }

  // ---------------------------------------------------------------- file changes

  /** One entry of the diffstat: the line counts and the old and new paths, each possibly missing. */
  datatype DiffstatEntry = DiffstatEntry(linesAdded: Option<int>, linesRemoved: Option<int>, oldPath: Option<string>, newPath: Option<string>)

  const MaxFilesToShow := 10

  /** A count as the totals use it: a missing count adds nothing. */
  function Count(o: Option<int>): int
  {
    if o.Some? then o.value else 0
  }

  /** A count is truthy when present and not zero. */
  predicate Truthy(o: Option<int>)
  {
    o.Some? && o.value != 0
  }

  /** The sum of `lines_added` over the entries, a missing count taken as zero. */
  function TotalAdded(files: seq<DiffstatEntry>): int
  {
    if |files| == 0 then 0 else TotalAdded(files[..|files| - 1]) + Count(files[|files| - 1].linesAdded)
  }

  /** The sum of `lines_removed` over the entries, a missing count taken as zero. */
  function TotalRemoved(files: seq<DiffstatEntry>): int
  {
    if |files| == 0 then 0 else TotalRemoved(files[..|files| - 1]) + Count(files[|files| - 1].linesRemoved)
  }

  /** The totals add up over a split of the entries. */
  lemma {:induction false} TotalsConcat(a: seq<DiffstatEntry>, b: seq<DiffstatEntry>)
    ensures TotalAdded(a + b) == TotalAdded(a) + TotalAdded(b)
    ensures TotalRemoved(a + b) == TotalRemoved(a) + TotalRemoved(b)
    decreases |b|
  {
    if |b| > 0 {
      var init := b[..|b| - 1];
      assert (a + b)[..|a + b| - 1] == a + init;
      TotalsConcat(a, init);
    } else {
      assert a + b == a;
    }
  }

  /** Entries that report no change leave the totals at zero. */
  lemma {:induction false} TotalsOfUnchanged(files: seq<DiffstatEntry>)
    requires forall i :: 0 <= i < |files| ==> !Truthy(files[i].linesAdded) && !Truthy(files[i].linesRemoved)
    ensures TotalAdded(files) == 0 && TotalRemoved(files) == 0
  {
    if |files| > 0 {
      TotalsOfUnchanged(files[..|files| - 1]);
    }
  }

  /** The `forEach` that accumulates the totals: only truthy counts are added. */
  method Totals(files: seq<DiffstatEntry>) returns (totalAdditions: int, totalDeletions: int)
    ensures totalAdditions == TotalAdded(files) && totalDeletions == TotalRemoved(files)
  {
    totalAdditions := 0;
    totalDeletions := 0;
    for i := 0 to |files|
      invariant totalAdditions == TotalAdded(files[..i]) && totalDeletions == TotalRemoved(files[..i])
    {
      assert files[..i + 1][..i] == files[..i];
      var file := files[i];
      if Truthy(file.linesAdded) {
        totalAdditions := totalAdditions + file.linesAdded.value;
      }
      if Truthy(file.linesRemoved) {
        totalDeletions := totalDeletions + file.linesRemoved.value;
      }
    }
    assert files[..|files|] == files;
  }

  /** The summary line, with a singular noun exactly for a count of one. */
  function SummaryLine(totalFiles: int, totalAdditions: int, totalDeletions: int): string
  {
    IntToString(totalFiles) + " " + Noun(totalFiles, "file") + " changed with " +
    IntToString(totalAdditions) + " " + Noun(totalAdditions, "insertion") + " and " +
    IntToString(totalDeletions) + " " + Noun(totalDeletions, "deletion")
  }

  /** The path shown for a file: the old path when given, else the new one (`undefined` when missing). */
  function FilePath(file: DiffstatEntry): string
  {
    if Given(file.oldPath) then file.oldPath.value else Interpolate(file.newPath)
  }

  /** The `(+a, -r)` suffix: only truthy counts appear, and nothing when neither does. */
  function ChangeText(file: DiffstatEntry): (r: string)
    ensures !Truthy(file.linesAdded) && !Truthy(file.linesRemoved) <==> r == ""
  {
    var changes := (if Truthy(file.linesAdded) then ["+" + IntToString(file.linesAdded.value)] else []) +
      (if Truthy(file.linesRemoved) then ["-" + IntToString(file.linesRemoved.value)] else []);
    if |changes| > 0 then
      var r := " (" + Join(changes, ", ") + ")";
      assert r[0] == ' ';
      r
    else ""
  }

  function FileLine(file: DiffstatEntry): string
  {
    "- `" + FilePath(file) + "`" + ChangeText(file)
  }

  /** The line that closes a list cut at ten files. */
  function MoreFilesLine(totalFiles: int): string
  {
    "- ... and " + IntToString(totalFiles - MaxFilesToShow) + " more files"
  }

  /** One line per file, in order. */
  function FileLines(files: seq<DiffstatEntry>): (r: seq<string>)
    ensures |r| == |files|
    ensures forall i :: 0 <= i < |files| ==> r[i] == FileLine(files[i])
  {
    seq(|files|, i requires 0 <= i < |files| => FileLine(files[i]))
  }

  /** The files listed: the first ten. */
  function Shown(files: seq<DiffstatEntry>): (r: seq<DiffstatEntry>)
    ensures |r| <= MaxFilesToShow && |r| <= |files| && r == files[..|r|]
    ensures |files| <= MaxFilesToShow ==> r == files
  {
    if |files| > MaxFilesToShow then files[..MaxFilesToShow] else files
  }

  /** The lines of the listed files: the first ten, then the count of the others when there are more. */
  function FileList(files: seq<DiffstatEntry>): (r: seq<string>)
    ensures |files| <= MaxFilesToShow ==> |r| == |files|
    ensures |files| > MaxFilesToShow ==> |r| == MaxFilesToShow + 1 && r[MaxFilesToShow] == MoreFilesLine(|files|)
    ensures forall i :: 0 <= i < |files| && i < MaxFilesToShow ==> r[i] == FileLine(files[i])
  {
    FileLines(Shown(files)) + MoreFiles(files)
  }

  function MoreFiles(files: seq<DiffstatEntry>): seq<string>
  {
    if |files| > MaxFilesToShow then [MoreFilesLine(|files|)] else []
  }

  /** The File Changes section, for a diffstat with at least one entry: heading, summary, file list. */
  function FileChangesSection(files: seq<DiffstatEntry>): seq<string>
    requires |files| > 0
  {
    ["", FormatHeading("File Changes", 2)] + [SummaryLine(|files|, TotalAdded(files), TotalRemoved(files))] + [""] +
    FileLines(Shown(files)) + MoreFiles(files)
  }

  /** The pushes of the File Changes section. */
  method FileChanges(files: seq<DiffstatEntry>) returns (lines: seq<string>)
    requires |files| > 0
    ensures lines == FileChangesSection(files)
  {
    lines := ["", FormatHeading("File Changes", 2)];
    var totalFiles := |files|;
    var totalAdditions, totalDeletions := Totals(files);
    lines := lines + [SummaryLine(totalFiles, totalAdditions, totalDeletions)];
    if totalFiles > 0 {
      lines := lines + [""];
      ghost var head := lines;
      var shown := Shown(files);
      for i := 0 to |shown|
        invariant lines == head + FileLines(shown[..i])
      {
        FileLinesStep(shown, i);
        AppendAssoc(head, FileLines(shown[..i]), [FileLine(shown[i])]);
        lines := lines + [FileLine(shown[i])];
      }
      assert shown[..|shown|] == shown;
      if totalFiles > MaxFilesToShow {
        lines := lines + [MoreFilesLine(totalFiles)];
      } else {
        assert lines == lines + MoreFiles(files);
      }
    }
  }

  lemma FileLinesStep(files: seq<DiffstatEntry>, i: nat)
    requires i < |files|
    ensures FileLines(files[..i]) + [FileLine(files[i])] == FileLines(files[..i + 1])
  {
    var a := FileLines(files[..i]) + [FileLine(files[i])];
    var b := FileLines(files[..i + 1]);
    assert |a| == |b|;
    forall k | 0 <= k < |a|
      ensures a[k] == b[k]
    {
      if k < i {
        assert files[..i][k] == files[k];
      }
    }
  }

  // ---------------------------------------------------------------- comment threads

  /** `inline.from` or `inline.to`: absent, JSON `null`, or a line number. */
  datatype LineRef = Absent | Null | LineNo(n: int)

  datatype Inline = Inline(path: string, from: LineRef, to: LineRef)

  /** The fields of a comment the formatter reads, with the code snippet the controller may attach. */
  datatype Comment = Comment(
    id: int,
    /** `parent.id`, when the comment answers another */
    parent: Option<int>,
    /** `user.display_name` */
    author: Option<string>,
    createdOn: string, updatedOn: Option<string>,
    deleted: bool,
    /** `content.raw` */
    content: string,
    inline: Option<Inline>,
    codeSnippet: Option<string>,
    /** `links.code.href` and `links.html.href` */
    codeHref: Option<string>, htmlHref: Option<string>)

  /** The top-level comments, in input order. */
  function TopLevel(comments: seq<Comment>): (r: seq<Comment>)
    ensures forall c :: c in r ==> c in comments && c.parent.None?
  {
    if |comments| == 0 then []
    else
      var last := comments[|comments| - 1];
      TopLevel(comments[..|comments| - 1]) + (if last.parent.None? then [last] else [])
  }

  /** The answers to the comment `parentId`, in input order. */
  function RepliesTo(comments: seq<Comment>, parentId: int): (r: seq<Comment>)
    ensures forall c :: c in r ==> c in comments && c.parent == Some(parentId)
  {
    if |comments| == 0 then []
    else
      var last := comments[|comments| - 1];
      RepliesTo(comments[..|comments| - 1], parentId) + (if last.parent == Some(parentId) then [last] else [])
  }

  /** All comments that answer another, in input order. */
  function Replies(comments: seq<Comment>): seq<Comment>
  {
    if |comments| == 0 then []
    else
      var last := comments[|comments| - 1];
      Replies(comments[..|comments| - 1]) + (if last.parent.Some? then [last] else [])
  }

  /** `childComments[id] || []`. */
  function RepliesOf(childComments: map<int, seq<Comment>>, id: int): seq<Comment>
  {
    if id in childComments then childComments[id] else []
  }

  /** The first pass: each comment goes to the top level or to the bucket of its parent. */
  method GroupComments(comments: seq<Comment>) returns (topLevelComments: seq<Comment>, childComments: map<int, seq<Comment>>)
    ensures topLevelComments == TopLevel(comments)
    ensures forall id :: RepliesOf(childComments, id) == RepliesTo(comments, id)
    ensures forall id :: id in childComments ==> |childComments[id]| > 0
  {
    topLevelComments := [];
    childComments := map[];
    for i := 0 to |comments|
      invariant topLevelComments == TopLevel(comments[..i])
      invariant forall id :: RepliesOf(childComments, id) == RepliesTo(comments[..i], id)
      invariant forall id :: id in childComments ==> |childComments[id]| > 0
    {
      var comment := comments[i];
      GroupNext(comments, i);
      if comment.parent.Some? {
        childComments := PushChild(childComments, comment.parent.value, comment);
      } else {
        topLevelComments := topLevelComments + [comment];
      }
    }
    assert comments[..|comments|] == comments;
  }

  /** `childComments[parentId].push(comment)`, creating the bucket first when there is none. */
  method PushChild(childComments: map<int, seq<Comment>>, parentId: int, comment: Comment) returns (m: map<int, seq<Comment>>)
    requires forall id :: id in childComments ==> |childComments[id]| > 0
    ensures forall id :: RepliesOf(m, id) == RepliesOf(childComments, id) + (if id == parentId then [comment] else [])
    ensures forall id :: id in m ==> |m[id]| > 0
  {
    m := childComments;
    if parentId !in m {
      m := m[parentId := []];
    }
    m := m[parentId := m[parentId] + [comment]];
  }

  /** One more comment extends exactly one bucket. */
  lemma GroupNext(comments: seq<Comment>, i: nat)
    requires i < |comments|
    ensures var c := comments[i];
      TopLevel(comments[..i + 1]) == TopLevel(comments[..i]) + (if c.parent.None? then [c] else [])
    ensures var c := comments[i];
      forall id :: RepliesTo(comments[..i + 1], id) == RepliesTo(comments[..i], id) + (if c.parent == Some(id) then [c] else [])
  {
    assert comments[..i + 1][..i] == comments[..i];
  }

  /** The first pass loses no comment and invents none: the top level and the answers make up the input. */
  lemma {:induction false} Partition(comments: seq<Comment>)
    ensures multiset(TopLevel(comments)) + multiset(Replies(comments)) == multiset(comments)
  {
    if |comments| > 0 {
      var init := comments[..|comments| - 1];
      var last := comments[|comments| - 1];
      Partition(init);
      assert comments == init + [last];
      PartitionStep(init, last);
    }
  }

  lemma PartitionStep(init: seq<Comment>, last: Comment)
    ensures multiset(TopLevel(init + [last])) + multiset(Replies(init + [last])) ==
      multiset(TopLevel(init)) + multiset(Replies(init)) + multiset{last}
  {
    var comments := init + [last];
    assert comments[..|comments| - 1] == init;
  }

  /** An answer lands in the bucket of its parent. */
  lemma {:induction false} ReplyInItsBucket(comments: seq<Comment>, i: nat)
    requires i < |comments| && comments[i].parent.Some?
    ensures comments[i] in RepliesTo(comments, comments[i].parent.value)
  {
    var init := comments[..|comments| - 1];
    if i < |init| {
      ReplyInItsBucket(init, i);
      assert init[i] == comments[i];
    }
  }

  /** A comment without a parent lands at the top level. */
  lemma {:induction false} TopInTopLevel(comments: seq<Comment>, i: nat)
    requires i < |comments| && comments[i].parent.None?
    ensures comments[i] in TopLevel(comments)
  {
    var init := comments[..|comments| - 1];
    if i < |init| {
      TopInTopLevel(init, i);
      assert init[i] == comments[i];
    }
  }

  /** Each comment lands in exactly one bucket: the top level or the bucket of its own parent. */
  lemma ExactlyOneBucket(comments: seq<Comment>, i: nat)
    requires i < |comments|
    ensures var c := comments[i];
      && (c in TopLevel(comments) <==> c.parent.None?)
      && forall id :: c in RepliesTo(comments, id) <==> c.parent == Some(id)
  {
    var c := comments[i];
    if c.parent.Some? {
      ReplyInItsBucket(comments, i);
    } else {
      TopInTopLevel(comments, i);
    }
  }

  /**
   * Answers are rendered only under top-level comments: an answer to a comment that is itself
   * an answer is in no bucket the views render.
   */
  lemma NoNestedReplies(comments: seq<Comment>, reply: Comment)
    requires reply.parent.Some?
    requires forall c :: c in comments && c.id == reply.parent.value ==> c.parent.Some?
    ensures forall t :: t in TopLevel(comments) ==> reply !in RepliesTo(comments, t.id)
  {
    forall t | t in TopLevel(comments)
      ensures reply !in RepliesTo(comments, t.id)
    {
      assert t in comments && t.parent.None?;
    }
  }

  // ---------------------------------------------------------------- one comment

  const DeletedNotice := "*This comment has been deleted.*"
  const NoContentNotice := "*No content provided.*"

  /** `${ref}` of a line reference. */
  function LineText(ref: LineRef): string
  {
    match ref
    case Absent => "undefined"
    case Null => "null"
    case LineNo(n) => IntToString(n)
  }

  /** The line information of an inline comment: the changed range, the line, or nothing. */
  function LineInfo(inl: Inline): string
  {
    if !inl.from.Absent? && !inl.to.Absent? then "(changed line " + LineText(inl.from) + " -> " + LineText(inl.to) + ")"
    else if !inl.to.Absent? then "(line " + LineText(inl.to) + ")"
    else ""
  }

  /**
   * A range is shown exactly when both ends are present (a JSON `null` counts as present);
   * there is no line information exactly when `to` is absent.
   */
  lemma LineInfoCases(inl: Inline)
    ensures StartsWith(LineInfo(inl), "(changed line ") <==> !inl.from.Absent? && !inl.to.Absent?
    ensures LineInfo(inl) == "" <==> inl.to.Absent?
  {
    var r := LineInfo(inl);
    if !inl.from.Absent? && !inl.to.Absent? {
      var tail := LineText(inl.from) + " -> " + LineText(inl.to) + ")";
      assert r == "(changed line " + tail;
      Prefixes("(changed line ", tail);
    } else if !inl.to.Absent? {
      assert r[1] == 'l';
    }
  }

  /** The author shown for a comment or an answer. */
  function CommentAuthor(c: Comment): (r: string)
    ensures Given(c.author) ==> r == c.author.value
    ensures !Given(c.author) ==> r == "Unknown User"
  {
    OrElse(c.author, "Unknown User")
  }

  function HeaderText(c: Comment): string
  {
    (if c.deleted then "[DELETED] Comment by " else "Comment by ") + CommentAuthor(c)
  }

  /** The body line: the deletion notice, else the optimised content, else the no-content notice. */
  function Body(c: Comment, optimize: string -> string): (r: string)
    ensures c.deleted ==> r == DeletedNotice
    ensures !c.deleted && optimize(c.content) != "" ==> r == optimize(c.content)
    ensures !c.deleted && optimize(c.content) == "" ==> r == NoContentNotice
    ensures r != ""
  {
    if c.deleted then DeletedNotice
    else if optimize(c.content) != "" then optimize(c.content)
    else NoContentNotice
  }

  function UpdatedLines(c: Comment, formatDate: string -> string): (r: seq<string>)
    ensures Given(c.updatedOn) && c.updatedOn.value != c.createdOn ==> r == ["*Updated on " + formatDate(c.updatedOn.value) + "*"]
    ensures !(Given(c.updatedOn) && c.updatedOn.value != c.createdOn) ==> r == []
  {
    if Given(c.updatedOn) && c.updatedOn.value != c.createdOn then ["*Updated on " + formatDate(c.updatedOn.value) + "*"] else []
  }

  /** The file and line of an inline comment. */
  function InlineLines(c: Comment): seq<string>
  {
    if c.inline.Some? then ["**Inline Comment: File: `" + c.inline.value.path + "`** " + LineInfo(c.inline.value)] else []
  }

  /** The code snippet of an inline comment in a diff block, else a link to the code. */
  function SnippetLines(c: Comment): seq<string>
  {
    if c.inline.None? then []
    else if Given(c.codeSnippet) then ["", "```diff", c.codeSnippet.value, "```"]
    else if Given(c.codeHref) then ["[View code context in browser](" + c.codeHref.value + ")"]
    else []
  }

  function ThreadLinkLines(c: Comment): seq<string>
  {
    if Given(c.htmlHref) then ["", "[View full comment thread in browser](" + c.htmlHref.value + ")"] else []
  }

  /** The lines `formatComment` appends for one comment. */
  function CommentLines(c: Comment, formatDate: string -> string, optimize: string -> string): seq<string>
  {
    [FormatHeading(HeaderText(c), 3)] + ["*Posted on " + formatDate(c.createdOn) + "*"] + UpdatedLines(c, formatDate) +
    InlineLines(c) + SnippetLines(c) + [""] + [Body(c, optimize)] + ThreadLinkLines(c)
  }

  /** Where the heading and the body sit among a comment's lines. */
  lemma CommentLinesShape(c: Comment, formatDate: string -> string, optimize: string -> string)
    ensures var r := CommentLines(c, formatDate, optimize);
      var k := 2 + |UpdatedLines(c, formatDate)| + |InlineLines(c)| + |SnippetLines(c)|;
      && |r| == k + 2 + |ThreadLinkLines(c)|
      && r[0] == FormatHeading(HeaderText(c), 3)
      && r[k] == ""
      && r[k + 1] == Body(c, optimize)
  {
    var head := [FormatHeading(HeaderText(c), 3)] + ["*Posted on " + formatDate(c.createdOn) + "*"] + UpdatedLines(c, formatDate) +
      InlineLines(c) + SnippetLines(c);
    var r := CommentLines(c, formatDate, optimize);
    assert r == head + [""] + [Body(c, optimize)] + ThreadLinkLines(c);
    assert r[0] == head[0];
  }

  /** A deleted comment is marked in its heading and shows the deletion notice instead of its content. */
  lemma DeletedComment(c: Comment, formatDate: string -> string, optimize: string -> string)
    requires c.deleted
    ensures var r := CommentLines(c, formatDate, optimize);
      && r[0] == FormatHeading("[DELETED] Comment by " + CommentAuthor(c), 3)
      && DeletedNotice in r
  {
    CommentLinesShape(c, formatDate, optimize);
  }

  /** `formatComment(comment, lines)`: the lines it pushes. */
  method FormatComment(comment: Comment, formatDate: string -> string, optimize: string -> string) returns (lines: seq<string>)
    ensures lines == CommentLines(comment, formatDate, optimize)
  {
    var author := OrElse(comment.author, "Unknown User");
    var headerText := (if comment.deleted then "[DELETED] Comment by " else "Comment by ") + author;
    lines := [FormatHeading(headerText, 3)];
    lines := lines + ["*Posted on " + formatDate(comment.createdOn) + "*"];
    if comment.updatedOn.Some? && comment.updatedOn.value != "" && comment.updatedOn.value != comment.createdOn {
      lines := lines + ["*Updated on " + formatDate(comment.updatedOn.value) + "*"];
    }
    ghost var upper := lines;
    assert upper == [FormatHeading(HeaderText(comment), 3)] + ["*Posted on " + formatDate(comment.createdOn) + "*"] + UpdatedLines(comment, formatDate);
    if comment.inline.Some? {
      lines := lines + ["**Inline Comment: File: `" + comment.inline.value.path + "`** " + LineInfo(comment.inline.value)];
    }
    assert lines == upper + InlineLines(comment);
    ghost var middle := lines;
    if comment.inline.Some? {
      if comment.codeSnippet.Some? && comment.codeSnippet.value != "" {
        lines := lines + ["", "```diff", comment.codeSnippet.value, "```"];
      } else if comment.codeHref.Some? && comment.codeHref.value != "" {
        lines := lines + ["[View code context in browser](" + comment.codeHref.value + ")"];
      }
    }
    assert lines == middle + SnippetLines(comment);
    ghost var lower := lines;
    assert lower == upper + InlineLines(comment) + SnippetLines(comment);
    lines := lines + [""];
    var body := if comment.deleted then DeletedNotice else if optimize(comment.content) != "" then optimize(comment.content) else NoContentNotice;
    assert body == Body(comment, optimize);
    lines := lines + [body];
    ghost var bodyEnd := lines;
    if comment.htmlHref.Some? && comment.htmlHref.value != "" {
      lines := lines + ["", "[View full comment thread in browser](" + comment.htmlHref.value + ")"];
    }
    assert lines == bodyEnd + ThreadLinkLines(comment);
  }

  // ---------------------------------------------------------------- answers

  /** `text.replace(/\n/g, '\n> ')`: every line after the first gets the quote marker. */
  function Quote(s: string): string
  {
    if s == [] then []
    else (if s[0] == '\n' then "\n> " else [s[0]]) + Quote(s[1..])
  }

  /** Drops the quote marker after every line break: the inverse of `Quote`. */
  function Unquote(s: string): string
  {
    if |s| >= 3 && s[0] == '\n' && s[1] == '>' && s[2] == ' ' then "\n" + Unquote(s[3..])
    else if s == [] then []
    else [s[0]] + Unquote(s[1..])
  }

  /** Quoting loses nothing: the quoted text gives back the original. */
  lemma {:induction false} QuoteRoundTrip(s: string)
    ensures Unquote(Quote(s)) == s
  {
    if s != [] {
      var q := Quote(s);
      QuoteRoundTrip(s[1..]);
      if s[0] == '\n' {
        assert q == "\n> " + Quote(s[1..]);
        assert q[3..] == Quote(s[1..]);
        assert s == "\n" + s[1..];
      } else {
        assert q == [s[0]] + Quote(s[1..]);
        assert q[1..] == Quote(s[1..]);
        assert s == [s[0]] + s[1..];
      }
    }
  }

  /** Every line break of a quoted text is followed by the quote marker. */
  lemma {:induction false} QuoteMarks(s: string)
    ensures forall i :: 0 <= i < |Quote(s)| && Quote(s)[i] == '\n' ==>
      i + 2 < |Quote(s)| && Quote(s)[i + 1] == '>' && Quote(s)[i + 2] == ' '
  {
    if s != [] {
      QuoteMarks(s[1..]);
      var p: string := if s[0] == '\n' then "\n> " else [s[0]];
      var rest := Quote(s[1..]);
      var q := Quote(s);
      assert q == p + rest;
      forall i | 0 <= i < |q| && q[i] == '\n'
        ensures i + 2 < |q| && q[i + 1] == '>' && q[i + 2] == ' '
      {
        if i >= |p| {
          var j := i - |p|;
          assert rest[j] == '\n';
          assert j + 2 < |rest| && rest[j + 1] == '>' && rest[j + 2] == ' ';
          assert q[i + 1] == rest[j + 1] && q[i + 2] == rest[j + 2];
        } else {
          assert q[i] == p[i];
          assert q[1] == p[1] && q[2] == p[2];
        }
      }
    }
  }

  /** `list.slice(0, cap)`, where no cap keeps every element. */
  function Take<T>(xs: seq<T>, cap: Option<nat>): (r: seq<T>)
    ensures |r| <= |xs| && r == xs[..|r|]
    ensures cap.Some? && |xs| > cap.value ==> |r| == cap.value
    ensures !(cap.Some? && |xs| > cap.value) ==> r == xs
  {
    if cap.Some? && |xs| > cap.value then xs[..cap.value] else xs
  }

  /** The three lines of one answer: a blank line, the author and date, the quoted content. */
  function ReplyLines(reply: Comment, formatDate: string -> string, optimize: string -> string): seq<string>
  {
    ["", "> **" + CommentAuthor(reply) + "** (" + formatDate(reply.createdOn) + ")", "> " + Quote(optimize(reply.content))]
  }

  /** The lines of the answers shown, in order. */
  function ReplyBlocks(replies: seq<Comment>, formatDate: string -> string, optimize: string -> string): seq<string>
  {
    if |replies| == 0 then []
    else ReplyBlocks(replies[..|replies| - 1], formatDate, optimize) + ReplyLines(replies[|replies| - 1], formatDate, optimize)
  }

  lemma ReplyBlocksStep(replies: seq<Comment>, i: nat, formatDate: string -> string, optimize: string -> string)
    requires i < |replies|
    ensures ReplyBlocks(replies[..i], formatDate, optimize) + ReplyLines(replies[i], formatDate, optimize) ==
      ReplyBlocks(replies[..i + 1], formatDate, optimize)
  {
    assert replies[..i + 1][..i] == replies[..i];
  }

  /** Answer `i` takes lines `3i` to `3i + 2`: its author line is at `3i + 1`. */
  lemma {:induction false} ReplyLineAt(replies: seq<Comment>, i: nat, formatDate: string -> string, optimize: string -> string)
    requires i < |replies|
    ensures var r := ReplyBlocks(replies, formatDate, optimize);
      && |r| == 3 * |replies|
      && r[3 * i + 1] == ReplyLines(replies[i], formatDate, optimize)[1]
      && r[3 * i + 2] == "> " + Quote(optimize(replies[i].content))
    decreases |replies|
  {
    var init := replies[..|replies| - 1];
    var b := ReplyLines(replies[|replies| - 1], formatDate, optimize);
    var r := ReplyBlocks(replies, formatDate, optimize);
    assert r == ReplyBlocks(init, formatDate, optimize) + b;
    if i < |init| {
      ReplyLineAt(init, i, formatDate, optimize);
      assert init[i] == replies[i];
    } else if |init| > 0 {
      ReplyLineAt(init, 0, formatDate, optimize);
    }
  }

  const MaxRepliesToShow := 3
  const MaxCommentsToShow := 5
  const NoCommentsFound := "*No comments found on this pull request.*"

  /** The count of the answers left out, when a cap leaves some out. */
  function MoreReplies(replies: seq<Comment>, cap: Option<nat>): (r: seq<string>)
    ensures r != [] <==> cap.Some? && |replies| > cap.value
  {
    if cap.Some? && |replies| > cap.value then ["", "> *...and " + IntToString(|replies| - cap.value) + " more replies*"] else []
  }

  /** The answers to one comment: nothing when there are none, else a label, the first `cap` answers, the count of the rest. */
  function RepliesSection(replies: seq<Comment>, cap: Option<nat>, formatDate: string -> string, optimize: string -> string): seq<string>
  {
    if |replies| == 0 then []
    else ["", "**Replies:**"] + ReplyBlocks(Take(replies, cap), formatDate, optimize) + MoreReplies(replies, cap)
  }

  /**
   * Exactly the first `cap` answers are shown (all of them without a cap), and the
   * omitted ones are counted.
   */
  lemma RepliesSectionSize(replies: seq<Comment>, cap: Option<nat>, formatDate: string -> string, optimize: string -> string)
    requires |replies| > 0
    ensures var shown := if cap.Some? && |replies| > cap.value then cap.value else |replies|;
      |RepliesSection(replies, cap, formatDate, optimize)| == 2 + 3 * shown + (if shown < |replies| then 2 else 0)
  {
    var t := Take(replies, cap);
    if |t| > 0 {
      ReplyLineAt(t, 0, formatDate, optimize);
    }
  }

  /** `replies.forEach(...)` after the label, with the optional cap. */
  method FormatReplies(replies: seq<Comment>, cap: Option<nat>, formatDate: string -> string, optimize: string -> string) returns (lines: seq<string>)
    ensures lines == RepliesSection(replies, cap, formatDate, optimize)
  {
    lines := [];
    if |replies| > 0 {
      lines := ["", "**Replies:**"];
      var repliesToShow := if cap.Some? && |replies| > cap.value then replies[..cap.value] else replies;
      var blocks := FormatReplyBlocks(repliesToShow, formatDate, optimize);
      lines := lines + blocks;
      assert repliesToShow == Take(replies, cap);
      ghost var body := lines;
      assert body == ["", "**Replies:**"] + ReplyBlocks(Take(replies, cap), formatDate, optimize);
      if cap.Some? && |replies| > cap.value {
        lines := lines + ["", "> *...and " + IntToString(|replies| - cap.value) + " more replies*"];
      }
      assert lines == body + MoreReplies(replies, cap);
    }
  }

  /** The lines pushed for one answer. */
  method FormatReply(reply: Comment, formatDate: string -> string, optimize: string -> string) returns (lines: seq<string>)
    ensures lines == ReplyLines(reply, formatDate, optimize)
  {
    var author := OrElse(reply.author, "Unknown User");
    lines := ["", "> **" + author + "** (" + formatDate(reply.createdOn) + ")"];
    var optimizedReplyContent := optimize(reply.content);
    lines := lines + ["> " + Quote(optimizedReplyContent)];
  }

  /** `repliesToShow.forEach(...)`: the lines of the answers shown. */
  method FormatReplyBlocks(repliesToShow: seq<Comment>, formatDate: string -> string, optimize: string -> string) returns (lines: seq<string>)
    ensures lines == ReplyBlocks(repliesToShow, formatDate, optimize)
  {
    lines := [];
    for i := 0 to |repliesToShow|
      invariant lines == ReplyBlocks(repliesToShow[..i], formatDate, optimize)
    {
      var block := FormatReply(repliesToShow[i], formatDate, optimize);
      lines := lines + block;
      ReplyBlocksStep(repliesToShow, i, formatDate, optimize);
    }
    assert repliesToShow[..|repliesToShow|] == repliesToShow;
  }

  // ---------------------------------------------------------------- threads

  /** One top-level comment followed by its answers. */
  function ThreadBody(c: Comment, replies: seq<Comment>, cap: Option<nat>, formatDate: string -> string, optimize: string -> string): seq<string>
  {
    CommentLines(c, formatDate, optimize) + RepliesSection(replies, cap, formatDate, optimize)
  }

  /** Thread `i` of the shown ones, with a separator unless it is the last. */
  function ThreadBlock(comments: seq<Comment>, shown: seq<Comment>, i: nat, cap: Option<nat>, formatDate: string -> string, optimize: string -> string): seq<string>
    requires i < |shown|
  {
    ThreadBody(shown[i], RepliesTo(comments, shown[i].id), cap, formatDate, optimize) +
    (if i < |shown| - 1 then ["", Separator] else [])
  }

  /** The blocks of the shown threads, in order. */
  function ThreadBlocks(comments: seq<Comment>, shown: seq<Comment>, cap: Option<nat>, formatDate: string -> string, optimize: string -> string): (r: seq<seq<string>>)
    ensures |r| == |shown|
  {
    seq(|shown|, i requires 0 <= i < |shown| => ThreadBlock(comments, shown, i, cap, formatDate, optimize))
  }

  /** The threads of the shown top-level comments, each with the answers to it among `comments`. */
  function Threads(comments: seq<Comment>, shown: seq<Comment>, cap: Option<nat>, formatDate: string -> string, optimize: string -> string): seq<string>
  {
    Flatten(ThreadBlocks(comments, shown, cap, formatDate, optimize))
  }

  /** Every shown comment is rendered: the heading of thread `i` follows the first `i` threads. */
  lemma ThreadHeadingAt(comments: seq<Comment>, shown: seq<Comment>, i: nat, cap: Option<nat>, formatDate: string -> string, optimize: string -> string)
    requires i < |shown|
    ensures var blocks := ThreadBlocks(comments, shown, cap, formatDate, optimize);
      var r := Threads(comments, shown, cap, formatDate, optimize);
      var j := |Flatten(blocks[..i])|;
      j < |r| && r[j] == FormatHeading(HeaderText(shown[i]), 3)
  {
    var blocks := ThreadBlocks(comments, shown, cap, formatDate, optimize);
    CommentLinesShape(shown[i], formatDate, optimize);
    assert blocks[i][0] == CommentLines(shown[i], formatDate, optimize)[0];
    FlattenAt(blocks, i);
  }

  /** Separators stand only between threads: the last thread is not followed by one. */
  lemma LastThreadBlock(comments: seq<Comment>, shown: seq<Comment>, cap: Option<nat>, formatDate: string -> string, optimize: string -> string)
    requires |shown| > 0
    ensures var last := shown[|shown| - 1];
      ThreadBlock(comments, shown, |shown| - 1, cap, formatDate, optimize) ==
      ThreadBody(last, RepliesTo(comments, last.id), cap, formatDate, optimize)
  {
    var last := shown[|shown| - 1];
    var body := ThreadBody(last, RepliesTo(comments, last.id), cap, formatDate, optimize);
    assert body + [] == body;
  }

  /** `commentsToShow.forEach((comment, index) => ...)`, reading the answers from the grouped buckets. */
  method FormatThreads(comments: seq<Comment>, shown: seq<Comment>, childComments: map<int, seq<Comment>>, cap: Option<nat>,
                       formatDate: string -> string, optimize: string -> string) returns (lines: seq<string>)
    requires forall id :: RepliesOf(childComments, id) == RepliesTo(comments, id)
    ensures lines == Threads(comments, shown, cap, formatDate, optimize)
  {
    ghost var blocks := ThreadBlocks(comments, shown, cap, formatDate, optimize);
    lines := [];
    for index := 0 to |shown|
      invariant lines == Flatten(blocks[..index])
    {
      var replies := RepliesOf(childComments, shown[index].id);
      assert replies == RepliesTo(comments, shown[index].id);
      var block := FormatThread(shown, index, replies, cap, formatDate, optimize);
      assert block == ThreadBlock(comments, shown, index, cap, formatDate, optimize) == blocks[index];
      FlattenStep(blocks, index);
      lines := lines + block;
    }
    assert blocks[..|shown|] == blocks;
  }

  /** The lines of one thread: the comment, its answers, and the separator unless it is the last. */
  method FormatThread(shown: seq<Comment>, index: nat, replies: seq<Comment>, cap: Option<nat>,
                      formatDate: string -> string, optimize: string -> string) returns (lines: seq<string>)
    requires index < |shown|
    ensures lines == ThreadBody(shown[index], replies, cap, formatDate, optimize) + (if index < |shown| - 1 then ["", Separator] else [])
  {
    lines := FormatComment(shown[index], formatDate, optimize);
    var answers := FormatReplies(replies, cap, formatDate, optimize);
    lines := lines + answers;
    if index < |shown| - 1 {
      lines := lines + ["", Separator];
    } else {
      assert lines == lines + [];
    }
  }

  // ---------------------------------------------------------------- comments view

  /** The lines of the comments view: heading, the threads with every answer (or the empty notice), footer. */
  function CommentsViewLines(comments: seq<Comment>, prId: string, formatDate: string -> string, optimize: string -> string, retrievedAt: string): seq<string>
  {
    [FormatHeading("Comments on Pull Request #" + prId, 1), ""] +
    (if |comments| == 0 then [NoCommentsFound] else Threads(comments, TopLevel(comments), None, formatDate, optimize)) +
    Footer(retrievedAt)
  }

  /** `formatPullRequestComments(comments, prId)`; a missing list is the empty one. */
  method FormatPullRequestComments(comments: seq<Comment>, prId: string, formatDate: string -> string, optimize: string -> string, retrievedAt: string)
    returns (r: string)
    ensures r == Join(CommentsViewLines(comments, prId, formatDate, optimize, retrievedAt), "\n")
  {
    var lines := [FormatHeading("Comments on Pull Request #" + prId, 1), ""];
    if |comments| == 0 {
      lines := lines + [NoCommentsFound];
      lines := lines + Footer(retrievedAt);
      return Join(lines, "\n");
    }
    var threads, _ := GroupedThreads(comments, None, None, formatDate, optimize);
    assert Take(TopLevel(comments), None) == TopLevel(comments);
    lines := lines + threads;
    lines := lines + Footer(retrievedAt);
    r := Join(lines, "\n");
  }

  /** Without a cap every answer is shown, in order, and nothing is counted as left out. */
  lemma UncappedReplies(replies: seq<Comment>, formatDate: string -> string, optimize: string -> string)
    requires |replies| > 0
    ensures RepliesSection(replies, None, formatDate, optimize) == ["", "**Replies:**"] + ReplyBlocks(replies, formatDate, optimize)
  {
    assert MoreReplies(replies, None) == [];
  }

  /**
   * The comments view renders every top-level comment: the heading of the `i`-th one sits
   * two lines after the threads before it.
   */
  lemma CommentsViewShowsEveryThread(comments: seq<Comment>, prId: string, formatDate: string -> string, optimize: string -> string,
                                     retrievedAt: string, i: nat)
    requires i < |TopLevel(comments)|
    ensures var lines := CommentsViewLines(comments, prId, formatDate, optimize, retrievedAt);
      var blocks := ThreadBlocks(comments, TopLevel(comments), None, formatDate, optimize);
      var j := 2 + |Flatten(blocks[..i])|;
      j < |lines| && lines[j] == FormatHeading(HeaderText(TopLevel(comments)[i]), 3)
  {
    var top := TopLevel(comments);
    var threads := Threads(comments, top, None, formatDate, optimize);
    ThreadHeadingAt(comments, top, i, None, formatDate, optimize);
    var head := [FormatHeading("Comments on Pull Request #" + prId, 1), ""];
    assert |comments| > 0;
    assert CommentsViewLines(comments, prId, formatDate, optimize, retrievedAt) == head + threads + Footer(retrievedAt);
    var blocks := ThreadBlocks(comments, top, None, formatDate, optimize);
    var j := 2 + |Flatten(blocks[..i])|;
    IndexOfAppend(head, threads, j);
    IndexOfAppend(head + threads, Footer(retrievedAt), j);
  }

  /** The comments view opens with its heading and a blank line and closes with the retrieval time. */
  lemma CommentsViewShape(comments: seq<Comment>, prId: string, formatDate: string -> string, optimize: string -> string, retrievedAt: string)
    ensures var r := Join(CommentsViewLines(comments, prId, formatDate, optimize, retrievedAt), "\n");
      && StartsWith(r, FormatHeading("Comments on Pull Request #" + prId, 1) + "\n\n")
      && EndsWith(r, "\n" + RetrievedLine(retrievedAt))
  {
    var heading := FormatHeading("Comments on Pull Request #" + prId, 1);
    var body := if |comments| == 0 then [NoCommentsFound] else Threads(comments, TopLevel(comments), None, formatDate, optimize);
    var middle := body + [FooterRule];
    assert CommentsViewLines(comments, prId, formatDate, optimize, retrievedAt) == [heading, ""] + middle + [RetrievedLine(retrievedAt)];
    DoubleNewline();
    MessageShape(heading, middle, RetrievedLine(retrievedAt), "\n", "\n\n");
  }

  // ---------------------------------------------------------------- details view

  /** `count ?? 0`. */
  function CountOrZero(o: Option<int>): int
  {
    if o.Some? then o.value else 0
  }

  /** The Basic Information entries, in insertion order; a missing branch or author is `undefined` and left out. */
  function BasicProperties(pr: PullRequest, formatDate: string -> string): seq<(string, Value)>
  {
    [("State", VStr(pr.state)),
     ("Repository", VStr(pr.repository)),
     ("Source", Field(pr.sourceBranch)),
     ("Destination", Field(pr.destinationBranch)),
     ("Author", Field(pr.authorName)),
     ("Created", VStr(formatDate(pr.createdOn))),
     ("Updated", VStr(formatDate(pr.updatedOn))),
     ("Comment Count", VNum(CountOrZero(pr.commentCount))),
     ("Task Count", VNum(CountOrZero(pr.taskCount)))]
  }

  function DetailsHeading(pr: PullRequest): string
  {
    FormatHeading("Pull Request #" + IntToString(pr.id) + ": " + pr.title, 1)
  }

  /** The title, a blank line, the Basic Information heading and its bullet list. */
  function DetailsHead(pr: PullRequest, formatDate: string -> string): seq<string>
  {
    [DetailsHeading(pr), "", FormatHeading("Basic Information", 2), Bullets(BasicProperties(pr, formatDate), formatDate)]
  }

  /** One bullet per reviewer, in order. */
  function ReviewerLines(reviewers: seq<string>): (r: seq<string>)
    ensures |r| == |reviewers|
    ensures forall i :: 0 <= i < |reviewers| ==> r[i] == "- " + reviewers[i]
  {
    seq(|reviewers|, i requires 0 <= i < |reviewers| => "- " + reviewers[i])
  }

  function ReviewersSection(pr: PullRequest): seq<string>
  {
    if |pr.reviewers| > 0 then ["", FormatHeading("Reviewers", 2), Join(ReviewerLines(pr.reviewers), "\n")] else []
  }

  /** The description: the raw summary when given, else the rendered description, optimised; else no section. */
  function DescriptionSection(pr: PullRequest, optimize: string -> string): (r: seq<string>)
    ensures Given(pr.summaryRaw) ==> r == ["", FormatHeading("Description", 2), optimize(pr.summaryRaw.value)]
    ensures !Given(pr.summaryRaw) && Given(pr.renderedDescription) ==>
      r == ["", FormatHeading("Description", 2), optimize(pr.renderedDescription.value)]
    ensures !Given(pr.summaryRaw) && !Given(pr.renderedDescription) ==> r == []
  {
    if Given(pr.summaryRaw) then ["", FormatHeading("Description", 2), optimize(pr.summaryRaw.value)]
    else if Given(pr.renderedDescription) then ["", FormatHeading("Description", 2), optimize(pr.renderedDescription.value)]
    else []
  }

  /** The File Changes section, only for a diffstat with at least one entry. */
  function FileChangesPart(diffstat: Option<seq<DiffstatEntry>>): seq<string>
  {
    if diffstat.Some? && |diffstat.value| > 0 then FileChangesSection(diffstat.value) else []
  }

  /** The full diff with `formatDiff`'s defaults: five files, one hundred lines each. */
  function DiffPart(rawDiff: Option<string>): seq<string>
  {
    if Given(rawDiff) then ["", FormatHeading("Code Changes (Full Diff)", 2), DiffFormat.FormatDiffSpec(rawDiff.value, 5, 100)] else []
  }

  /** The count of the top-level comments left out of the details view. */
  function MoreComments(topLevelCount: int): (r: seq<string>)
    ensures r != [] <==> topLevelCount > MaxCommentsToShow
  {
    if topLevelCount > MaxCommentsToShow then
      ["", "*...and " + IntToString(topLevelCount - MaxCommentsToShow) + " more comments*"]
    else []
  }

  function AllCommentsLink(pr: PullRequest): seq<string>
  {
    if Given(pr.commentsHref) then ["", "[View all comments in browser](" + pr.commentsHref.value + ")"] else []
  }

  /** The comments of the details view, for at least one comment: five threads of three answers at most. */
  function CommentThreadsSection(pr: PullRequest, comments: seq<Comment>, formatDate: string -> string, optimize: string -> string): seq<string>
  {
    ["", FormatHeading("Comments", 2)] +
    Threads(comments, Take(TopLevel(comments), Some(MaxCommentsToShow)), Some(MaxRepliesToShow), formatDate, optimize) +
    MoreComments(|TopLevel(comments)|) + AllCommentsLink(pr)
  }

  /** No section without comments data, a notice for an empty list, else the threads. */
  function CommentsSection(pr: PullRequest, comments: Option<seq<Comment>>, formatDate: string -> string, optimize: string -> string): seq<string>
  {
    if comments.None? then []
    else if |comments.value| == 0 then ["", FormatHeading("Comments", 2), NoCommentsFound]
    else CommentThreadsSection(pr, comments.value, formatDate, optimize)
  }

  /** One bullet per link the pull request carries, in a fixed order. */
  function LinkLines(pr: PullRequest): seq<string>
  {
    (if Given(pr.htmlHref) then ["- " + FormatUrl(pr.htmlHref, Some("View in Browser"))] else []) +
    (if Given(pr.commitsHref) then ["- " + FormatUrl(pr.commitsHref, Some("Commits"))] else []) +
    (if Given(pr.commentsHref) then ["- " + FormatUrl(pr.commentsHref, Some("Comments"))] else []) +
    (if Given(pr.diffHref) then ["- " + FormatUrl(pr.diffHref, Some("Diff"))] else [])
  }

  function LinksSection(pr: PullRequest): seq<string>
  {
    ["", FormatHeading("Links", 2), Join(LinkLines(pr), "\n")]
  }

  /** The sections between the Basic Information and the links. */
  function DetailsBody(pr: PullRequest, diffstat: Option<seq<DiffstatEntry>>, rawDiff: Option<string>, comments: Option<seq<Comment>>,
                       formatDate: string -> string, optimize: string -> string): seq<string>
  {
    ReviewersSection(pr) + DescriptionSection(pr, optimize) + FileChangesPart(diffstat) + DiffPart(rawDiff) +
    CommentsSection(pr, comments, formatDate, optimize)
  }

  /** The lines of the details view. */
  function DetailsLines(pr: PullRequest, diffstat: Option<seq<DiffstatEntry>>, rawDiff: Option<string>, comments: Option<seq<Comment>>,
                        formatDate: string -> string, optimize: string -> string, retrievedAt: string): seq<string>
  {
    DetailsHead(pr, formatDate) + DetailsBody(pr, diffstat, rawDiff, comments, formatDate, optimize) + LinksSection(pr) + Footer(retrievedAt)
  }

  /** The `reviewers.forEach` loop. */
  method ReviewerList(reviewers: seq<string>) returns (reviewerLines: seq<string>)
    ensures reviewerLines == ReviewerLines(reviewers)
  {
    reviewerLines := [];
    for i := 0 to |reviewers|
      invariant reviewerLines == ReviewerLines(reviewers[..i])
    {
      reviewerLines := reviewerLines + ["- " + reviewers[i]];
    }
    assert reviewers[..|reviewers|] == reviewers;
  }

  /** The comments of the details view when there is at least one: grouping, five threads, the rest counted. */
  method FormatCommentThreads(pr: PullRequest, comments: seq<Comment>, formatDate: string -> string, optimize: string -> string)
    returns (lines: seq<string>)
    requires |comments| > 0
    ensures lines == CommentThreadsSection(pr, comments, formatDate, optimize)
  {
    var threads, total := GroupedThreads(comments, Some(MaxCommentsToShow), Some(MaxRepliesToShow), formatDate, optimize);
    lines := ["", FormatHeading("Comments", 2)] + threads + MoreComments(total) + AllCommentsLink(pr);
  }

  /** `formatPullRequestDetails(pullRequest, diffstat, rawDiff, comments)`: the sections in order, joined by line breaks. */
  method FormatPullRequestDetails(pr: PullRequest, diffstat: Option<seq<DiffstatEntry>>, rawDiff: Option<string>,
                                  comments: Option<seq<Comment>>, formatDate: string -> string, optimize: string -> string,
                                  retrievedAt: string) returns (r: string)
    ensures r == Join(DetailsLines(pr, diffstat, rawDiff, comments, formatDate, optimize, retrievedAt), "\n")
  {
    var lines := [DetailsHeading(pr), "", FormatHeading("Basic Information", 2)];
    var bullets := FormatBulletList(BasicProperties(pr, formatDate), Some(SameKey), formatDate);
    lines := lines + [bullets];
    ghost var head := DetailsHead(pr, formatDate);
    assert lines == head;
    var body := DetailsSections(pr, diffstat, rawDiff, comments, formatDate, optimize);
    lines := lines + body;
    ghost var beforeLinks := lines;
    var links := LinkList(pr);
    lines := lines + ["", FormatHeading("Links", 2), Join(links, "\n")];
    assert lines == beforeLinks + LinksSection(pr);
    ghost var beforeFooter := lines;
    lines := lines + Footer(retrievedAt);
    assert lines == beforeFooter + Footer(retrievedAt);
    assert lines == DetailsLines(pr, diffstat, rawDiff, comments, formatDate, optimize, retrievedAt);
    r := Join(lines, "\n");
  }

  /** The links loop. */
  method LinkList(pr: PullRequest) returns (links: seq<string>)
    ensures links == LinkLines(pr)
  {
    links := [];
    if pr.htmlHref.Some? && pr.htmlHref.value != "" {
      links := links + ["- " + FormatUrl(pr.htmlHref, Some("View in Browser"))];
    }
    if pr.commitsHref.Some? && pr.commitsHref.value != "" {
      links := links + ["- " + FormatUrl(pr.commitsHref, Some("Commits"))];
    }
    if pr.commentsHref.Some? && pr.commentsHref.value != "" {
      links := links + ["- " + FormatUrl(pr.commentsHref, Some("Comments"))];
    }
    if pr.diffHref.Some? && pr.diffHref.value != "" {
      links := links + ["- " + FormatUrl(pr.diffHref, Some("Diff"))];
    }
  }

  /** The pushes between the Basic Information and the links. */
  method DetailsSections(pr: PullRequest, diffstat: Option<seq<DiffstatEntry>>, rawDiff: Option<string>,
                         comments: Option<seq<Comment>>, formatDate: string -> string, optimize: string -> string)
    returns (lines: seq<string>)
    ensures lines == DetailsBody(pr, diffstat, rawDiff, comments, formatDate, optimize)
  {
    var reviewers := ReviewersPart(pr);
    var fileChanges := FileChangesPush(diffstat);
    var diff := DiffPush(rawDiff);
    var commentLines := CommentsPush(pr, comments, formatDate, optimize);
    lines := reviewers + DescriptionSection(pr, optimize) + fileChanges + diff + commentLines;
  }

  /** The Reviewers section: heading and the reviewer bullets joined, when there is a reviewer. */
  method ReviewersPart(pr: PullRequest) returns (lines: seq<string>)
    ensures lines == ReviewersSection(pr)
  {
    lines := [];
    if |pr.reviewers| > 0 {
      var reviewerLines := ReviewerList(pr.reviewers);
      lines := ["", FormatHeading("Reviewers", 2), Join(reviewerLines, "\n")];
    }
  }

  /** The File Changes section when the diffstat has an entry. */
  method FileChangesPush(diffstat: Option<seq<DiffstatEntry>>) returns (lines: seq<string>)
    ensures lines == FileChangesPart(diffstat)
  {
    lines := [];
    if diffstat.Some? && |diffstat.value| > 0 {
      lines := FileChanges(diffstat.value);
    }
  }

  /** The full diff section when there is a raw diff. */
  method DiffPush(rawDiff: Option<string>) returns (lines: seq<string>)
    ensures lines == DiffPart(rawDiff)
  {
    lines := [];
    if rawDiff.Some? && rawDiff.value != "" {
      var formatted := DiffFormat.FormatDiff(rawDiff.value, 5, 100);
      lines := ["", FormatHeading("Code Changes (Full Diff)", 2), formatted];
    }
  }

  /** The comments section of the details view. */
  method CommentsPush(pr: PullRequest, comments: Option<seq<Comment>>, formatDate: string -> string, optimize: string -> string)
    returns (lines: seq<string>)
    ensures lines == CommentsSection(pr, comments, formatDate, optimize)
  {
    lines := [];
    if comments.Some? && |comments.value| > 0 {
      lines := FormatCommentThreads(pr, comments.value, formatDate, optimize);
    } else if comments.Some? {
      lines := ["", FormatHeading("Comments", 2), NoCommentsFound];
    }
  }

  /** Groups the comments, then renders the threads of the first `maxComments` top-level ones. */
  method GroupedThreads(comments: seq<Comment>, maxComments: Option<nat>, maxReplies: Option<nat>,
                        formatDate: string -> string, optimize: string -> string) returns (threads: seq<string>, total: nat)
    ensures threads == Threads(comments, Take(TopLevel(comments), maxComments), maxReplies, formatDate, optimize)
    ensures total == |TopLevel(comments)|
  {
    var topLevelComments, childComments := GroupComments(comments);
    var commentsToShow := if maxComments.Some? && |topLevelComments| > maxComments.value then topLevelComments[..maxComments.value] else topLevelComments;
    threads := FormatThreads(comments, commentsToShow, childComments, maxReplies, formatDate, optimize);
    total := |topLevelComments|;
  }

  /**
   * The details view opens with the title, a blank line and the Basic Information heading,
   * and closes with the retrieval time.
   */
  lemma DetailsShape(pr: PullRequest, diffstat: Option<seq<DiffstatEntry>>, rawDiff: Option<string>, comments: Option<seq<Comment>>,
                     formatDate: string -> string, optimize: string -> string, retrievedAt: string)
    ensures var r := Join(DetailsLines(pr, diffstat, rawDiff, comments, formatDate, optimize, retrievedAt), "\n");
      && StartsWith(r, DetailsHeading(pr) + "\n\n" + FormatHeading("Basic Information", 2) + "\n")
      && EndsWith(r, "\n" + RetrievedLine(retrievedAt))
  {
    assert DetailsHead(pr, formatDate) == [DetailsHeading(pr), "", FormatHeading("Basic Information", 2), Bullets(BasicProperties(pr, formatDate), formatDate)];
    assert Footer(retrievedAt) == [FooterRule, RetrievedLine(retrievedAt)];
    DoubleNewline();
    ViewShape(DetailsHeading(pr), FormatHeading("Basic Information", 2), Bullets(BasicProperties(pr, formatDate), formatDate),
      DetailsBody(pr, diffstat, rawDiff, comments, formatDate, optimize), LinksSection(pr),
      FooterRule, RetrievedLine(retrievedAt), "\n", "\n\n");
  }

  /**
   * With comments, the details view shows the threads of the first five top-level comments
   * (fewer when there are fewer) and counts the rest.
   */
  lemma DetailsCommentsCapped(pr: PullRequest, comments: seq<Comment>, formatDate: string -> string, optimize: string -> string)
    requires |comments| > 0
    ensures var shown := Take(TopLevel(comments), Some(MaxCommentsToShow));
      && |shown| == (if |TopLevel(comments)| > MaxCommentsToShow then MaxCommentsToShow else |TopLevel(comments)|)
      && shown == TopLevel(comments)[..|shown|]
      && (MoreComments(|TopLevel(comments)|) != [] <==> |TopLevel(comments)| > MaxCommentsToShow)
      && CommentsSection(pr, Some(comments), formatDate, optimize) ==
         ["", FormatHeading("Comments", 2)] + Threads(comments, shown, Some(MaxRepliesToShow), formatDate, optimize) +
         MoreComments(|TopLevel(comments)|) + AllCommentsLink(pr)
  {
  }
}
