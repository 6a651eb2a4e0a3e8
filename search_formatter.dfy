/**
 * The search formatter: the Markdown answers of the code and content search tools.
 * `formatDate` is a parameter (it reads the clock and the locale); the time stamp of the
 * footer is the parameter `retrievedAt`.
 */
module SearchFormatter {
  import opened Wrappers
  import opened Strings
  import opened Json
  import opened Formatter
  import opened NodePath

  // ---------------------------------------------------------------------------
  // The language hint of a code block
  // ---------------------------------------------------------------------------

  /**
   * `langMap[key] || ''`: the entries of the `langMap` table of `getLanguageHint`, and the
   * empty hint for any other key. Every key the formatter looks up starts with `.` or is
   * empty, so no inherited property of a JavaScript object can answer in place of the table.
   */
  function Lookup(key: string): string
  {
    match key
    case ".js" => "javascript"
    case ".jsx" => "jsx"
    case ".ts" => "typescript"
    case ".tsx" => "tsx"
    case ".py" => "python"
    case ".java" => "java"
    case ".rb" => "ruby"
    case ".php" => "php"
    case ".cs" => "csharp"
    case ".go" => "go"
    case ".rs" => "rust"
    case ".c" => "c"
    case ".cpp" => "cpp"
    case ".h" => "c"
    case ".hpp" => "cpp"
    case ".tf" => "terraform"
    case ".hcl" => "hcl"
    case ".sh" => "bash"
    case ".zsh" => "zsh"
    case ".json" => "json"
    case ".yaml" => "yaml"
    case ".yml" => "yaml"
    case ".xml" => "xml"
    case ".md" => "markdown"
    case ".sql" => "sql"
    case ".dockerfile" => "dockerfile"
    case "dockerfile" => "dockerfile"
    case ".gitignore" => "gitignore"
    case _ => ""
  }

  /** `getLanguageHint(filePath)` as written: the table entry of the lower-cased extension. */
  function LanguageHintAsWritten(filePath: string): string
  {
    Lookup(ToLower(ExtName(filePath)))
  }

  /** The table entries the lemmas below rely on; the empty key has none. */
  lemma KnownKeys()
    ensures Lookup("") == ""
    ensures Lookup("dockerfile") == "dockerfile"
    ensures Lookup(".gitignore") == "gitignore"
    ensures Lookup(".ts") == "typescript"
  {
  }

  /** Without an extension there is no hint. */
  lemma NoExtensionNoHint(filePath: string)
    ensures ExtName(filePath) == "" ==> LanguageHintAsWritten(filePath) == ""
  {
    assert ToLower("") == "";
    KnownKeys();
  }

  /** A lower-cased extension is empty or starts with `.`, so the `dockerfile` key is never looked up. */
  lemma DockerfileKeyUnreachable(filePath: string)
    ensures ToLower(ExtName(filePath)) != "dockerfile"
  {
    var ext := ExtName(filePath);
    ExtNameShape(filePath);
    if ext != "" {
      assert ToLower(ext)[0] == LowerChar(ext[0]) == '.';
    }
  }

  /** Files named `Dockerfile` or `.gitignore`, in any case and directory, get no hint from the code as written. */
  lemma NamedFilesAsWritten(dir: string, name: string)
    requires dir == "" || dir[|dir| - 1] == '/'
    requires ToLower(name) == "dockerfile" || ToLower(name) == ".gitignore"
    ensures LanguageHintAsWritten(dir + name) == ""
  {
    NamedFileSpelling(name);
    NoExtension(dir, name);
    assert ToLower("") == "";
    KnownKeys();
  }

  /**
   * The language hint with the table's two file-name keys made reachable: without an
   * extension, the lower-cased basename is looked up.
   */
  function LanguageHint(filePath: string): string
  {
    var ext := ToLower(ExtName(filePath));
    Lookup(if ext != "" then ext else ToLower(Basename(filePath)))
  }

  /** With an extension, the corrected hint is the hint as written. */
  lemma LanguageHintAgrees(filePath: string)
    ensures ExtName(filePath) != "" ==> LanguageHint(filePath) == LanguageHintAsWritten(filePath)
  {
    var ext := ExtName(filePath);
    ExtNameShape(filePath);
    if ext != "" {
      assert ToLower(ext)[0] == '.';
    }
  }

  /** The two file-name keys of the table now apply, in any case and directory. */
  lemma NamedFiles(dir: string, name: string)
    requires dir == "" || dir[|dir| - 1] == '/'
    requires ToLower(name) == "dockerfile" || ToLower(name) == ".gitignore"
    ensures ToLower(name) == "dockerfile" ==> LanguageHint(dir + name) == "dockerfile"
    ensures ToLower(name) == ".gitignore" ==> LanguageHint(dir + name) == "gitignore"
  {
    NamedFileSpelling(name);
    NoExtension(dir, name);
    assert ToLower("") == "";
    KnownKeys();
  }

  /** The hint of a file `stem.ext` is the table entry of `.ext` in lower case. */
  lemma LowerCaseExtension(dir: string, stem: string, ext: string)
    requires dir == "" || dir[|dir| - 1] == '/'
    requires |stem| > 0 && '/' !in stem && '/' !in ext && '.' !in ext
    requires stem + "." + ext != ".."
    ensures LanguageHintAsWritten(dir + stem + "." + ext) == Lookup("." + ToLower(ext))
    ensures LanguageHint(dir + stem + "." + ext) == Lookup("." + ToLower(ext))
  {
    ExtNameOfFile(dir, stem, ext);
    assert ("." + ext)[1..] == ext;
    assert ToLower("." + ext) == "." + ToLower(ext);
  }

  // ---------------------------------------------------------------------------
  // Code search
  // ---------------------------------------------------------------------------

  /** A piece of a matched line; `isMatch` marks the text the query matched. */
  datatype Segment = Segment(text: string, isMatch: bool)

  datatype MatchLine = MatchLine(line: int, segments: seq<Segment>)

  /** A group of neighbouring lines around one match. */
  datatype ContentMatch = ContentMatch(lines: seq<MatchLine>)

  datatype CodeSearchResult = CodeSearchResult(
    contentMatchCount: int,
    contentMatches: seq<ContentMatch>,
    /** `file.path` */
    path: Option<string>,
    /** `file.links.self.href` */
    selfHref: Option<string>)

  /** A backslash and a backtick: the escaped backtick that marks matched text. */
  const Tick := "\\`"

  const Fence := "```"

  function SegmentText(s: Segment): string
  {
    if s.isMatch then Tick + s.text + Tick else s.text
  }

  /** A segment's own text, without highlighting. */
  function PlainText(s: Segment): string
  {
    s.text
  }

  function MatchCount(segments: seq<Segment>): nat
  {
    if |segments| == 0 then 0
    else MatchCount(segments[..|segments| - 1]) + (if segments[|segments| - 1].isMatch then 1 else 0)
  }

  /**
   * Highlighting adds four characters per matched segment and keeps the rest verbatim, so
   * a line's segments are rendered as their plain text exactly when none of them matched.
   */
  lemma {:induction false} Highlighting(segments: seq<Segment>)
    ensures |ConcatMap(segments, SegmentText)| == |ConcatMap(segments, PlainText)| + 4 * MatchCount(segments)
    ensures ConcatMap(segments, SegmentText) == ConcatMap(segments, PlainText) <==> MatchCount(segments) == 0
  {
    if |segments| > 0 {
      var init := segments[..|segments| - 1];
      Highlighting(init);
    }
  }

  function LineText(l: MatchLine): string
  {
    IntToString(l.line) + ": " + ConcatMap(l.segments, SegmentText) + "\n"
  }

  function GroupText(g: ContentMatch): string
  {
    ConcatMap(g.lines, LineText) + (if |g.lines| > 1 then "\n" else "")
  }

  /** `file.path || 'Unknown File'`. */
  function FilePath(r: CodeSearchResult): string
  {
    if Given(r.path) then r.path.value else "Unknown File"
  }

  /** The file's path, as a link to the file when the result carries one. */
  function FileLink(r: CodeSearchResult): string
  {
    if Given(r.selfHref) then FormatUrl(r.selfHref, Some(FilePath(r))) else FilePath(r)
  }

  function MatchSummary(count: int): string
  {
    IntToString(count) + " " + (if count == 1 then "match" else "matches") + " found\n\n"
  }

  /** The summary says `match` for exactly one match and `matches` for any other count. */
  lemma MatchWording(count: int)
    ensures count == 1 <==> MatchSummary(count) == "1 match found\n\n"
    ensures count != 1 ==> MatchSummary(count) == IntToString(count) + " matches found\n\n"
  {
    assert |" matches found\n\n"| == 16 && |"1 match found\n\n"| == 15;
    if count == 1 {
      assert IntToString(1) == "1";
    }
  }

  function ResultHeading(r: CodeSearchResult): string
  {
    "### " + FileLink(r) + "\n\n"
  }

  /** The match summary and the opening of the code block. */
  function ResultIntro(r: CodeSearchResult): string
  {
    MatchSummary(r.contentMatchCount) + Fence + LanguageHintAsWritten(FilePath(r)) + "\n"
  }

  const ResultClose := Fence + "\n\n"

  function ResultText(r: CodeSearchResult): string
  {
    ResultHeading(r) + ResultIntro(r) + ConcatMap(r.contentMatches, GroupText) + ResultClose
  }

  /** No line break inside any segment: each matched line is one line of code. */
  predicate SingleLine(g: ContentMatch)
  {
    forall i, j :: 0 <= i < |g.lines| && 0 <= j < |g.lines[i].segments| ==> '\n' !in g.lines[i].segments[j].text
  }

  lemma NumberHasNoNewline(n: int)
    ensures Occurrences(IntToString(n), '\n') == 0
  {
    var s := IntToString(n);
    if n < 0 {
      assert s == "-" + NatToString(-n);
      assert forall i :: 1 <= i < |s| ==> s[i] == NatToString(-n)[i - 1];
    }
    assert forall i :: 0 <= i < |s| ==> s[i] != '\n';
    NoOccurrences(s, '\n');
  }

  lemma {:induction false} NoOccurrences(s: string, c: char)
    requires forall i :: 0 <= i < |s| ==> s[i] != c
    ensures Occurrences(s, c) == 0
  {
    if |s| > 0 {
      NoOccurrences(s[..|s| - 1], c);
    }
  }

  lemma SegmentNewlines(s: Segment)
    requires '\n' !in s.text
    ensures Occurrences(SegmentText(s), '\n') == 0
  {
    var t := SegmentText(s);
    assert forall i :: 0 <= i < |t| ==> t[i] != '\n' by {
      if s.isMatch {
        forall i | 0 <= i < |t| ensures t[i] != '\n' {
          if 2 <= i < 2 + |s.text| { assert t[i] == s.text[i - 2]; }
        }
      }
    }
    NoOccurrences(t, '\n');
  }

  lemma LineNewlines(l: MatchLine)
    requires forall j :: 0 <= j < |l.segments| ==> '\n' !in l.segments[j].text
    ensures Occurrences(LineText(l), '\n') == 1
  {
    forall j | 0 <= j < |l.segments| ensures Occurrences(SegmentText(l.segments[j]), '\n') == 0 {
      SegmentNewlines(l.segments[j]);
    }
    OccurrencesConcatMap(l.segments, SegmentText, '\n', 0);
    NumberHasNoNewline(l.line);
    var num := IntToString(l.line);
    var body := ConcatMap(l.segments, SegmentText);
    OccurrencesAppend(num, ": ", '\n');
    OccurrencesAppend(num + ": ", body, '\n');
    OccurrencesAppend(num + ": " + body, "\n", '\n');
    assert Occurrences(": ", '\n') == 0 by { NoOccurrences(": ", '\n'); }
  }

  /**
   * Every matched line is one line of output, and a group ends with one blank line exactly
   * when it shows more than one line.
   */
  lemma GroupNewlines(g: ContentMatch)
    requires SingleLine(g)
    ensures Occurrences(GroupText(g), '\n') == |g.lines| + (if |g.lines| > 1 then 1 else 0)
  {
    forall i | 0 <= i < |g.lines| ensures Occurrences(LineText(g.lines[i]), '\n') == 1 {
      LineNewlines(g.lines[i]);
    }
    OccurrencesConcatMap(g.lines, LineText, '\n', 1);
    OccurrencesAppend(ConcatMap(g.lines, LineText), if |g.lines| > 1 then "\n" else "", '\n');
    assert Occurrences("", '\n') == 0;
  }

  /** A result opens with its heading and closes its code block; every group of lines is in it. */
  lemma ResultShape(r: CodeSearchResult, i: nat)
    requires i < |r.contentMatches|
    ensures StartsWith(ResultText(r), ResultHeading(r))
    ensures EndsWith(ResultText(r), ResultClose)
    ensures Contains(ResultText(r), GroupText(r.contentMatches[i]))
  {
    ConcatMapContains(r.contentMatches, GroupText, i);
    Framed4(ResultHeading(r), ResultIntro(r), ConcatMap(r.contentMatches, GroupText), ResultClose, GroupText(r.contentMatches[i]));
  }

  /** The footer every search answer ends with. */
  function RetrievedFooter(retrievedAt: string): string
  {
    "\n" + Separator + "\n*Information retrieved at: " + retrievedAt + "*"
  }

  const NoCodeMatches := "**No code matches found.**"

  /** `response.values || []`. */
  function ValuesOrEmpty<T>(values: Option<seq<T>>): (r: seq<T>)
    ensures values.None? ==> r == []
    ensures values.Some? ==> r == values.value
  {
    if values.Some? then values.value else []
  }

  function CodeHeader(size: int): string
  {
    "## Code Search Results\n\nFound " + IntToString(size) + " matches for the code search query.\n\n"
  }

  /** `formatCodeSearchResults(searchResponse)`: the empty answer, or the results between a header and the footer. */
  function CodeSearchText(values: Option<seq<CodeSearchResult>>, size: int, retrievedAt: string): string
  {
    var results := ValuesOrEmpty(values);
    if |results| == 0 then NoCodeMatches + "\n\n" + "\n" + RetrievedFooter(retrievedAt)
    else CodeHeader(size) + ConcatMap(results, ResultText) + "\n" + RetrievedFooter(retrievedAt)
  }

  /**
   * The answer says that nothing matched exactly when there are no results; otherwise it
   * shows every result. Both end with the retrieval footer.
   */
  lemma CodeSearchShape(values: Option<seq<CodeSearchResult>>, size: int, retrievedAt: string)
    ensures StartsWith(CodeSearchText(values, size, retrievedAt), NoCodeMatches) <==> |ValuesOrEmpty(values)| == 0
    ensures forall i :: 0 <= i < |ValuesOrEmpty(values)| ==>
      Contains(CodeSearchText(values, size, retrievedAt), ResultText(ValuesOrEmpty(values)[i]))
    ensures EndsWith(CodeSearchText(values, size, retrievedAt), RetrievedFooter(retrievedAt))
  {
    var results := ValuesOrEmpty(values);
    var footer := RetrievedFooter(retrievedAt);
    if |results| == 0 {
      Framed3(NoCodeMatches + "\n\n", "\n", footer, "");
      Framed3(NoCodeMatches, "\n\n", "\n", "");
    } else {
      var head := CodeHeader(size);
      var body := ConcatMap(results, ResultText);
      Framed4(head, body, "\n", footer, "");
      var r := head + body + "\n" + footer;
      assert r[0] == head[0] == '#';
      assert NoCodeMatches[0] == '*';
      forall i | 0 <= i < |results| ensures Contains(r, ResultText(results[i])) {
        ConcatMapContains(results, ResultText, i);
        Framed4(head, body, "\n", footer, ResultText(results[i]));
      }
    }
  }

  /** The innermost loop: a line number and its segments, matched ones highlighted. */
  method FormatLine(l: MatchLine) returns (markdown: string)
    ensures markdown == LineText(l)
  {
    markdown := IntToString(l.line) + ": ";
    var prefix := markdown;
    var j := 0;
    while j < |l.segments|
      invariant j <= |l.segments|
      invariant markdown == prefix + ConcatMap(l.segments[..j], SegmentText)
    {
      var segment := l.segments[j];
      markdown := markdown + (if segment.isMatch then Tick + segment.text + Tick else segment.text);
      ConcatMapStep(l.segments, SegmentText, j);
      j := j + 1;
    }
    assert l.segments[..j] == l.segments;
    markdown := markdown + "\n";
  }

  /** The lines of one group, then a blank line when it has more than one. */
  method FormatGroup(g: ContentMatch) returns (markdown: string)
    ensures markdown == GroupText(g)
  {
    markdown := "";
    var i := 0;
    while i < |g.lines|
      invariant i <= |g.lines|
      invariant markdown == ConcatMap(g.lines[..i], LineText)
    {
      var line := FormatLine(g.lines[i]);
      markdown := markdown + line;
      ConcatMapStep(g.lines, LineText, i);
      i := i + 1;
    }
    assert g.lines[..i] == g.lines;
    if |g.lines| > 1 {
      markdown := markdown + "\n";
    }
  }

  /** The loop over the groups of a result, appending to `markdown`. */
  method AppendGroups(markdown0: string, groups: seq<ContentMatch>) returns (markdown: string)
    ensures markdown == markdown0 + ConcatMap(groups, GroupText)
  {
    markdown := markdown0;
    var i := 0;
    while i < |groups|
      invariant i <= |groups|
      invariant markdown == markdown0 + ConcatMap(groups[..i], GroupText)
    {
      var group := FormatGroup(groups[i]);
      ConcatAssoc(markdown0, ConcatMap(groups[..i], GroupText), group);
      markdown := markdown + group;
      ConcatMapStep(groups, GroupText, i);
      i := i + 1;
    }
    assert groups[..i] == groups;
  }

  /** `formatCodeSearchResult(result)`. */
  method FormatCodeSearchResult(r: CodeSearchResult) returns (markdown: string)
    ensures markdown == ResultText(r)
  {
    var filePath := if Given(r.path) then r.path.value else "Unknown File";
    var fileLink := if Given(r.selfHref) then FormatUrl(r.selfHref, Some(filePath)) else filePath;
    var heading := "### " + fileLink + "\n\n";
    var langHint := LanguageHintAsWritten(filePath);
    var intro := MatchSummary(r.contentMatchCount) + Fence + langHint + "\n";
    markdown := heading + intro;
    markdown := AppendGroups(markdown, r.contentMatches);
    markdown := markdown + ResultClose;
  }

  /** The loop over the results, appending to `markdown`. */
  method AppendResults(markdown0: string, results: seq<CodeSearchResult>) returns (markdown: string)
    ensures markdown == markdown0 + ConcatMap(results, ResultText)
  {
    markdown := markdown0;
    var i := 0;
    while i < |results|
      invariant i <= |results|
      invariant markdown == markdown0 + ConcatMap(results[..i], ResultText)
    {
      var text := FormatCodeSearchResult(results[i]);
      ConcatAssoc(markdown0, ConcatMap(results[..i], ResultText), text);
      markdown := markdown + text;
      ConcatMapStep(results, ResultText, i);
      i := i + 1;
    }
    assert results[..i] == results;
  }

  /** `formatCodeSearchResults(searchResponse)`, with the time stamp as `retrievedAt`. */
  method FormatCodeSearchResults(values: Option<seq<CodeSearchResult>>, size: int, retrievedAt: string)
    returns (markdown: string)
    ensures markdown == CodeSearchText(values, size, retrievedAt)
  {
    var results := if values.Some? then values.value else [];
    if |results| == 0 {
      return NoCodeMatches + "\n\n" + "\n" + RetrievedFooter(retrievedAt);
    }
    markdown := AppendResults(CodeHeader(size), results);
    markdown := markdown + "\n" + RetrievedFooter(retrievedAt);
  }

  // ---------------------------------------------------------------------------
  // Content search
  // ---------------------------------------------------------------------------

  /** `v?.[key]`: a field of an object, nothing for any other value or for no value. */
  function Field(v: Option<Json>, key: string): (r: Option<Json>)
    ensures r.Some? ==> v.Some? && v.value.JObj? && (key, r.value) in v.value.fields
  {
    if v.Some? && v.value.JObj? then
      match Member(v.value, key)
      case Value(x) => Some(x)
      case _ => None
    else None
  }

  /** JavaScript truthiness of a value that may be missing. */
  predicate Holds(v: Option<Json>)
  {
    v.Some? && Truthy(v.value)
  }

  /** `String(x)` of a value known to be there. */
  function Text(v: Option<Json>): string
    requires v.Some?
  {
    ToJsString(v.value)
  }

  function Get(item: Json, key: string): Option<Json>
  {
    Field(Some(item), key)
  }

  /** `links?.[rel]?.href`. */
  function Href(item: Json, rel: string): Option<Json>
  {
    Field(Field(Get(item, "links"), rel), "href")
  }

  /** `type || 'Unknown'`. */
  function TypeText(item: Json): string
  {
    if Holds(Get(item, "type")) then Text(Get(item, "type")) else "Unknown"
  }

  function Title(item: Json): string
  {
    if Holds(Get(item, "title")) then Text(Get(item, "title"))
    else if Holds(Get(item, "name")) then Text(Get(item, "name"))
    else if Holds(Get(item, "summary")) then Ellipsize(Text(Get(item, "summary")), 80)
    else "Untitled"
  }

  /**
   * The title is the first of `title`, `name` and `summary` that is truthy, the summary cut
   * to 80 characters; an entry with none of them is `Untitled`.
   */
  lemma TitlePrecedence(item: Json)
    ensures Holds(Get(item, "title")) ==> Title(item) == Text(Get(item, "title"))
    ensures !Holds(Get(item, "title")) && Holds(Get(item, "name")) ==> Title(item) == Text(Get(item, "name"))
    ensures !Holds(Get(item, "title")) && !Holds(Get(item, "name")) && Holds(Get(item, "summary")) ==>
      var summary := Text(Get(item, "summary"));
      (|summary| <= 80 ==> Title(item) == summary) &&
      (|summary| > 80 ==> |Title(item)| == 83 && StartsWith(Title(item), summary[..80]) && Title(item)[80..] == "...")
    ensures !Holds(Get(item, "title")) && !Holds(Get(item, "name")) && !Holds(Get(item, "summary")) ==>
      Title(item) == "Untitled"
  {
  }

  /** The link: the `html` href when there is one, else the `self` href. */
  function Link(item: Json): (r: Option<string>)
    ensures r.Some? <==> Holds(Href(item, "html")) || Holds(Href(item, "self"))
    ensures Holds(Href(item, "html")) ==> r == Some(Text(Href(item, "html")))
    ensures !Holds(Href(item, "html")) && Holds(Href(item, "self")) ==> r == Some(Text(Href(item, "self")))
  {
    if Holds(Href(item, "html")) then Some(Text(Href(item, "html")))
    else if Holds(Href(item, "self")) then Some(Text(Href(item, "self")))
    else None
  }

  /** The title, as a link when the entry has one. */
  function Heading(item: Json): string
  {
    match Link(item)
    case Some(link) => FormatUrl(Some(link), Some(Title(item)))
    case None => Title(item)
  }

  /** The date line: the update date, else the creation date, else nothing. */
  function DateLine(item: Json, formatDate: string -> string): string
  {
    if Holds(Get(item, "updated_on")) then "**Updated**: " + formatDate(Text(Get(item, "updated_on"))) + "\n"
    else if Holds(Get(item, "created_on")) then "**Created**: " + formatDate(Text(Get(item, "created_on"))) + "\n"
    else ""
  }

  /** The text of the body: `description`, else `content`, cut to 500 characters. */
  function BodyText(item: Json): (r: Option<string>)
    ensures r.Some? <==> Holds(Get(item, "description")) || Holds(Get(item, "content"))
    ensures r.Some? ==>
      var source := if Holds(Get(item, "description")) then Text(Get(item, "description")) else Text(Get(item, "content"));
      |r.value| <= 503 && (|source| <= 500 ==> r.value == source) && (|source| > 500 ==> StartsWith(r.value, source[..500]) && r.value[500..] == "...")
  {
    if Holds(Get(item, "description")) then Some(Ellipsize(Text(Get(item, "description")), 500))
    else if Holds(Get(item, "content")) then Some(Ellipsize(Text(Get(item, "content")), 500))
    else None
  }

  function BodyBlock(item: Json): string
  {
    match BodyText(item)
    case Some(t) => "\n" + t + "\n\n"
    case None => ""
  }

  function ItemHeading(item: Json): string
  {
    "### " + Heading(item) + "\n\n"
  }

  /** The type line and the date line. */
  function ItemDetails(item: Json, formatDate: string -> string): string
  {
    "**Type**: " + TypeText(item) + "\n" + DateLine(item, formatDate)
  }

  /** One entry of the content search answer. */
  function ItemText(item: Json, formatDate: string -> string): string
  {
    ItemHeading(item) + ItemDetails(item, formatDate) + BodyBlock(item) + "\n"
  }

  const NoContentMatches := "**No content matches found.**"

  function ContentHeader(typeDisplay: Option<string>, size: int): string
  {
    var typeStr := if typeDisplay.Some? then typeDisplay.value else "Content";
    "## " + typeStr + " Search Results\n\nFound " + IntToString(size) + " matches for the content search query.\n\n"
  }

  /**
   * `formatContentSearchResults(response, contentType)`; `typeDisplay` is the display name of
   * the content type filter, when one was applied.
   */
  function ContentSearchText(values: Option<seq<Json>>, size: int, typeDisplay: Option<string>,
                             formatDate: string -> string, retrievedAt: string): string
  {
    var results := ValuesOrEmpty(values);
    if |results| == 0 then NoContentMatches + "\n\n" + "\n" + RetrievedFooter(retrievedAt)
    else ContentHeader(typeDisplay, size) + ConcatMap(results, item => ItemText(item, formatDate)) + RetrievedFooter(retrievedAt)
  }

  /** Some entry is `null`: reading its `type` throws a TypeError. */
  predicate HasNullEntry(results: seq<Json>)
  {
    exists i :: 0 <= i < |results| && results[i].JNull?
  }

  /**
   * What `formatContentSearchResults` does: the answer text, or `None` when it throws because
   * an entry is `null` (the `forEach` reads `typedResult.type` before anything else).
   */
  function ContentSearchOutcome(values: Option<seq<Json>>, size: int, typeDisplay: Option<string>,
                                formatDate: string -> string, retrievedAt: string): Option<string>
  {
    if HasNullEntry(ValuesOrEmpty(values)) then None
    else Some(ContentSearchText(values, size, typeDisplay, formatDate, retrievedAt))
  }

  /**
   * The answer is missing exactly when some entry is `null`; an empty list never throws, and a
   * list of objects always gives the answer text.
   */
  lemma ContentSearchThrows(values: Option<seq<Json>>, size: int, typeDisplay: Option<string>,
                            formatDate: string -> string, retrievedAt: string)
    ensures ContentSearchOutcome(values, size, typeDisplay, formatDate, retrievedAt).None? <==>
      exists i :: 0 <= i < |ValuesOrEmpty(values)| && ValuesOrEmpty(values)[i] == JNull
    ensures |ValuesOrEmpty(values)| == 0 ==>
      ContentSearchOutcome(values, size, typeDisplay, formatDate, retrievedAt) == Some(NoContentMatches + "\n\n" + "\n" + RetrievedFooter(retrievedAt))
    ensures (forall i :: 0 <= i < |ValuesOrEmpty(values)| ==> ValuesOrEmpty(values)[i].JObj?) ==>
      ContentSearchOutcome(values, size, typeDisplay, formatDate, retrievedAt) == Some(ContentSearchText(values, size, typeDisplay, formatDate, retrievedAt))
  {
  }

  /**
   * An entry's heading links its title when the entry has a link; the body, when present,
   * stands between blank lines and is at most 503 characters long.
   */
  lemma ItemShape(item: Json, formatDate: string -> string)
    ensures Link(item).None? ==> StartsWith(ItemText(item, formatDate), "### " + Title(item) + "\n\n")
    ensures Link(item).Some? ==>
      StartsWith(ItemText(item, formatDate), "### " + FormatUrl(Link(item), Some(Title(item))) + "\n\n")
    ensures BodyText(item).Some? ==>
      EndsWith(ItemText(item, formatDate), "\n" + BodyText(item).value + "\n\n" + "\n") && |BodyText(item).value| <= 503
    ensures BodyText(item).None? ==> EndsWith(ItemText(item, formatDate), "\n")
  {
    Framed4(ItemHeading(item), ItemDetails(item, formatDate), BodyBlock(item), "\n", "");
  }

  /**
   * The content answer says that nothing matched exactly when there are no results;
   * otherwise it shows every entry. Both end with the retrieval footer.
   */
  lemma ContentSearchShape(values: Option<seq<Json>>, size: int, typeDisplay: Option<string>,
                           formatDate: string -> string, retrievedAt: string)
    ensures StartsWith(ContentSearchText(values, size, typeDisplay, formatDate, retrievedAt), NoContentMatches)
      <==> |ValuesOrEmpty(values)| == 0
    ensures forall i :: 0 <= i < |ValuesOrEmpty(values)| ==>
      Contains(ContentSearchText(values, size, typeDisplay, formatDate, retrievedAt), ItemText(ValuesOrEmpty(values)[i], formatDate))
    ensures EndsWith(ContentSearchText(values, size, typeDisplay, formatDate, retrievedAt), RetrievedFooter(retrievedAt))
  {
    var results := ValuesOrEmpty(values);
    var footer := RetrievedFooter(retrievedAt);
    if |results| == 0 {
      Framed3(NoContentMatches + "\n\n", "\n", footer, "");
      Framed3(NoContentMatches, "\n\n", "\n", "");
    } else {
      var head := ContentHeader(typeDisplay, size);
      var f := item => ItemText(item, formatDate);
      var body := ConcatMap(results, f);
      Framed3(head, body, footer, "");
      var r := head + body + footer;
      assert r[0] == head[0] == '#';
      assert NoContentMatches[0] == '*';
      forall i | 0 <= i < |results| ensures Contains(r, ItemText(results[i], formatDate)) {
        ConcatMapContains(results, f, i);
        Framed3(head, body, footer, f(results[i]));
      }
    }
  }

  /** The body of the `forEach` of `formatContentSearchResults`: one entry; `None` when it throws on a `null` entry. */
  method FormatContentItem(item: Json, formatDate: string -> string) returns (markdown: Option<string>)
    ensures markdown.None? <==> item.JNull?
    ensures markdown.Some? ==> markdown.value == ItemText(item, formatDate)
  {
    if item.JNull? {
      return None;
    }
    var title := ChooseTitle(item);
    var link := ChooseLink(item);
    var text := "### ";
    if link.Some? {
      text := text + FormatUrl(link, Some(title));
    } else {
      text := text + title;
    }
    text := text + "\n\n";
    assert text == ItemHeading(item);
    var details := "**Type**: " + TypeText(item) + "\n" + DateLine(item, formatDate);
    text := text + details;
    text := text + BodyBlock(item);
    text := text + "\n";
    return Some(text);
  }

  /** The `title` selection: the first truthy of `title`, `name` and `summary`. */
  method ChooseTitle(item: Json) returns (title: string)
    ensures title == Title(item)
  {
    title := "Untitled";
    var t := Get(item, "title");
    var n := Get(item, "name");
    var s := Get(item, "summary");
    if Holds(t) {
      title := Text(t);
    } else if Holds(n) {
      title := Text(n);
    } else if Holds(s) {
      var summary := Text(s);
      title := summary[..if |summary| > 80 then 80 else |summary|] + (if |summary| > 80 then "..." else "");
      assert |summary| <= 80 ==> summary[..|summary|] == summary;
    }
  }

  /** The `link` selection: the `html` href, else the `self` href, else none. */
  method ChooseLink(item: Json) returns (link: Option<string>)
    ensures link == Link(item)
  {
    link := None;
    var html := Href(item, "html");
    var self := Href(item, "self");
    if Holds(html) {
      link := Some(Text(html));
    } else if Holds(self) {
      link := Some(Text(self));
    }
  }

  lemma NoNullStep(results: seq<Json>, i: nat)
    requires i < |results| && !results[i].JNull?
    requires forall j :: 0 <= j < i ==> !results[j].JNull?
    ensures forall j :: 0 <= j < i + 1 ==> !results[j].JNull?
  {
  }

  /** The loop over the entries, appending to `markdown`; `None` when an entry throws. */
  method AppendItems(markdown0: string, results: seq<Json>, formatDate: string -> string) returns (markdown: Option<string>)
    ensures markdown.None? <==> HasNullEntry(results)
    ensures markdown.Some? ==> markdown.value == markdown0 + ConcatMap(results, item => ItemText(item, formatDate))
  {
    ghost var f := item => ItemText(item, formatDate);
    var text := markdown0;
    var i := 0;
    while i < |results|
      invariant i <= |results|
      invariant forall j :: 0 <= j < i ==> !results[j].JNull?
      invariant text == markdown0 + ConcatMap(results[..i], f)
    {
      var item := FormatContentItem(results[i], formatDate);
      if item.None? {
        assert results[i].JNull?;
        assert HasNullEntry(results);
        return None;
      }
      NoNullStep(results, i);
      ConcatAssoc(markdown0, ConcatMap(results[..i], f), item.value);
      text := text + item.value;
      ConcatMapStep(results, f, i);
      i := i + 1;
    }
    assert results[..i] == results;
    assert !HasNullEntry(results);
    return Some(text);
  }

  /** `formatContentSearchResults(response, contentType)`, with the time stamp as `retrievedAt`. */
  method FormatContentSearchResults(values: Option<seq<Json>>, size: int, typeDisplay: Option<string>,
                                    formatDate: string -> string, retrievedAt: string) returns (markdown: Option<string>)
    ensures markdown == ContentSearchOutcome(values, size, typeDisplay, formatDate, retrievedAt)
  {
    var results := if values.Some? then values.value else [];
    if |results| == 0 {
      return Some(NoContentMatches + "\n\n" + "\n" + RetrievedFooter(retrievedAt));
    }
    var body := AppendItems(ContentHeader(typeDisplay, size), results, formatDate);
    if body.None? {
      return None;
    }
    return Some(body.value + RetrievedFooter(retrievedAt));
  }
}
