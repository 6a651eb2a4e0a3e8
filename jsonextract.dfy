/**
 * `CliTestUtil.extractJsonFromOutput`: find the JSON document a CLI command printed after
 * its log lines. The output is split into lines; the document starts at the first line that,
 * trimmed, starts with `{` and holds no `[` (log lines carry a bracketed timestamp). When the
 * text from there does not parse as a whole, the text is cut where the count of `{` minus `}`
 * first returns to zero and that prefix is parsed instead.
 */
module JsonExtract {
  import opened Wrappers
  import opened Strings
  import opened Json

  /** A line that looks like the start of the JSON output rather than a log line. */
  predicate IsJsonStart(line: string)
  {
    StartsWith(Trim(line), "{") && '[' !in Trim(line)
  }

  /** The index of the first line at or after `from` that satisfies `p`. */
  function FirstWhere(lines: seq<string>, p: string -> bool, from: nat): (r: Option<nat>)
    requires from <= |lines|
    ensures r.Some? ==> from <= r.value < |lines| && p(lines[r.value])
    decreases |lines| - from
  {
    if from == |lines| then None
    else if p(lines[from]) then Some(from)
    else FirstWhere(lines, p, from + 1)
  }

  /** The search finds the first line that satisfies `p`, and finds none only when no line does. */
  lemma {:induction false} FirstWhereIsFirst(lines: seq<string>, p: string -> bool, from: nat)
    requires from <= |lines|
    ensures FirstWhere(lines, p, from).None? <==> forall i :: from <= i < |lines| ==> !p(lines[i])
    ensures FirstWhere(lines, p, from).Some? ==>
      forall i :: from <= i < FirstWhere(lines, p, from).value ==> !p(lines[i])
    decreases |lines| - from
  {
    if from < |lines| && !p(lines[from]) {
      FirstWhereIsFirst(lines, p, from + 1);
    }
  }

  /** The index of the first line that starts the JSON output. */
  function FirstJsonStart(lines: seq<string>): Option<nat>
  {
    FirstWhere(lines, IsJsonStart, 0)
  }

  /** The count of `{` minus the count of `}` among the first `n` characters. */
  function Depth(s: string, n: nat): int
    requires n <= |s|
  {
    if n == 0 then 0
    else Depth(s, n - 1) + (if s[n - 1] == '{' then 1 else if s[n - 1] == '}' then -1 else 0)
  }

  /** The first length `n` past `from` at which the depth is zero: where the text is cut. */
  function FirstBalanced(s: string, from: nat): (r: Option<nat>)
    requires from <= |s|
    ensures r.Some? ==> from < r.value <= |s| && Depth(s, r.value) == 0
    decreases |s| - from
  {
    if from == |s| then None
    else if Depth(s, from + 1) == 0 then Some(from + 1)
    else FirstBalanced(s, from + 1)
  }

  /** The cut is at the first zero of the depth; there is none only when the depth never returns to zero. */
  lemma {:induction false} FirstBalancedIsFirst(s: string, from: nat)
    requires from <= |s|
    ensures FirstBalanced(s, from).None? <==> forall n :: from < n <= |s| ==> Depth(s, n) != 0
    ensures FirstBalanced(s, from).Some? ==>
      forall n :: from < n < FirstBalanced(s, from).value ==> Depth(s, n) != 0
    decreases |s| - from
  {
    if from < |s| && Depth(s, from + 1) != 0 {
      FirstBalancedIsFirst(s, from + 1);
      assert FirstBalanced(s, from) == FirstBalanced(s, from + 1);
      assert (forall n :: from < n <= |s| ==> Depth(s, n) != 0) <==>
        (forall n :: from + 1 < n <= |s| ==> Depth(s, n) != 0);
    } else if from < |s| {
      assert FirstBalanced(s, from) == Some(from + 1);
      assert !(Depth(s, from + 1) != 0);
    }
  }

  /** A text that opens with a character other than a brace (leading whitespace) is cut after that one character. */
  lemma CutAfterLeadingNonBrace(s: string)
    requires |s| > 0 && s[0] != '{' && s[0] != '}'
    ensures FirstBalanced(s, 0) == Some(1)
  {
    assert Depth(s, 1) == 0;
  }

  /** Braces inside JSON strings count too: a `}` in a string value ends the document early. */
  lemma BracesInStringsCount()
    ensures FirstBalanced("{\"a\":\"}\"}", 0) == Some(7)
  {
    var s := "{\"a\":\"}\"}";
    assert Depth(s, 1) == 1;
    assert Depth(s, 2) == 1;
    assert Depth(s, 3) == 1;
    assert Depth(s, 4) == 1;
    assert Depth(s, 5) == 1;
    assert Depth(s, 6) == 1;
    assert Depth(s, 7) == 0;
    assert FirstBalanced(s, 6) == Some(7);
    assert FirstBalanced(s, 5) == Some(7);
    assert FirstBalanced(s, 4) == Some(7);
    assert FirstBalanced(s, 3) == Some(7);
    assert FirstBalanced(s, 2) == Some(7);
    assert FirstBalanced(s, 1) == Some(7);
  }

  /** The text handed to `JSON.parse`: every line from the start line on, untrimmed. */
  function Candidate(output: string): Option<string>
  {
    var lines := Split(output, '\n');
    match FirstJsonStart(lines)
    case None => None
    case Some(k) => Some(Join(lines[k..], "\n"))
  }

  /** The extractor's answer, with `JSON.parse` supplied as `parse`. */
  function ExtractJson(output: string, parse: string -> ParseResult): Option<Json>
  {
    match Candidate(output)
    case None => None
    case Some(text) =>
      match parse(text)
      case Parsed(v) => Some(v)
      case SyntaxError(_) =>
        match FirstBalanced(text, 0)
        case None => None
        case Some(end) =>
          match parse(text[..end])
          case Parsed(v) => Some(v)
          case SyntaxError(_) => None
  }

  /** Without a line that starts the JSON output the answer is null, whatever else was printed. */
  lemma NoStartLine(output: string, parse: string -> ParseResult)
    requires forall i :: 0 <= i < |Split(output, '\n')| ==> !IsJsonStart(Split(output, '\n')[i])
    ensures ExtractJson(output, parse) == None
  {
    FirstWhereIsFirst(Split(output, '\n'), IsJsonStart, 0);
  }

  /**
   * When the start line is indented and the whole text does not parse, the cut is one
   * character long; the answer is null as soon as that character does not parse on its own.
   */
  lemma IndentedStartLine(output: string, parse: string -> ParseResult)
    requires Candidate(output).Some?
    requires var text := Candidate(output).value; |text| > 0 && IsJsWhitespace(text[0])
    requires parse(Candidate(output).value).SyntaxError?
    requires parse(Candidate(output).value[..1]).SyntaxError?
    ensures ExtractJson(output, parse) == None
  {
    CutAfterLeadingNonBrace(Candidate(output).value);
  }

  /** `extractJsonFromOutput(output)`. */
  method ExtractJsonFromOutput(output: string, parse: string -> ParseResult) returns (r: Option<Json>)
    ensures r == ExtractJson(output, parse)
  {
    var lines := Split(output, '\n');
    var jsonStartIndex := StartLine(lines);
    if jsonStartIndex == -1 {
      return None;
    }
    var jsonStr := Join(lines[jsonStartIndex..], "\n");
    assert Candidate(output) == Some(jsonStr);
    match parse(jsonStr)
    case Parsed(v) =>
      return Some(v);
    case SyntaxError(_) =>
      var endIndex := CutPoint(jsonStr);
      if endIndex > 0 {
        match parse(jsonStr[..endIndex])
        case Parsed(v) =>
          return Some(v);
        case SyntaxError(_) =>
          return None;
      }
      return None;
  }

  /** The first loop: the index of the start line, or -1. */
  method StartLine(lines: seq<string>) returns (jsonStartIndex: int)
    ensures jsonStartIndex == match FirstJsonStart(lines) case None => -1 case Some(k) => k
  {
    jsonStartIndex := -1;
    var i := 0;
    while i < |lines|
      invariant 0 <= i <= |lines|
      invariant FirstJsonStart(lines) == FirstWhere(lines, IsJsonStart, i)
    {
      if IsJsonStart(lines[i]) {
        jsonStartIndex := i;
        break;
      }
      i := i + 1;
    }
  }

  /** The brace-counting scan: the cut length, or 0 when the depth never returns to zero. */
  method CutPoint(s: string) returns (endIndex: nat)
    ensures endIndex <= |s|
    ensures endIndex == match FirstBalanced(s, 0) case None => 0 case Some(n) => n
  {
    var braceCount := 0;
    endIndex := 0;
    var i := 0;
    while i < |s|
      invariant 0 <= i <= |s|
      invariant braceCount == Depth(s, i)
      invariant FirstBalanced(s, 0) == FirstBalanced(s, i)
    {
      if s[i] == '{' {
        braceCount := braceCount + 1;
      }
      if s[i] == '}' {
        braceCount := braceCount - 1;
      }
      if braceCount == 0 {
        endIndex := i + 1;
        break;
      }
      i := i + 1;
    }
  }
}
