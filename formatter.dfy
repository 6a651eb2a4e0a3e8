/**
 * The markdown helpers of the formatter utility: links, pagination text, headings, bullet
 * and numbered lists. Date rendering is a parameter (`formatDate` reads the clock and the
 * locale).
 */
module Formatter {
  import opened Wrappers
  import opened Strings

  /** `formatUrl(url, title)`: a markdown link, `Not available` without a url. */
  function FormatUrl(url: Option<string>, title: Option<string>): (r: string)
    ensures url.None? || url.value == "" ==> r == "Not available"
    ensures url.Some? && url.value != "" ==> StartsWith(r, "[") && EndsWith(r, ")")
  {
    if url.None? || url.value == "" then "Not available"
    else "[" + (if title.Some? && title.value != "" then title.value else url.value) + "](" + url.value + ")"
  }

  /**
   * The link text sits between `[` and `](`, the target between `](` and the closing `)`;
   * the text is the title, or the url when the title is absent or empty.
   */
  lemma FormatUrlParts(url: string, title: Option<string>)
    requires url != ""
    ensures var r := FormatUrl(Some(url), title);
      var text := if title.Some? && title.value != "" then title.value else url;
      && |r| == |text| + |url| + 4
      && r[0] == '[' && r[1..|text| + 1] == text && r[|text| + 1..|text| + 3] == "]("
      && r[|text| + 3..|r| - 1] == url && r[|r| - 1] == ')'
  {
  }

  /** An absent or empty title is the url itself. */
  lemma FormatUrlTitleDefault(url: string, title: Option<string>)
    requires title.None? || title.value == ""
    ensures FormatUrl(Some(url), title) == FormatUrl(Some(url), Some(url))
  {
  }

  /** `word` in the singular exactly for a count of one. */
  function Noun(n: int, word: string): (r: string)
    ensures n == 1 <==> r == word
    ensures n != 1 ==> r == word + "s"
  {
    if n == 1 then word else word + "s"
  }

  function PaginationSummary(total: int): string
  {
    "*Showing " + IntToString(total) + " " + Noun(total, "item") + "."
  }

  /** `${value}` of an optional string template argument. */
  function Interpolate(o: Option<string>): string
  {
    if o.Some? then o.value else "undefined"
  }

  /**
   * `formatPagination(totalItems, hasMore, nextCursor)`: the item summary, closed by `*` when
   * there is nothing more, else followed by the notice and the cursor to pass next.
   */
  function FormatPagination(total: int, hasMore: bool, nextCursor: Option<string>): (r: string)
    ensures StartsWith(r, PaginationSummary(total))
    ensures !hasMore ==> |r| == |PaginationSummary(total)| + 1 && r[|r| - 1] == '*'
    ensures hasMore ==> StartsWith(r, PaginationSummary(total) + " More results are available.*") && EndsWith(r, "--cursor" + CursorArgument(nextCursor))
  {
    if !hasMore then PaginationSummary(total) + "*"
    else PaginationSummary(total) + " More results are available.*" + "\n\nTo see more results, use " + ("--cursor" + CursorArgument(nextCursor))
  }

  /** The quoted cursor after `--cursor`. */
  function CursorArgument(nextCursor: Option<string>): string
  {
    " \"" + Interpolate(nextCursor) + "\""
  }

  /** Neither the summary nor the closing `*` holds the letter `c`. */
  lemma SummaryLacksC(total: int)
    ensures forall i :: 0 <= i < |PaginationSummary(total) + "*"| ==> (PaginationSummary(total) + "*")[i] != 'c'
  {
    var n := IntToString(total);
    assert forall i :: 0 <= i < |n| ==> n[i] != 'c' by {
      if total < 0 {
        assert forall i :: 1 <= i < |n| ==> n[i] == NatToString(-total)[i - 1];
      }
    }
    var s := PaginationSummary(total) + "*";
    var noun := Noun(total, "item");
    assert s == "*Showing " + n + " " + noun + "." + "*";
    forall i | 0 <= i < |s| ensures s[i] != 'c' {
      if i < 9 + |n| && 9 <= i {
        assert s[i] == n[i - 9];
      } else if 10 + |n| <= i < 10 + |n| + |noun| {
        assert s[i] == noun[i - 10 - |n|];
      }
    }
  }

  /** The cursor hint appears exactly when there are more results. */
  lemma FormatPaginationHint(total: int, hasMore: bool, nextCursor: Option<string>)
    ensures Contains(FormatPagination(total, hasMore, nextCursor), "--cursor") <==> hasMore
  {
    var r := FormatPagination(total, hasMore, nextCursor);
    if hasMore {
      EndsWithContains(r, "--cursor", CursorArgument(nextCursor));
    } else {
      SummaryLacksC(total);
      assert "--cursor"[2] == 'c';
      MissingCharNotContained(r, "--cursor", 2);
    }
  }

  function Clamp(level: int): (l: int)
    ensures 1 <= l <= 6
    ensures 1 <= level <= 6 ==> l == level
  {
    if level < 1 then 1 else if level > 6 then 6 else level
  }

  /** `formatHeading(text, level)`: between one and six `#`, a space, the text. */
  function FormatHeading(text: string, level: int): (r: string)
    ensures var l := Clamp(level);
      |r| == l + 1 + |text| && r[..l] == Repeat('#', l) && r[l] == ' ' && r[l + 1..] == text
  {
    Repeat('#', Clamp(level)) + " " + text
  }

  /** A level outside [1, 6] renders as the nearest bound. */
  lemma FormatHeadingClamps(text: string, level: int)
    ensures FormatHeading(text, level) == FormatHeading(text, Clamp(level))
    ensures level <= 1 ==> FormatHeading(text, level) == "# " + text
    ensures level >= 6 ==> FormatHeading(text, level) == "###### " + text
  {
    assert Repeat('#', 1) == "#";
    assert Repeat('#', 6) == "######";
  }

  /** The values the formatters place in a bullet list. */
  datatype Value =
    | VUndefined
    | VNull
    /** A `Date` object; `formatDate` renders it. */
    | VDate(instant: string)
    /** An object with a string `url` and an optional `title`. */
    | VLink(url: string, title: Option<string>)
    | VStr(s: string)
    | VBool(b: bool)
    | VNum(n: int)
    /** Any other object, given with its `String(value)` text. */
    | VOther(text: string)

  /** `^\d{4}-\d{2}-\d{2}T\d{2}:\d{2}:\d{2}`: the string starts with an ISO-8601 date and time. */
  predicate LooksLikeTimestamp(s: string)
  {
    |s| >= 19 &&
    IsDigit(s[0]) && IsDigit(s[1]) && IsDigit(s[2]) && IsDigit(s[3]) && s[4] == '-' &&
    IsDigit(s[5]) && IsDigit(s[6]) && s[7] == '-' && IsDigit(s[8]) && IsDigit(s[9]) && s[10] == 'T' &&
    IsDigit(s[11]) && IsDigit(s[12]) && s[13] == ':' && IsDigit(s[14]) && IsDigit(s[15]) && s[16] == ':' &&
    IsDigit(s[17]) && IsDigit(s[18])
  }

  /** `formatValue(value)`; `formatDate` is the clock- and locale-dependent date renderer. */
  function FormatValue(v: Value, formatDate: string -> string): (r: string)
    ensures v.VBool? ==> r == (if v.b then "Yes" else "No")
    ensures v.VStr? && (StartsWith(v.s, "http://") || StartsWith(v.s, "https://")) ==> r == FormatUrl(Some(v.s), None)
    ensures v.VStr? && !StartsWith(v.s, "http://") && !StartsWith(v.s, "https://") && !LooksLikeTimestamp(v.s) ==> r == v.s
    ensures v.VUndefined? || v.VNull? ==> r == "Not available"
  {
    match v
    case VUndefined => "Not available"
    case VNull => "Not available"
    case VDate(d) => formatDate(d)
    case VLink(url, title) => FormatUrl(Some(url), title)
    case VStr(s) =>
      if StartsWith(s, "http://") || StartsWith(s, "https://") then FormatUrl(Some(s), None)
      else if LooksLikeTimestamp(s) then formatDate(s)
      else s
    case VBool(b) => if b then "Yes" else "No"
    case VNum(n) => IntToString(n)
    case VOther(text) => text
  }

  function KeyText(key: string, keyFormatter: Option<string -> string>): string
  {
    if keyFormatter.Some? then keyFormatter.value(key) else key
  }

  function BulletLine(key: string, v: Value, keyFormatter: Option<string -> string>, formatDate: string -> string): string
  {
    "- **" + KeyText(key, keyFormatter) + "**: " + FormatValue(v, formatDate)
  }

  /** The lines of a bullet list: one per entry whose value is neither `undefined` nor `null`, in order. */
  function BulletLines(items: seq<(string, Value)>, keyFormatter: Option<string -> string>, formatDate: string -> string): (r: seq<string>)
    ensures |r| <= |items|
  {
    if |items| == 0 then []
    else
      var init := BulletLines(items[..|items| - 1], keyFormatter, formatDate);
      var (k, v) := items[|items| - 1];
      if v.VUndefined? || v.VNull? then init else init + [BulletLine(k, v, keyFormatter, formatDate)]
  }

  function CountPresent(items: seq<(string, Value)>): nat
  {
    if |items| == 0 then 0
    else CountPresent(items[..|items| - 1]) + (if items[|items| - 1].1.VUndefined? || items[|items| - 1].1.VNull? then 0 else 1)
  }

  /** Exactly one line per present value; entries with no value leave the list unchanged. */
  lemma {:induction false} BulletLinesCount(items: seq<(string, Value)>, keyFormatter: Option<string -> string>, formatDate: string -> string)
    ensures |BulletLines(items, keyFormatter, formatDate)| == CountPresent(items)
  {
    if |items| > 0 {
      BulletLinesCount(items[..|items| - 1], keyFormatter, formatDate);
    }
  }

  /** When every value is present, line `i` renders entry `i`. */
  lemma {:induction false} BulletLinesInOrder(items: seq<(string, Value)>, keyFormatter: Option<string -> string>, formatDate: string -> string)
    requires forall i :: 0 <= i < |items| ==> !items[i].1.VUndefined? && !items[i].1.VNull?
    ensures |BulletLines(items, keyFormatter, formatDate)| == |items|
    ensures forall i :: 0 <= i < |items| ==>
      BulletLines(items, keyFormatter, formatDate)[i] == BulletLine(items[i].0, items[i].1, keyFormatter, formatDate)
  {
    if |items| > 0 {
      BulletLinesInOrder(items[..|items| - 1], keyFormatter, formatDate);
    }
  }

  /** `formatBulletList(items, keyFormatter)`. */
  method FormatBulletList(items: seq<(string, Value)>, keyFormatter: Option<string -> string>, formatDate: string -> string) returns (r: string)
    ensures r == Join(BulletLines(items, keyFormatter, formatDate), "\n")
  {
    var lines: seq<string> := [];
    for i := 0 to |items|
      invariant lines == BulletLines(items[..i], keyFormatter, formatDate)
    {
      assert items[..i + 1][..i] == items[..i];
      var (key, value) := items[i];
      if value.VUndefined? || value.VNull? {
        continue;
      }
      lines := lines + [BulletLine(key, value, keyFormatter, formatDate)];
    }
    assert items[..|items|] == items;
    r := Join(lines, "\n");
  }

  /** The key formatter the domain formatters pass: the key itself. */
  function SameKey(key: string): string
  {
    key
  }

  /** A bullet list with keys as given. */
  function Bullets(items: seq<(string, Value)>, formatDate: string -> string): string
  {
    Join(BulletLines(items, Some(SameKey), formatDate), "\n")
  }

  /** The keys of a bullet list's entries, in order. */
  function Keys(items: seq<(string, Value)>): (r: seq<string>)
    ensures |r| == |items| && forall i :: 0 <= i < |items| ==> r[i] == items[i].0
  {
    seq(|items|, i requires 0 <= i < |items| => items[i].0)
  }

  lemma KeysConcat(a: seq<(string, Value)>, b: seq<(string, Value)>)
    ensures Keys(a + b) == Keys(a) + Keys(b)
  {
  }

  /** `formatSeparator()`. */
  const Separator := "---"

  const ItemSeparator := "\n\n" + Separator + "\n\n"

  function MapIndexed<T>(items: seq<T>, formatter: (T, int) -> string): (r: seq<string>)
    ensures |r| == |items|
    ensures forall i :: 0 <= i < |items| ==> r[i] == formatter(items[i], i)
  {
    seq(|items|, i requires 0 <= i < |items| => formatter(items[i], i))
  }

  /** `formatNumberedList(items, formatter)`. */
  function FormatNumberedList<T>(items: seq<T>, formatter: (T, int) -> string): (r: string)
    ensures |items| == 0 ==> r == "No items."
    ensures |items| == 1 ==> r == formatter(items[0], 0)
  {
    if |items| == 0 then "No items." else Join(MapIndexed(items, formatter), ItemSeparator)
  }

  /** Each further item adds one separator and the item formatted with its index. */
  lemma NumberedListAppend<T>(items: seq<T>, x: T, formatter: (T, int) -> string)
    requires |items| > 0
    ensures FormatNumberedList(items + [x], formatter) ==
      FormatNumberedList(items, formatter) + ItemSeparator + formatter(x, |items|)
  {
    assert MapIndexed(items + [x], formatter) == MapIndexed(items, formatter) + [formatter(x, |items|)];
    JoinAppend(MapIndexed(items, formatter), formatter(x, |items|), ItemSeparator);
  }
}
