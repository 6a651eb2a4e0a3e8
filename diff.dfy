/**
 * `formatDiff`: a line-by-line pass over a unified git diff that renders each file as a
 * heading and a fenced `diff` block, with a cap on the files shown and on the lines shown
 * per file. The pass is specified by a step function over its state; the method performs
 * the loop of the source and is proved equal to it.
 */
module DiffFormat {
  import opened Wrappers
  import opened Strings

  // ---------------------------------------------------------------- file name

  /** Characters `.` in a JavaScript regular expression does not match. */
  predicate IsLineTerminator(c: char)
  {
    c == '\n' || c == '\r' || c == '\U{2028}' || c == '\U{2029}'
  }

  /** The first line terminator at or after `from`, or the end. */
  function LineEnd(s: string, from: nat): (e: nat)
    requires from <= |s|
    ensures from <= e <= |s|
    ensures forall i :: from <= i < e ==> !IsLineTerminator(s[i])
    ensures e < |s| ==> IsLineTerminator(s[e])
    decreases |s| - from
  {
    if from == |s| || IsLineTerminator(s[from]) then from else LineEnd(s, from + 1)
  }

  predicate SepAt(s: string, k: int)
  {
    0 <= k && k + 3 <= |s| && s[k..k + 3] == " b/"
  }

  /** The last ` b/` starting in [from, j]. */
  function LastSep(s: string, from: int, j: int): (r: Option<int>)
    ensures r.Some? ==> from <= r.value <= j && SepAt(s, r.value) && forall k :: r.value < k <= j ==> !SepAt(s, k)
    ensures r.None? ==> forall k :: from <= k <= j ==> !SepAt(s, k)
    decreases j - from
  {
    if j < from then None else if SepAt(s, j) then Some(j) else LastSep(s, from, j - 1)
  }

  /** The last separator is found when nothing after it up to `j` is one. */
  lemma {:induction false} LastSepFinds(s: string, from: int, j: int, k: int)
    requires from <= k <= j && SepAt(s, k)
    requires forall m :: k < m <= j ==> !SepAt(s, m)
    ensures LastSep(s, from, j) == Some(k)
    decreases j - from
  {
    if j > k {
      LastSepFinds(s, from, j - 1, k);
    }
  }

  const GitPrefix := "diff --git a/"

  /**
   * The first group of `diff --git a\/(.*) b\/(.*)` for a match starting at `start`: the
   * greedy `(.*)` runs to the last ` b/` before the first line terminator.
   */
  function MatchAt(s: string, start: nat): Option<string>
    requires start <= |s|
  {
    if !StartsWith(s[start..], GitPrefix) then None
    else
      var from := start + |GitPrefix|;
      var e := LineEnd(s, from);
      match LastSep(s, from, e - 3)
      case None => None
      case Some(k) => Some(s[from..k])
  }

  /** The leftmost match of the pattern. */
  function FirstMatch(s: string, start: nat): Option<string>
    requires start <= |s|
    decreases |s| - start
  {
    match MatchAt(s, start)
    case Some(p) => Some(p)
    case None => if start == |s| then None else FirstMatch(s, start + 1)
  }

  /** The first path of a header line, or `unknown file` when the pattern does not match. */
  function ExtractFileName(line: string): string
  {
    match FirstMatch(line, 0)
    case Some(p) => p
    case None => "unknown file"
  }

  /** After a ` b/` at `k0` followed by a text without one, no later ` b/` starts. */
  lemma NoLaterSep(s: string, k0: nat, q: string)
    requires k0 + 3 <= |s| && s[k0..k0 + 3] == " b/" && s[k0 + 3..] == q
    requires forall k :: !SepAt(q, k)
    ensures forall k :: k0 < k <= |s| - 3 ==> !SepAt(s, k)
  {
    forall k | k0 < k <= |s| - 3 ensures !SepAt(s, k) {
      if k < k0 + 3 {
        assert s[k] == s[k0..k0 + 3][k - k0];
        assert s[k..k + 3][0] == s[k] != ' ';
      } else {
        assert s[k..k + 3] == q[k - k0 - 3..k - k0];
        assert !SepAt(q, k - k0 - 3);
      }
    }
  }

  /** A regular header yields its first path, even when that path itself contains ` b/`. */
  lemma ExtractFileNameOfHeader(p: string, q: string)
    requires forall i :: 0 <= i < |p| ==> !IsLineTerminator(p[i])
    requires forall i :: 0 <= i < |q| ==> !IsLineTerminator(q[i])
    requires forall k :: !SepAt(q, k)
    ensures ExtractFileName(GitPrefix + p + " b/" + q) == p
  {
    var s := GitPrefix + p + " b/" + q;
    var from := |GitPrefix|;
    var k0 := from + |p|;
    assert s[0..] == s;
    assert s[..from] == GitPrefix;
    assert s[from..k0] == p;
    assert s[k0..k0 + 3] == " b/";
    assert s[k0 + 3..] == q;
    forall i | from <= i < |s| ensures !IsLineTerminator(s[i]) {
      if i < k0 {
        assert s[i] == s[from..k0][i - from];
      } else if i < k0 + 3 {
        assert s[i] == s[k0..k0 + 3][i - k0];
      } else {
        assert s[i] == s[k0 + 3..][i - k0 - 3];
      }
    }
    assert LineEnd(s, from) == |s|;
    NoLaterSep(s, k0, q);
    LastSepFinds(s, from, |s| - 3, k0);
  }

  // ---------------------------------------------------------------- the pass

  /** The lines the pass emits, kept apart from the diff text they copy. */
  datatype DiffLine =
    | Copied(text: string)
    | FileHeading(name: string)
    | Blank
    | OpenFence
    | CloseFence
    | Omitted
    | Notice(maxFiles: int)

  function RenderLine(l: DiffLine): string
  {
    match l
    case Copied(t) => t
    case FileHeading(n) => "### " + n
    case Blank => ""
    case OpenFence => "```diff"
    case CloseFence => "```"
    case Omitted => "// ... more lines omitted for brevity ..."
    case Notice(m) => "*Output truncated. Only showing the first " + IntToString(m) + " files.*"
  }

  function Render(ls: seq<DiffLine>): (r: seq<string>)
  {
    if |ls| == 0 then [] else [RenderLine(ls[0])] + Render(ls[1..])
  }

  lemma {:induction false} RenderAppend(a: seq<DiffLine>, b: seq<DiffLine>)
    ensures Render(a + b) == Render(a) + Render(b)
    decreases |a|
  {
    if |a| == 0 {
      assert a + b == b;
    } else {
      assert (a + b)[1..] == a[1..] + b;
      RenderAppend(a[1..], b);
    }
  }

  lemma RenderOne(x: DiffLine)
    ensures Render([x]) == [RenderLine(x)]
  {
    assert [x][1..] == [];
  }

  lemma RenderTwo(x: DiffLine, y: DiffLine)
    ensures Render([x, y]) == [RenderLine(x), RenderLine(y)]
  {
    assert [x, y][1..] == [y];
    RenderOne(y);
  }

  lemma RenderThree(x: DiffLine, y: DiffLine, z: DiffLine)
    ensures Render([x, y, z]) == [RenderLine(x), RenderLine(y), RenderLine(z)]
  {
    assert [x, y, z][1..] == [y, z];
    RenderTwo(y, z);
  }

  /** The loop state of the source: the lines so far, `fileCount`, `inFile`, `truncated`, `lineCount`. */
  datatype DiffState = DiffState(out: seq<DiffLine>, fileCount: int, inFile: bool, truncated: bool, lineCount: int)

  const Start := DiffState([], 0, false, false, 0)

  predicate IsHeader(line: string)
  {
    StartsWith(line, "diff --git")
  }

  /** One iteration of the loop. */
  function Step(st: DiffState, line: string, maxFiles: int, maxLines: int): DiffState
  {
    if IsHeader(line) then
      var closed := if st.inFile then st.out + [CloseFence, Blank] else st.out;
      if st.fileCount + 1 > maxFiles then DiffState(closed, st.fileCount + 1, st.inFile, true, st.lineCount)
      else DiffState(closed + [FileHeading(ExtractFileName(line)), Blank, OpenFence], st.fileCount + 1, true, st.truncated, 0)
    else if st.inFile then
      if st.lineCount + 1 > maxLines then DiffState(st.out + [Omitted, CloseFence, Blank], st.fileCount, false, st.truncated, st.lineCount + 1)
      else DiffState(st.out + [Copied(line)], st.fileCount, true, st.truncated, st.lineCount + 1)
    else st
  }

  /** The loop over the remaining lines; it stops at truncation, as the `break` does. */
  function Run(lines: seq<string>, st: DiffState, maxFiles: int, maxLines: int): DiffState
    decreases |lines|
  {
    if |lines| == 0 || st.truncated then st else Run(lines[1..], Step(st, lines[0], maxFiles, maxLines), maxFiles, maxLines)
  }

  lemma RunStep(lines: seq<string>, st: DiffState, maxFiles: int, maxLines: int)
    requires |lines| > 0 && !st.truncated
    ensures Run(lines, st, maxFiles, maxLines) == Run(lines[1..], Step(st, lines[0], maxFiles, maxLines), maxFiles, maxLines)
  {
  }

  /**
   * What follows the loop: the fence closed whenever `inFile` is set, then the truncation
   * notice. A truncating header has already closed the open block but leaves `inFile` set,
   * so that block's fence is closed twice.
   */
  function Finish(st: DiffState, maxFiles: int): seq<DiffLine>
  {
    st.out + (if st.inFile then [CloseFence] else []) + (if st.truncated then [Blank, Notice(maxFiles)] else [])
  }

  /** What follows the loop, corrected: the fence of a block the loop left open, then the truncation notice. */
  function FinishCorrected(st: DiffState, maxFiles: int): seq<DiffLine>
  {
    st.out + (if st.inFile && !st.truncated then [CloseFence] else []) + (if st.truncated then [Blank, Notice(maxFiles)] else [])
  }

  const NoChanges := "*No changes found in this pull request.*"

  function DiffLines(rawDiff: string, maxFiles: int, maxLines: int): seq<DiffLine>
  {
    Finish(Run(Split(rawDiff, '\n'), Start, maxFiles, maxLines), maxFiles)
  }

  /** The lines with the fence closed once on truncation. */
  function DiffLinesCorrected(rawDiff: string, maxFiles: int, maxLines: int): seq<DiffLine>
  {
    FinishCorrected(Run(Split(rawDiff, '\n'), Start, maxFiles, maxLines), maxFiles)
  }

  /** The text `formatDiff(rawDiff, maxFiles, maxLinesPerFile)` returns. */
  function FormatDiffSpec(rawDiff: string, maxFiles: int, maxLines: int): string
  {
    if IsBlank(rawDiff) then NoChanges else Join(Render(DiffLines(rawDiff, maxFiles, maxLines)), "\n")
  }

  /** `formatDiff`, with the loop of the source. */
  method FormatDiff(rawDiff: string, maxFiles: int, maxLinesPerFile: int) returns (r: string)
    ensures r == FormatDiffSpec(rawDiff, maxFiles, maxLinesPerFile)
  {
    if IsBlank(rawDiff) {
      return NoChanges;
    }
    var lines := Split(rawDiff, '\n');
    var formattedLines := FormatLines(lines, maxFiles, maxLinesPerFile);
    r := Join(formattedLines, "\n");
  }

  /** The loop of `formatDiff` and the lines it appends after the loop. */
  method FormatLines(lines: seq<string>, maxFiles: int, maxLinesPerFile: int) returns (formattedLines: seq<string>)
    ensures formattedLines == Render(Finish(Run(lines, Start, maxFiles, maxLinesPerFile), maxFiles))
  {
    formattedLines := [];
    ghost var emitted: seq<DiffLine> := [];
    var fileCount := 0;
    var inFile := false;
    var truncated := false;
    var lineCount := 0;
    var i := 0;
    while i < |lines| && !truncated
      invariant 0 <= i <= |lines|
      invariant formattedLines == Render(emitted)
      invariant Run(lines[i..], DiffState(emitted, fileCount, inFile, truncated, lineCount), maxFiles, maxLinesPerFile)
        == Run(lines, Start, maxFiles, maxLinesPerFile)
    {
      var line := lines[i];
      ghost var before := DiffState(emitted, fileCount, inFile, truncated, lineCount);
      if StartsWith(line, "diff --git") {
        ghost var closed := if inFile then emitted + [CloseFence, Blank] else emitted;
        if inFile {
          assert formattedLines + ["```", ""] == Render(emitted + [CloseFence, Blank]) by {
            RenderAppend(emitted, [CloseFence, Blank]);
            RenderTwo(CloseFence, Blank);
          }
          formattedLines := formattedLines + ["```", ""];
          emitted := emitted + [CloseFence, Blank];
        }
        fileCount := fileCount + 1;
        if fileCount > maxFiles {
          truncated := true;
          assert Step(before, line, maxFiles, maxLinesPerFile) == DiffState(closed, fileCount, inFile, true, lineCount);
        } else {
          var currentFile := ExtractFileName(line);
          assert formattedLines + ["### " + currentFile, "", "```diff"] == Render(emitted + [FileHeading(currentFile), Blank, OpenFence]) by {
            RenderAppend(emitted, [FileHeading(currentFile), Blank, OpenFence]);
            RenderThree(FileHeading(currentFile), Blank, OpenFence);
          }
          formattedLines := formattedLines + ["### " + currentFile, "", "```diff"];
          emitted := emitted + [FileHeading(currentFile), Blank, OpenFence];
          inFile := true;
          lineCount := 0;
          assert Step(before, line, maxFiles, maxLinesPerFile) == DiffState(emitted, fileCount, true, truncated, 0);
        }
      } else if inFile {
        lineCount := lineCount + 1;
        if lineCount > maxLinesPerFile {
          assert formattedLines + ["// ... more lines omitted for brevity ...", "```", ""] == Render(emitted + [Omitted, CloseFence, Blank]) by {
            RenderAppend(emitted, [Omitted, CloseFence, Blank]);
            RenderThree(Omitted, CloseFence, Blank);
          }
          formattedLines := formattedLines + ["// ... more lines omitted for brevity ...", "```", ""];
          emitted := emitted + [Omitted, CloseFence, Blank];
          inFile := false;
        } else {
          assert formattedLines + [line] == Render(emitted + [Copied(line)]) by {
            RenderAppend(emitted, [Copied(line)]);
            RenderOne(Copied(line));
          }
          formattedLines := formattedLines + [line];
          emitted := emitted + [Copied(line)];
        }
        assert Step(before, line, maxFiles, maxLinesPerFile) == DiffState(emitted, fileCount, inFile, truncated, lineCount);
      } else {
        assert Step(before, line, maxFiles, maxLinesPerFile) == before;
      }
      assert Run(lines[i + 1..], DiffState(emitted, fileCount, inFile, truncated, lineCount), maxFiles, maxLinesPerFile)
        == Run(lines[i..], before, maxFiles, maxLinesPerFile) by {
        RunStep(lines[i..], before, maxFiles, maxLinesPerFile);
        assert lines[i..][1..] == lines[i + 1..];
      }
      i := i + 1;
    }
    ghost var final := DiffState(emitted, fileCount, inFile, truncated, lineCount);
    assert Run(lines[i..], final, maxFiles, maxLinesPerFile) == final;
    formattedLines := CloseLines(formattedLines, inFile, truncated, final, maxFiles);
  }

  /** The lines `formatDiff` appends after its loop: the open fence's close and the truncation notice. */
  method CloseLines(formattedLines0: seq<string>, inFile: bool, truncated: bool, ghost final: DiffState, maxFiles: int)
    returns (formattedLines: seq<string>)
    requires formattedLines0 == Render(final.out) && inFile == final.inFile && truncated == final.truncated
    ensures formattedLines == Render(Finish(final, maxFiles))
  {
    formattedLines := formattedLines0;
    ghost var emitted := final.out;
    if inFile {
      assert formattedLines + ["```"] == Render(emitted + [CloseFence]) by {
        RenderAppend(emitted, [CloseFence]);
        RenderOne(CloseFence);
      }
      formattedLines := formattedLines + ["```"];
      emitted := emitted + [CloseFence];
    }
    if truncated {
      var notice := "*Output truncated. Only showing the first " + IntToString(maxFiles) + " files.*";
      assert formattedLines + ["", notice] == Render(emitted + [Blank, Notice(maxFiles)]) by {
        RenderAppend(emitted, [Blank, Notice(maxFiles)]);
        RenderTwo(Blank, Notice(maxFiles));
      }
      formattedLines := formattedLines + ["", notice];
      emitted := emitted + [Blank, Notice(maxFiles)];
    }
    assert emitted == Finish(final, maxFiles);
  }

  // ---------------------------------------------------------------- properties

  /** Lines before the first header leave no trace. */
  lemma {:induction false} RunSkipsPreamble(pre: seq<string>, rest: seq<string>, st: DiffState, maxFiles: int, maxLines: int)
    requires !st.inFile && !st.truncated
    requires forall i :: 0 <= i < |pre| ==> !IsHeader(pre[i])
    ensures Run(pre + rest, st, maxFiles, maxLines) == Run(rest, st, maxFiles, maxLines)
  {
    if |pre| > 0 {
      assert (pre + rest)[1..] == pre[1..] + rest;
      assert (pre + rest)[0] == pre[0];
      assert Step(st, pre[0], maxFiles, maxLines) == st;
      RunSkipsPreamble(pre[1..], rest, st, maxFiles, maxLines);
    } else {
      assert pre + rest == rest;
    }
  }

  /**
   * The body of an open block: lines are copied verbatim up to the per-file cap; past it the
   * omission marker and a closing fence are emitted once and the remaining lines are dropped.
   */
  lemma {:induction false} RunBlockBody(body: seq<string>, st: DiffState, maxFiles: int, maxLines: int)
    requires st.inFile && !st.truncated && 0 <= st.lineCount <= maxLines
    requires forall i :: 0 <= i < |body| ==> !IsHeader(body[i])
    ensures var r := Run(body, st, maxFiles, maxLines);
      if st.lineCount + |body| <= maxLines then
        r == DiffState(st.out + Copies(body), st.fileCount, true, false, st.lineCount + |body|)
      else
        r == DiffState(st.out + Copies(body[..maxLines - st.lineCount]) + [Omitted, CloseFence, Blank], st.fileCount, false, false, maxLines + 1)
  {
    if st.lineCount + |body| <= maxLines {
      RunBlockFits(body, st, maxFiles, maxLines);
    } else {
      RunBlockOverflows(body, st, maxFiles, maxLines);
    }
  }

  lemma {:induction false} RunBlockFits(body: seq<string>, st: DiffState, maxFiles: int, maxLines: int)
    requires st.inFile && !st.truncated && st.lineCount + |body| <= maxLines
    requires forall i :: 0 <= i < |body| ==> !IsHeader(body[i])
    ensures Run(body, st, maxFiles, maxLines) == DiffState(st.out + Copies(body), st.fileCount, true, false, st.lineCount + |body|)
    decreases |body|
  {
    if |body| == 0 {
      assert st.out + Copies(body) == st.out;
    } else {
      RunStep(body, st, maxFiles, maxLines);
      var next := DiffState(st.out + [Copied(body[0])], st.fileCount, true, false, st.lineCount + 1);
      assert Step(st, body[0], maxFiles, maxLines) == next;
      RunBlockFits(body[1..], next, maxFiles, maxLines);
      assert next.out + Copies(body[1..]) == st.out + Copies(body) by {
        assert Copies(body) == [Copied(body[0])] + Copies(body[1..]);
      }
    }
  }

  lemma {:induction false} RunBlockOverflows(body: seq<string>, st: DiffState, maxFiles: int, maxLines: int)
    requires st.inFile && !st.truncated && 0 <= st.lineCount <= maxLines < st.lineCount + |body|
    requires forall i :: 0 <= i < |body| ==> !IsHeader(body[i])
    ensures Run(body, st, maxFiles, maxLines) ==
      DiffState(st.out + Copies(body[..maxLines - st.lineCount]) + [Omitted, CloseFence, Blank], st.fileCount, false, false, maxLines + 1)
    decreases |body|
  {
    RunStep(body, st, maxFiles, maxLines);
    var n := maxLines - st.lineCount;
    if n == 0 {
      var next := DiffState(st.out + [Omitted, CloseFence, Blank], st.fileCount, false, false, st.lineCount + 1);
      assert Step(st, body[0], maxFiles, maxLines) == next;
      RunDropsOutsideBlock(body[1..], next, maxFiles, maxLines);
      assert body[..n] == [];
      assert st.out + Copies(body[..n]) == st.out;
    } else {
      var next := DiffState(st.out + [Copied(body[0])], st.fileCount, true, false, st.lineCount + 1);
      assert Step(st, body[0], maxFiles, maxLines) == next;
      RunBlockOverflows(body[1..], next, maxFiles, maxLines);
      assert next.out + Copies(body[1..][..n - 1]) == st.out + Copies(body[..n]) by {
        assert body[..n][1..] == body[1..][..n - 1];
        assert Copies(body[..n]) == [Copied(body[0])] + Copies(body[1..][..n - 1]);
      }
    }
  }

  /** The copy of each line. */
  function Copies(ls: seq<string>): seq<DiffLine>
  {
    if |ls| == 0 then [] else [Copied(ls[0])] + Copies(ls[1..])
  }

  /** Every kept line is emitted as the line itself, whatever its prefix. */
  lemma {:induction false} CopiesVerbatim(ls: seq<string>)
    ensures |Copies(ls)| == |ls|
    ensures forall i :: 0 <= i < |ls| ==> Copies(ls)[i] == Copied(ls[i]) && RenderLine(Copies(ls)[i]) == ls[i]
  {
    if |ls| > 0 {
      CopiesVerbatim(ls[1..]);
    }
  }

  lemma {:induction false} RunDropsOutsideBlock(ls: seq<string>, st: DiffState, maxFiles: int, maxLines: int)
    requires !st.inFile && !st.truncated
    requires forall i :: 0 <= i < |ls| ==> !IsHeader(ls[i])
    ensures Run(ls, st, maxFiles, maxLines) == st
  {
    if |ls| > 0 {
      RunDropsOutsideBlock(ls[1..], st, maxFiles, maxLines);
    }
  }

  /** The number of header lines. */
  function Headers(lines: seq<string>): nat
  {
    if |lines| == 0 then 0 else (if IsHeader(lines[0]) then 1 else 0) + Headers(lines[1..])
  }

  function Headings(ls: seq<DiffLine>): nat
  {
    if |ls| == 0 then 0 else Headings(ls[..|ls| - 1]) + (if ls[|ls| - 1].FileHeading? then 1 else 0)
  }

  function Opens(ls: seq<DiffLine>): nat
  {
    if |ls| == 0 then 0 else Opens(ls[..|ls| - 1]) + (if ls[|ls| - 1] == OpenFence then 1 else 0)
  }

  function Closes(ls: seq<DiffLine>): nat
  {
    if |ls| == 0 then 0 else Closes(ls[..|ls| - 1]) + (if ls[|ls| - 1] == CloseFence then 1 else 0)
  }

  lemma {:induction false} CountsAppend(a: seq<DiffLine>, b: seq<DiffLine>)
    ensures Headings(a + b) == Headings(a) + Headings(b)
    ensures Opens(a + b) == Opens(a) + Opens(b)
    ensures Closes(a + b) == Closes(a) + Closes(b)
    decreases |b|
  {
    if |b| == 0 {
      assert a + b == a;
    } else {
      assert (a + b)[..|a + b| - 1] == a + b[..|b| - 1];
      CountsAppend(a, b[..|b| - 1]);
    }
  }

  lemma CountsOfOne(x: DiffLine)
    ensures Headings([x]) == (if x.FileHeading? then 1 else 0)
    ensures Opens([x]) == (if x == OpenFence then 1 else 0)
    ensures Closes([x]) == (if x == CloseFence then 1 else 0)
  {
    assert [x][..0] == [];
  }

  lemma CountsOfTwo(x: DiffLine, y: DiffLine)
    ensures Headings([x, y]) == Headings([x]) + Headings([y])
    ensures Opens([x, y]) == Opens([x]) + Opens([y])
    ensures Closes([x, y]) == Closes([x]) + Closes([y])
  {
    CountsAppend([x], [y]);
    assert [x] + [y] == [x, y];
  }

  lemma CountsOfThree(x: DiffLine, y: DiffLine, z: DiffLine)
    ensures Headings([x, y, z]) == Headings([x]) + Headings([y]) + Headings([z])
    ensures Opens([x, y, z]) == Opens([x]) + Opens([y]) + Opens([z])
    ensures Closes([x, y, z]) == Closes([x]) + Closes([y]) + Closes([z])
  {
    CountsOfTwo(y, z);
    CountsAppend([x], [y, z]);
    assert [x] + [y, z] == [x, y, z];
  }

  /** What one iteration adds: a heading and an opening fence per rendered header, a closing fence per block ended. */
  lemma StepCounts(st: DiffState, line: string, maxFiles: int, maxLines: int)
    requires !st.truncated
    ensures var r := Step(st, line, maxFiles, maxLines);
      var shown := IsHeader(line) && st.fileCount + 1 <= maxFiles;
      var ended := st.inFile && (IsHeader(line) || st.lineCount + 1 > maxLines);
      && Headings(r.out) == Headings(st.out) + (if shown then 1 else 0)
      && Opens(r.out) == Opens(st.out) + (if shown then 1 else 0)
      && Closes(r.out) == Closes(st.out) + (if ended then 1 else 0)
      && r.fileCount == st.fileCount + (if IsHeader(line) then 1 else 0)
      && (r.truncated <==> IsHeader(line) && st.fileCount + 1 > maxFiles)
      && (r.truncated ==> r.inFile == st.inFile)
  {
    if IsHeader(line) {
      StepCountsHeader(st, line, maxFiles, maxLines);
    } else if st.inFile {
      StepCountsBody(st, line, maxFiles, maxLines);
    }
  }

  lemma StepCountsHeader(st: DiffState, line: string, maxFiles: int, maxLines: int)
    requires !st.truncated && IsHeader(line)
    ensures var r := Step(st, line, maxFiles, maxLines);
      var shown := st.fileCount + 1 <= maxFiles;
      && Headings(r.out) == Headings(st.out) + (if shown then 1 else 0)
      && Opens(r.out) == Opens(st.out) + (if shown then 1 else 0)
      && Closes(r.out) == Closes(st.out) + (if st.inFile then 1 else 0)
  {
    var closed := if st.inFile then st.out + [CloseFence, Blank] else st.out;
    assert Headings(closed) == Headings(st.out) && Opens(closed) == Opens(st.out) &&
      Closes(closed) == Closes(st.out) + (if st.inFile then 1 else 0) by {
      if st.inFile {
        CountsAppend(st.out, [CloseFence, Blank]);
        CountsOfTwo(CloseFence, Blank);
        CountsOfOne(CloseFence);
        CountsOfOne(Blank);
      }
    }
    if st.fileCount + 1 <= maxFiles {
      var heading := FileHeading(ExtractFileName(line));
      assert Step(st, line, maxFiles, maxLines).out == closed + [heading, Blank, OpenFence];
      assert Headings(closed + [heading, Blank, OpenFence]) == Headings(closed) + 1 &&
        Opens(closed + [heading, Blank, OpenFence]) == Opens(closed) + 1 &&
        Closes(closed + [heading, Blank, OpenFence]) == Closes(closed) by {
        CountsAppend(closed, [heading, Blank, OpenFence]);
        CountsOfThree(heading, Blank, OpenFence);
        CountsOfOne(heading);
        CountsOfOne(Blank);
        CountsOfOne(OpenFence);
      }
    } else {
      assert Step(st, line, maxFiles, maxLines).out == closed;
    }
  }

  lemma StepCountsBody(st: DiffState, line: string, maxFiles: int, maxLines: int)
    requires !st.truncated && !IsHeader(line) && st.inFile
    ensures var r := Step(st, line, maxFiles, maxLines);
      && Headings(r.out) == Headings(st.out)
      && Opens(r.out) == Opens(st.out)
      && Closes(r.out) == Closes(st.out) + (if st.lineCount + 1 > maxLines then 1 else 0)
  {
    if st.lineCount + 1 > maxLines {
      assert Step(st, line, maxFiles, maxLines).out == st.out + [Omitted, CloseFence, Blank];
      assert Headings(st.out + [Omitted, CloseFence, Blank]) == Headings(st.out) &&
        Opens(st.out + [Omitted, CloseFence, Blank]) == Opens(st.out) &&
        Closes(st.out + [Omitted, CloseFence, Blank]) == Closes(st.out) + 1 by {
        CountsAppend(st.out, [Omitted, CloseFence, Blank]);
        CountsOfThree(Omitted, CloseFence, Blank);
        CountsOfOne(Omitted);
        CountsOfOne(CloseFence);
        CountsOfOne(Blank);
      }
    } else {
      assert Step(st, line, maxFiles, maxLines).out == st.out + [Copied(line)];
      assert Headings(st.out + [Copied(line)]) == Headings(st.out) &&
        Opens(st.out + [Copied(line)]) == Opens(st.out) &&
        Closes(st.out + [Copied(line)]) == Closes(st.out) by {
        CountsAppend(st.out, [Copied(line)]);
        CountsOfOne(Copied(line));
      }
    }
  }

  /**
   * Files are counted up to one past the cap: the pass is truncated exactly when there are
   * more headers than `maxFiles`, and then exactly `maxFiles` headings are rendered.
   */
  lemma {:induction false} RunFileCount(lines: seq<string>, st: DiffState, maxFiles: int, maxLines: int)
    requires !st.truncated && 0 <= st.fileCount <= maxFiles && Headings(st.out) == st.fileCount
    ensures var r := Run(lines, st, maxFiles, maxLines);
      && r.fileCount == Min(st.fileCount + Headers(lines), maxFiles + 1)
      && (r.truncated <==> st.fileCount + Headers(lines) > maxFiles)
      && Headings(r.out) == Min(st.fileCount + Headers(lines), maxFiles)
    decreases |lines|
  {
    if |lines| > 0 {
      StepCounts(st, lines[0], maxFiles, maxLines);
      var next := Step(st, lines[0], maxFiles, maxLines);
      RunStep(lines, st, maxFiles, maxLines);
      if !next.truncated {
        RunFileCount(lines[1..], next, maxFiles, maxLines);
      }
    }
  }

  function Min(a: int, b: int): int
  {
    if a < b then a else b
  }

  /** While no truncation has happened, every opening fence is closed or its block is still open. */
  predicate FencesAccounted(st: DiffState)
  {
    Closes(st.out) + (if st.inFile then 1 else 0) == Opens(st.out)
  }

  lemma StepKeepsFences(st: DiffState, line: string, maxFiles: int, maxLines: int)
    requires !st.truncated && FencesAccounted(st)
    ensures var r := Step(st, line, maxFiles, maxLines);
      if r.truncated then Closes(r.out) == Opens(r.out) && r.inFile == st.inFile else FencesAccounted(r)
  {
    StepCounts(st, line, maxFiles, maxLines);
  }

  lemma {:induction false} RunKeepsFences(lines: seq<string>, st: DiffState, maxFiles: int, maxLines: int)
    requires !st.truncated && FencesAccounted(st)
    ensures var r := Run(lines, st, maxFiles, maxLines);
      if r.truncated then Closes(r.out) == Opens(r.out) else FencesAccounted(r)
    decreases |lines|
  {
    if |lines| > 0 {
      StepKeepsFences(st, lines[0], maxFiles, maxLines);
      var next := Step(st, lines[0], maxFiles, maxLines);
      if !next.truncated {
        RunKeepsFences(lines[1..], next, maxFiles, maxLines);
      }
    }
  }

  /**
   * Fences balance unless the pass is truncated inside an open block; then the closing
   * fence appears once more than the opening ones (it is emitted before the cap check and
   * again after the loop).
   */
  lemma FenceBalance(rawDiff: string, maxFiles: int, maxLines: int)
    ensures var st := Run(Split(rawDiff, '\n'), Start, maxFiles, maxLines);
      var ls := DiffLines(rawDiff, maxFiles, maxLines);
      Closes(ls) == Opens(ls) + (if st.truncated && st.inFile then 1 else 0)
  {
    var st := Run(Split(rawDiff, '\n'), Start, maxFiles, maxLines);
    RunKeepsFences(Split(rawDiff, '\n'), Start, maxFiles, maxLines);
    var tail1: seq<DiffLine> := if st.inFile then [CloseFence] else [];
    var tail2: seq<DiffLine> := if st.truncated then [Blank, Notice(maxFiles)] else [];
    CountsAppend(st.out, tail1);
    CountsAppend(st.out + tail1, tail2);
    CountsOfOne(CloseFence);
    CountsOfTwo(Blank, Notice(maxFiles));
    CountsOfOne(Blank);
    CountsOfOne(Notice(maxFiles));
  }

  /** Corrected, every opening fence has exactly one closing fence, truncated or not. */
  lemma FenceBalanceCorrected(rawDiff: string, maxFiles: int, maxLines: int)
    ensures var ls := DiffLinesCorrected(rawDiff, maxFiles, maxLines);
      Closes(ls) == Opens(ls)
  {
    var st := Run(Split(rawDiff, '\n'), Start, maxFiles, maxLines);
    RunKeepsFences(Split(rawDiff, '\n'), Start, maxFiles, maxLines);
    var tail1: seq<DiffLine> := if st.inFile && !st.truncated then [CloseFence] else [];
    var tail2: seq<DiffLine> := if st.truncated then [Blank, Notice(maxFiles)] else [];
    CountsAppend(st.out, tail1);
    CountsAppend(st.out + tail1, tail2);
    CountsOfOne(CloseFence);
    CountsOfTwo(Blank, Notice(maxFiles));
    CountsOfOne(Blank);
    CountsOfOne(Notice(maxFiles));
  }

  /** The pass is truncated exactly when there are more headers than the cap, with `maxFiles` headings shown. */
  lemma DiffFileCap(rawDiff: string, maxFiles: int, maxLines: int)
    requires maxFiles >= 0
    ensures var lines := Split(rawDiff, '\n');
      var st := Run(lines, Start, maxFiles, maxLines);
      && (st.truncated <==> Headers(lines) > maxFiles)
      && Headings(DiffLines(rawDiff, maxFiles, maxLines)) == Min(Headers(lines), maxFiles)
  {
    var lines := Split(rawDiff, '\n');
    var st := Run(lines, Start, maxFiles, maxLines);
    RunFileCount(lines, Start, maxFiles, maxLines);
    var tail1: seq<DiffLine> := if st.inFile then [CloseFence] else [];
    var tail2: seq<DiffLine> := if st.truncated then [Blank, Notice(maxFiles)] else [];
    CountsAppend(st.out, tail1);
    CountsAppend(st.out + tail1, tail2);
    CountsOfOne(CloseFence);
    CountsOfTwo(Blank, Notice(maxFiles));
    CountsOfOne(Blank);
    CountsOfOne(Notice(maxFiles));
  }

  /** The doubled fence on a concrete diff: two files, a cap of one, the first block open. */
  lemma DoubleCloseExample()
    ensures Finish(Run(["diff --git a/x b/x", "+1", "diff --git a/y b/y"], Start, 1, 100), 1) ==
      [FileHeading("x"), Blank, OpenFence, Copied("+1"), CloseFence, Blank, CloseFence, Blank, Notice(1)]
  {
    var out := [FileHeading("x"), Blank, OpenFence, Copied("+1"), CloseFence, Blank];
    DoubleCloseRun();
    assert Finish(DiffState(out, 2, true, true, 1), 1) == out + [CloseFence] + [Blank, Notice(1)];
  }

  /** Corrected, the same diff closes its one block once, then gives the notice. */
  lemma SingleCloseExample()
    ensures FinishCorrected(Run(["diff --git a/x b/x", "+1", "diff --git a/y b/y"], Start, 1, 100), 1) ==
      [FileHeading("x"), Blank, OpenFence, Copied("+1"), CloseFence, Blank, Blank, Notice(1)]
  {
    var out := [FileHeading("x"), Blank, OpenFence, Copied("+1"), CloseFence, Blank];
    DoubleCloseRun();
    assert FinishCorrected(DiffState(out, 2, true, true, 1), 1) == out + [Blank, Notice(1)];
  }

  /** The loop on that diff: the second header closes the open block, then truncates. */
  lemma DoubleCloseRun()
    ensures Run(["diff --git a/x b/x", "+1", "diff --git a/y b/y"], Start, 1, 100) ==
      DiffState([FileHeading("x"), Blank, OpenFence, Copied("+1"), CloseFence, Blank], 2, true, true, 1)
  {
    var l0, l1, l2 := "diff --git a/x b/x", "+1", "diff --git a/y b/y";
    var s1 := DiffState([FileHeading("x"), Blank, OpenFence], 1, true, false, 0);
    var s2 := DiffState(s1.out + [Copied(l1)], 1, true, false, 1);
    var s3 := DiffState(s2.out + [CloseFence, Blank], 2, true, true, 1);
    DoubleCloseFirstStep();
    assert Step(s1, l1, 1, 100) == s2 by {
      assert !IsHeader(l1);
    }
    assert Step(s2, l2, 1, 100) == s3 by {
      assert IsHeader(l2);
    }
    RunStep([l0, l1, l2], Start, 1, 100);
    assert [l0, l1, l2][1..] == [l1, l2];
    RunStep([l1, l2], s1, 1, 100);
    assert [l1, l2][1..] == [l2];
    RunStep([l2], s2, 1, 100);
    assert s2.out + [CloseFence, Blank] == [FileHeading("x"), Blank, OpenFence, Copied("+1"), CloseFence, Blank];
  }

  lemma DoubleCloseFirstStep()
    ensures Step(Start, "diff --git a/x b/x", 1, 100) == DiffState([FileHeading("x"), Blank, OpenFence], 1, true, false, 0)
  {
    ExtractFileNameOfHeader("x", "x");
    assert GitPrefix + "x" + " b/" + "x" == "diff --git a/x b/x";
    assert IsHeader("diff --git a/x b/x");
  }
}
