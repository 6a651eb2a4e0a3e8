/** The JavaScript string operations the core relies on, over `string = seq<char>`. */
module Strings {
  import opened Wrappers


  /** JavaScript truthiness of an optional string: present and not empty. */
  predicate Given(o: Option<string>)
  {
    o.Some? && o.value != ""
  }

  predicate StartsWith(s: string, prefix: string)
  {
    |prefix| <= |s| && s[..|prefix|] == prefix
  }

  predicate EndsWith(s: string, suffix: string)
  {
    |suffix| <= |s| && s[|s| - |suffix|..] == suffix
  }

  /** `s.includes(sub)`: `sub` occurs somewhere in `s`. */
  predicate Contains(s: string, sub: string)
    decreases |s|
  {
    StartsWith(s, sub) || (|s| > 0 && Contains(s[1..], sub))
  }

  lemma {:induction false} ContainsAt(a: string, b: string, c: string)
    ensures Contains(a + b + c, b)
    decreases |a|
  {
    if |a| == 0 {
      assert a + b + c == b + c;
      assert (b + c)[..|b|] == b;
    } else {
      assert (a + b + c)[1..] == a[1..] + b + c;
      ContainsAt(a[1..], b, c);
    }
  }

  /** A string ending with `sub + c` contains `sub`. */
  lemma EndsWithContains(s: string, sub: string, c: string)
    requires EndsWith(s, sub + c)
    ensures Contains(s, sub)
  {
    var k := |s| - |sub + c|;
    assert s == s[..k] + sub + c;
    ContainsAt(s[..k], sub, c);
  }

  /** A string in which some character of `sub` never occurs does not contain `sub`. */
  lemma {:induction false} MissingCharNotContained(s: string, sub: string, k: nat)
    requires k < |sub|
    requires forall i :: 0 <= i < |s| ==> s[i] != sub[k]
    ensures !Contains(s, sub)
    decreases |s|
  {
    if |sub| <= |s| {
      assert s[..|sub|][k] == s[k];
    }
    if |s| > 0 {
      MissingCharNotContained(s[1..], sub, k);
    }
  }

  lemma {:induction false} ContainsWithin(s: string, sub: string, a: string, c: string)
    requires Contains(s, sub)
    ensures Contains(a + s + c, sub)
    decreases |a|, |s|
  {
    if |a| > 0 {
      assert (a + s + c)[1..] == a[1..] + s + c;
      ContainsWithin(s, sub, a[1..], c);
    } else if StartsWith(s, sub) {
      assert a + s + c == s + c;
      assert (s + c)[..|sub|] == s[..|sub|];
    } else {
      assert a + s + c == s + c;
      assert (s + c)[1..] == s[1..] + c;
      ContainsWithin(s[1..], sub, "", c);
      assert "" + s[1..] + c == s[1..] + c;
    }
  }

  /** The characters `String.prototype.trim` removes: WhiteSpace and LineTerminator of ECMAScript. */
  predicate IsJsWhitespace(c: char)
  {
    c == '\t' || c == '\n' || c == '\U{000B}' || c == '\U{000C}' || c == '\r' || c == ' ' ||
    c == '\U{00A0}' || c == '\U{1680}' || ('\U{2000}' <= c <= '\U{200A}') ||
    c == '\U{2028}' || c == '\U{2029}' || c == '\U{202F}' || c == '\U{205F}' ||
    c == '\U{3000}' || c == '\U{FEFF}'
  }

  function TrimStart(s: string): (r: string)
    ensures |r| <= |s| && r == s[|s| - |r|..]
    ensures |r| > 0 ==> !IsJsWhitespace(r[0])
    ensures forall i :: 0 <= i < |s| - |r| ==> IsJsWhitespace(s[i])
  {
    if |s| > 0 && IsJsWhitespace(s[0]) then TrimStart(s[1..]) else s
  }

  function TrimEnd(s: string): (r: string)
    ensures |r| <= |s| && r == s[..|r|]
    ensures |r| > 0 ==> !IsJsWhitespace(r[|r| - 1])
    ensures forall i :: |r| <= i < |s| ==> IsJsWhitespace(s[i])
  {
    if |s| > 0 && IsJsWhitespace(s[|s| - 1]) then TrimEnd(s[..|s| - 1]) else s
  }

  /** `s.trim()`. */
  function Trim(s: string): string
  {
    TrimEnd(TrimStart(s))
  }

  /** `s.trim() === ''`. */
  predicate IsBlank(s: string)
  {
    Trim(s) == ""
  }

  lemma TrimHasNoOuterWhitespace(s: string)
    ensures var t := Trim(s); |t| > 0 ==> !IsJsWhitespace(t[0]) && !IsJsWhitespace(t[|t| - 1])
  {
  }

  lemma BlankIffAllWhitespace(s: string)
    ensures IsBlank(s) <==> forall i :: 0 <= i < |s| ==> IsJsWhitespace(s[i])
  {
    var t := TrimStart(s);
    assert |t| > 0 ==> t[0] == s[|s| - |t|];
    if IsBlank(s) {
      assert |TrimEnd(t)| == 0;
    }
  }

  lemma {:induction false} TrimStartPast(pre: string, x: string)
    requires forall i :: 0 <= i < |pre| ==> IsJsWhitespace(pre[i])
    requires |x| > 0 && !IsJsWhitespace(x[0])
    ensures TrimStart(pre + x) == x
    decreases |pre|
  {
    if |pre| > 0 {
      assert (pre + x)[1..] == pre[1..] + x;
      TrimStartPast(pre[1..], x);
    } else {
      assert pre + x == x;
    }
  }

  lemma {:induction false} TrimEndPast(x: string, post: string)
    requires forall i :: 0 <= i < |post| ==> IsJsWhitespace(post[i])
    requires |x| > 0 && !IsJsWhitespace(x[|x| - 1])
    ensures TrimEnd(x + post) == x
    decreases |post|
  {
    if |post| > 0 {
      var p := post[..|post| - 1];
      assert (x + post)[..|x + post| - 1] == x + p;
      TrimEndPast(x, p);
    } else {
      assert x + post == x;
    }
  }

  /** Trimming text framed by whitespace leaves the text when its ends are not whitespace. */
  lemma TrimFramed(pre: string, x: string, post: string)
    requires forall i :: 0 <= i < |pre| ==> IsJsWhitespace(pre[i])
    requires forall i :: 0 <= i < |post| ==> IsJsWhitespace(post[i])
    requires |x| > 0 && !IsJsWhitespace(x[0]) && !IsJsWhitespace(x[|x| - 1])
    ensures Trim(pre + x + post) == x
  {
    assert pre + x + post == pre + (x + post);
    TrimStartPast(pre, x + post);
    TrimEndPast(x, post);
  }

  /** `parts.join(sep)`. */
  function Join(parts: seq<string>, sep: string): string
  {
    if |parts| == 0 then ""
    else if |parts| == 1 then parts[0]
    else parts[0] + sep + Join(parts[1..], sep)
  }

  lemma {:induction false} JoinAppend(parts: seq<string>, last: string, sep: string)
    requires |parts| > 0
    ensures Join(parts + [last], sep) == Join(parts, sep) + sep + last
    decreases |parts|
  {
    if |parts| == 1 {
      assert parts + [last] == [parts[0], last];
    } else {
      assert (parts + [last])[1..] == parts[1..] + [last];
      JoinAppend(parts[1..], last, sep);
    }
  }

  /** Joining two non-empty runs of parts puts one separator between them. */
  lemma {:induction false} JoinConcat(a: seq<string>, b: seq<string>, sep: string)
    requires |a| > 0 && |b| > 0
    ensures Join(a + b, sep) == Join(a, sep) + sep + Join(b, sep)
    decreases |a|
  {
    if |a| == 1 {
      assert (a + b)[1..] == b;
    } else {
      assert (a + b)[1..] == a[1..] + b;
      JoinConcat(a[1..], b, sep);
    }
  }

  /** A join of two or more parts starts with the first part and a separator. */
  lemma JoinFirst(parts: seq<string>, sep: string)
    requires |parts| >= 2
    ensures StartsWith(Join(parts, sep), parts[0] + sep)
  {
    var r := Join(parts, sep);
    assert r == parts[0] + sep + Join(parts[1..], sep);
    assert r[..|parts[0] + sep|] == parts[0] + sep;
  }

  /** A join of two parts starts with the first part and the separator. */
  lemma JoinPairStarts(a: string, b: string, sep: string)
    ensures StartsWith(Join([a, b], sep), a + sep)
  {
    assert [a, b][1..] == [b];
    assert Join([a, b], sep) == (a + sep) + b;
    assert ((a + sep) + b)[..|a + sep|] == a + sep;
  }

  /** The shape of a message made of a head line, a blank line, optional lines and a last line. */
  lemma MessageShape(head: string, middle: seq<string>, last: string, sep: string, gap: string)
    requires gap == sep + sep
    ensures var r := Join([head, ""] + middle + [last], sep);
      && StartsWith(r, head + gap)
      && (|middle| > 0 ==> StartsWith(r, head + gap + middle[0] + sep))
      && EndsWith(r, sep + last)
  {
    MessageSplit(head, middle, last, sep, gap);
    var rest := Join(middle + [last], sep);
    Prefixes(head + gap, rest);
    if |middle| > 0 {
      MessageSecondLine(head + gap, middle + [last], sep);
      assert (middle + [last])[0] == middle[0];
      MessageEndsAfterMiddle(middle, last, sep, head + gap);
    } else {
      MessageEndsDirectly(head, last, sep, gap);
    }
  }

  /** The message is the head, two separators and the join of the remaining parts. */
  lemma MessageSplit(head: string, middle: seq<string>, last: string, sep: string, gap: string)
    requires gap == sep + sep
    ensures Join([head, ""] + middle + [last], sep) == head + gap + Join(middle + [last], sep)
  {
    assert [head, ""] + middle + [last] == [head, ""] + (middle + [last]);
    JoinHead(head, middle + [last], sep, gap);
  }

  /** After a fixed head, a join of two or more parts starts with its first part and a separator. */
  lemma MessageSecondLine(hs: string, parts: seq<string>, sep: string)
    requires |parts| >= 2
    ensures StartsWith(hs + Join(parts, sep), hs + parts[0] + sep)
  {
    JoinFirst(parts, sep);
    PrefixChain(hs, parts[0] + sep, Join(parts, sep));
    assert hs + (parts[0] + sep) == hs + parts[0] + sep;
  }

  /** With a middle part, the message ends with a separator and the last part. */
  lemma MessageEndsAfterMiddle(middle: seq<string>, last: string, sep: string, hs: string)
    requires |middle| > 0
    ensures EndsWith(hs + Join(middle + [last], sep), sep + last)
  {
    JoinLast(middle, last, sep);
    Prefixes(hs, Join(middle + [last], sep));
  }

  /** Without a middle part, the message is the head, two separators and the last part. */
  lemma MessageEndsDirectly(head: string, last: string, sep: string, gap: string)
    requires gap == sep + sep
    ensures EndsWith(head + gap + Join([] + [last], sep), sep + last)
  {
    assert [] + [last] == [last];
    assert head + gap + last == (head + sep) + (sep + last);
    Prefixes(head + sep, sep + last);
  }

  /** A prefix of the tail, after a fixed head, is a prefix of the whole. */
  lemma PrefixChain(a: string, p: string, b: string)
    requires StartsWith(b, p)
    ensures StartsWith(a + b, a + p)
  {
    assert (a + b)[..|a + p|] == a + b[..|p|];
  }

  /** The concatenation starts with its first part and ends with every suffix of its second. */
  lemma Prefixes(a: string, b: string)
    ensures StartsWith(a + b, a)
    ensures forall t :: EndsWith(b, t) ==> EndsWith(a + b, t)
  {
    assert (a + b)[..|a|] == a;
    forall t | EndsWith(b, t)
      ensures EndsWith(a + b, t)
    {
      assert (a + b)[|a + b| - |t|..] == b[|b| - |t|..];
    }
  }

  /** `[head, ""]` before non-empty parts contributes the head and two separators. */
  lemma JoinHead(head: string, rest: seq<string>, sep: string, gap: string)
    requires |rest| > 0 && gap == sep + sep
    ensures Join([head, ""] + rest, sep) == head + gap + Join(rest, sep)
  {
    assert [head, ""] + rest == [head] + ([""] + rest);
    JoinCons(head, [""] + rest, sep);
    JoinCons("", rest, sep);
    GapAssoc(head, sep, Join(rest, sep), gap);
  }

  /** A part before a non-empty run of parts is followed by one separator. */
  lemma JoinCons(x: string, rest: seq<string>, sep: string)
    requires |rest| > 0
    ensures Join([x] + rest, sep) == x + sep + Join(rest, sep)
  {
    assert ([x] + rest)[1..] == rest;
  }

  lemma GapAssoc(head: string, sep: string, j: string, gap: string)
    requires gap == sep + sep
    ensures head + sep + ("" + sep + j) == head + gap + j
  {
    assert "" + sep + j == sep + j;
  }

  /** A join ends with a separator and its last part whenever there is a part before it. */
  lemma JoinLast(parts: seq<string>, last: string, sep: string)
    requires |parts| > 0
    ensures EndsWith(Join(parts + [last], sep), sep + last)
  {
    JoinAppend(parts, last, sep);
    var a := Join(parts, sep);
    var t := sep + last;
    assert a + sep + last == a + t;
    assert (a + t)[|a + t| - |t|..] == t;
  }

  /** `s.split(c)` for a one-character separator. */
  function Split(s: string, c: char): (r: seq<string>)
    ensures |r| >= 1
    ensures forall i :: 0 <= i < |r| ==> c !in r[i]
    decreases |s|
  {
    if |s| == 0 then [""]
    else
      var rest := Split(s[1..], c);
      if s[0] == c then [""] + rest else [[s[0]] + rest[0]] + rest[1..]
  }

  /** Splitting and re-joining with the same separator gives the input back. */
  lemma {:induction false} JoinSplit(s: string, c: char)
    ensures Join(Split(s, c), [c]) == s
    decreases |s|
  {
    if |s| > 0 {
      var rest := Split(s[1..], c);
      JoinSplit(s[1..], c);
      if s[0] == c {
        assert Split(s, c) == [""] + rest;
        assert ([""] + rest)[1..] == rest;
        assert s == [c] + s[1..];
      } else {
        var r := [[s[0]] + rest[0]] + rest[1..];
        assert Split(s, c) == r;
        if |rest| == 1 {
          assert Join(rest, [c]) == rest[0];
        } else {
          assert r[1..] == rest[1..];
        }
        assert s == [s[0]] + s[1..];
      }
    }
  }

  /** `c.repeat(n)`. */
  function Repeat(c: char, n: nat): (r: string)
    ensures |r| == n && forall i :: 0 <= i < n ==> r[i] == c
  {
    if n == 0 then "" else [c] + Repeat(c, n - 1)
  }

  /** ASCII case folding; the core lower-cases file extensions and language names. */
  function ToLower(s: string): (r: string)
    ensures |r| == |s|
    ensures forall i :: 0 <= i < |s| ==> r[i] == LowerChar(s[i])
  {
    if |s| == 0 then "" else [LowerChar(s[0])] + ToLower(s[1..])
  }

  lemma ToLowerIdempotent(s: string)
    ensures ToLower(ToLower(s)) == ToLower(s)
  {
  }

  /** A string without upper-case ASCII letters is its own lower-case form. */
  lemma ToLowerOfLowerCase(s: string)
    requires forall i :: 0 <= i < |s| ==> !('A' <= s[i] <= 'Z')
    ensures ToLower(s) == s
  {
  }

  /** Lower-casing keeps every character that is not a letter where it was, and creates none. */
  lemma ToLowerKeeps(s: string, c: char)
    requires !('A' <= c <= 'Z') && !('a' <= c <= 'z')
    ensures forall i :: 0 <= i < |s| ==> (s[i] == c <==> ToLower(s)[i] == c)
  {
  }

  function LowerChar(c: char): char
  {
    if 'A' <= c <= 'Z' then (c as int + 32) as char else c
  }

  predicate IsDigit(c: char)
  {
    '0' <= c <= '9'
  }

  function DigitChar(d: nat): char
    requires d < 10
  {
    ('0' as int + d) as char
  }

  /** The decimal digits of a natural number, as `Number.prototype.toString` writes them. */
  function NatToString(n: nat): (r: string)
    ensures |r| >= 1
    ensures forall i :: 0 <= i < |r| ==> IsDigit(r[i])
  {
    if n < 10 then [DigitChar(n)] else NatToString(n / 10) + [DigitChar(n % 10)]
  }

  /** `String(n)` for an integer-valued number. */
  function IntToString(n: int): (r: string)
    ensures |r| > 0
  {
    if n < 0 then "-" + NatToString(-n) else NatToString(n)
  }

  /** The value of a string of decimal digits. */
  function DigitsValue(s: string): nat
    requires forall i :: 0 <= i < |s| ==> IsDigit(s[i])
  {
    if |s| == 0 then 0 else DigitsValue(s[..|s| - 1]) * 10 + DigitValue(s[|s| - 1])
  }

  function DigitValue(c: char): nat
    requires IsDigit(c)
  {
    c as int - '0' as int
  }

  lemma {:induction false} DigitsValueOfNatToString(n: nat)
    ensures DigitsValue(NatToString(n)) == n
  {
    if n >= 10 {
      var r := NatToString(n);
      assert r[..|r| - 1] == NatToString(n / 10);
      DigitsValueOfNatToString(n / 10);
    }
  }

  /** The longest prefix of `s` made of decimal digits. */
  function DigitPrefix(s: string): (r: string)
    ensures |r| <= |s| && r == s[..|r|]
    ensures forall i :: 0 <= i < |r| ==> IsDigit(r[i])
    ensures |r| < |s| ==> !IsDigit(s[|r|])
  {
    if |s| > 0 && IsDigit(s[0]) then [s[0]] + DigitPrefix(s[1..]) else ""
  }

  /**
   * `parseInt(s, 10)`: leading whitespace and one sign are skipped, then the longest run of
   * digits is read; `None` stands for `NaN`, the result when there is no digit.
   */
  function ParseInt(s: string): (r: Option<int>)
  {
    var t := TrimStart(s);
    var negative := |t| > 0 && t[0] == '-';
    var rest := if |t| > 0 && (t[0] == '-' || t[0] == '+') then t[1..] else t;
    var digits := DigitPrefix(rest);
    if |digits| == 0 then None
    else if negative then Some(-(DigitsValue(digits) as int))
    else Some(DigitsValue(digits))
  }

  lemma {:induction false} DigitPrefixOfDigits(s: string)
    requires forall i :: 0 <= i < |s| ==> IsDigit(s[i])
    ensures DigitPrefix(s) == s
  {
    if |s| > 0 {
      DigitPrefixOfDigits(s[1..]);
    }
  }

  /** Reading back a written number gives the number: `parseInt(String(n), 10) === n`. */
  lemma ParseIntOfNatToString(n: nat)
    ensures ParseInt(NatToString(n)) == Some(n)
  {
    var s := NatToString(n);
    assert !IsJsWhitespace(s[0]) && s[0] != '-' && s[0] != '+' by {
      assert IsDigit(s[0]);
    }
    assert TrimStart(s) == s;
    DigitPrefixOfDigits(s);
    DigitsValueOfNatToString(n);
  }

  /** Different numbers are written differently: `String` is injective on integers. */
  lemma IntToStringInjective(a: int, b: int)
    requires a != b
    ensures IntToString(a) != IntToString(b)
  {
    var ta, tb := IntToString(a), IntToString(b);
    if (a < 0) != (b < 0) {
      assert ta[0] != tb[0] by {
        assert a >= 0 ==> IsDigit(ta[0]);
        assert b >= 0 ==> IsDigit(tb[0]);
      }
    } else if a < 0 {
      NatToStringInjective(-a, -b);
      assert ta[1..] == NatToString(-a);
      assert tb[1..] == NatToString(-b);
    } else {
      NatToStringInjective(a, b);
    }
  }

  lemma NatToStringInjective(a: nat, b: nat)
    requires a != b
    ensures NatToString(a) != NatToString(b)
  {
    DigitsValueOfNatToString(a);
    DigitsValueOfNatToString(b);
  }

  /** The part between a common head and tail is determined by the whole. */
  lemma ConcatCancel(head: string, x: string, y: string, tail: string)
    ensures head + x + tail == head + y + tail ==> x == y
  {
    if head + x + tail == head + y + tail {
      assert |x| == |y|;
      assert x == (head + x + tail)[|head|..|head| + |x|];
      assert y == (head + y + tail)[|head|..|head| + |y|];
    }
  }

  /** Text that does not start, after whitespace and a sign, with a digit reads as `NaN`. */
  lemma ParseIntOfNonNumeric(s: string)
    requires var t := TrimStart(s); |t| > 0 && !IsDigit(t[0]) && t[0] != '-' && t[0] != '+'
    ensures ParseInt(s) == None
  {
  }

  /** `s` cut to `n` characters with `...` appended when it is longer than `n`. */
  function Ellipsize(s: string, n: nat): (r: string)
    ensures |s| <= n ==> r == s
    ensures |s| > n ==> |r| == n + 3 && StartsWith(r, s[..n]) && r[n..] == "..."
    ensures |r| <= n + 3
  {
    if |s| > n then s[..n] + "..." else s
  }

  /** The lines of consecutive blocks, in order. */
  function Flatten(blocks: seq<seq<string>>): seq<string>
  {
    if |blocks| == 0 then []
    else Flatten(blocks[..|blocks| - 1]) + blocks[|blocks| - 1]
  }

  lemma FlattenStep(blocks: seq<seq<string>>, i: nat)
    requires i < |blocks|
    ensures Flatten(blocks[..i]) + blocks[i] == Flatten(blocks[..i + 1])
  {
    assert blocks[..i + 1][..i] == blocks[..i];
  }

  /** The blocks flattened so far stay in place as more follow. */
  lemma {:induction false} FlattenPrefix(blocks: seq<seq<string>>, k: nat)
    requires k <= |blocks|
    ensures Flatten(blocks[..k]) <= Flatten(blocks)
    decreases |blocks| - k
  {
    if k < |blocks| {
      FlattenPrefix(blocks, k + 1);
      FlattenStep(blocks, k);
      var a := Flatten(blocks[..k]);
      assert (a + blocks[k])[..|a|] == a;
    } else {
      assert blocks[..k] == blocks;
    }
  }

  /** Block `i` starts right after the blocks before it. */
  lemma FlattenAt(blocks: seq<seq<string>>, i: nat)
    requires i < |blocks| && |blocks[i]| > 0
    ensures var j := |Flatten(blocks[..i])|;
      j < |Flatten(blocks)| && Flatten(blocks)[j] == blocks[i][0]
  {
    FlattenStep(blocks, i);
    FlattenPrefix(blocks, i + 1);
    var a := Flatten(blocks[..i]);
    assert (a + blocks[i])[|a|] == blocks[i][0];
  }

  lemma FlattenLast(blocks: seq<seq<string>>)
    requires |blocks| > 0
    ensures Flatten(blocks) == Flatten(blocks[..|blocks| - 1]) + blocks[|blocks| - 1]
  {
  }

  /** Where index `i` of a concatenation comes from. */
  lemma IndexOfAppend(a: seq<string>, b: seq<string>, i: nat)
    requires i < |a| + |b|
    ensures i < |a| ==> (a + b)[i] == a[i]
    ensures i >= |a| ==> (a + b)[i] == b[i - |a|]
  {
  }

  lemma SuffixOfAppend(a: seq<string>, b: seq<string>, n: nat)
    requires n <= |b|
    ensures (a + b)[|a + b| - n..] == b[|b| - n..]
  {
  }

  /** A view of a title, a blank line, two more lines, two runs of lines and two closing lines. */
  lemma ViewShape(head: string, second: string, third: string, a: seq<string>, b: seq<string>, f0: string, f1: string,
                  sep: string, gap: string)
    requires gap == sep + sep
    ensures var r := Join([head, "", second, third] + a + b + [f0, f1], sep);
      StartsWith(r, head + gap + second + sep) && EndsWith(r, sep + f1)
  {
    var middle := [second, third] + a + b + [f0];
    assert [head, "", second, third] + a + b + [f0, f1] == [head, ""] + middle + [f1];
    MessageShape(head, middle, f1, sep, gap);
  }

  /** The blank-line gap is two line separators. */
  lemma DoubleNewline()
    ensures "\n\n" == "\n" + "\n"
  {
  }

  lemma AppendAssoc(a: seq<string>, b: seq<string>, c: seq<string>)
    ensures a + (b + c) == a + b + c
  {
  }

  /** The texts of `xs` under `f`, concatenated in order: a `forEach` that appends to a string. */
  function ConcatMap<T>(xs: seq<T>, f: T -> string): string
  {
    if |xs| == 0 then "" else ConcatMap(xs[..|xs| - 1], f) + f(xs[|xs| - 1])
  }

  lemma ConcatMapStep<T>(xs: seq<T>, f: T -> string, i: nat)
    requires i < |xs|
    ensures ConcatMap(xs[..i], f) + f(xs[i]) == ConcatMap(xs[..i + 1], f)
  {
    assert xs[..i + 1][..i] == xs[..i];
  }

  /** The text appended so far stays in place as more follows. */
  lemma {:induction false} ConcatMapPrefix<T>(xs: seq<T>, f: T -> string, k: nat)
    requires k <= |xs|
    ensures ConcatMap(xs[..k], f) <= ConcatMap(xs, f)
    decreases |xs| - k
  {
    if k < |xs| {
      ConcatMapPrefix(xs, f, k + 1);
      ConcatMapStep(xs, f, k);
    } else {
      assert xs[..k] == xs;
    }
  }

  /** Every element's text appears, whole, in the concatenation. */
  lemma ConcatMapContains<T>(xs: seq<T>, f: T -> string, i: nat)
    requires i < |xs|
    ensures Contains(ConcatMap(xs, f), f(xs[i]))
  {
    ConcatMapStep(xs, f, i);
    ConcatMapPrefix(xs, f, i + 1);
    var whole := ConcatMap(xs, f);
    var a := ConcatMap(xs[..i], f);
    var n := |a| + |f(xs[i])|;
    assert whole == a + f(xs[i]) + whole[n..];
    ContainsAt(a, f(xs[i]), whole[n..]);
  }

  /** The number of occurrences of `c` in `s`. */
  function Occurrences(s: string, c: char): nat
  {
    if |s| == 0 then 0 else Occurrences(s[..|s| - 1], c) + (if s[|s| - 1] == c then 1 else 0)
  }

  lemma {:induction false} OccurrencesAppend(a: string, b: string, c: char)
    ensures Occurrences(a + b, c) == Occurrences(a, c) + Occurrences(b, c)
    decreases |b|
  {
    if |b| > 0 {
      var b' := b[..|b| - 1];
      assert (a + b)[..|a + b| - 1] == a + b';
      OccurrencesAppend(a, b', c);
    } else {
      assert a + b == a;
    }
  }

  lemma MulSucc(k: nat, n: nat)
    ensures k * (n + 1) == k * n + k
  {
  }

  /** When every element's text holds `k` occurrences of `c`, the concatenation holds `k` per element. */
  lemma {:induction false} OccurrencesConcatMap<T>(xs: seq<T>, f: T -> string, c: char, k: nat)
    requires forall i :: 0 <= i < |xs| ==> Occurrences(f(xs[i]), c) == k
    ensures Occurrences(ConcatMap(xs, f), c) == k * |xs|
  {
    if |xs| > 0 {
      var init := xs[..|xs| - 1];
      assert forall i :: 0 <= i < |init| ==> init[i] == xs[i];
      OccurrencesConcatMap(init, f, c, k);
      OccurrencesAppend(ConcatMap(init, f), f(xs[|xs| - 1]), c);
      MulSucc(k, |init|);
    }
  }

  lemma ConcatAssoc(a: string, b: string, c: string)
    ensures a + b + c == a + (b + c)
  {
  }

  lemma AppendStarts(x: string, y: string)
    ensures StartsWith(x + y, x)
  {
    assert (x + y)[..|x|] == x;
  }

  lemma AppendEnds(x: string, y: string)
    ensures EndsWith(x + y, y)
  {
    assert (x + y)[|x + y| - |y|..] == y;
  }

  /** A text of four parts starts with the first, ends with the last two and contains what the middle ones contain. */
  lemma Framed4(a: string, b: string, c: string, d: string, sub: string)
    ensures StartsWith(a + b + c + d, a) && EndsWith(a + b + c + d, c + d) && EndsWith(a + b + c + d, d)
    ensures Contains(b, sub) ==> Contains(a + b + c + d, sub)
    ensures Contains(c, sub) ==> Contains(a + b + c + d, sub)
  {
    ConcatAssoc(a, b, c);
    ConcatAssoc(a, b + c, d);
    AppendStarts(a, b + c + d);
    ConcatAssoc(a + b, c, d);
    AppendEnds(a + b, c + d);
    AppendEnds(a + b + c, d);
    if Contains(b, sub) {
      ContainsWithin(b, sub, a, c + d);
    }
    if Contains(c, sub) {
      ContainsWithin(c, sub, a + b, d);
    }
  }

  /** A text of three parts starts with the first, ends with the last and contains what the middle one contains. */
  lemma Framed3(a: string, b: string, d: string, sub: string)
    ensures StartsWith(a + b + d, a) && EndsWith(a + b + d, d)
    ensures Contains(b, sub) ==> Contains(a + b + d, sub)
  {
    ConcatAssoc(a, b, d);
    AppendStarts(a, b + d);
    AppendEnds(a + b, d);
    if Contains(b, sub) {
      ContainsWithin(b, sub, a, d);
    }
  }
}
