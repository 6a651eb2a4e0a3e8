/**
 * Byte-level encodings the core uses through Node's `Buffer` and `URLSearchParams`:
 * UTF-8, base64 with the standard alphabet and padding (section 4 of RFC 4648), and the
 * application/x-www-form-urlencoded byte serializer of the WHATWG URL standard.
 */
module Encoding {
  import opened Wrappers

  type Byte = b: int | 0 <= b < 256

  // ---------------------------------------------------------------- UTF-8

  /** The UTF-8 encoding of one Unicode scalar value. */
  function Utf8Char(c: char): (r: seq<Byte>)
    ensures 1 <= |r| <= 4
    ensures (c as int) < 0x80 <==> r == [c as int]
  {
    var n := c as int;
    if n < 0x80 then [n]
    else if n < 0x800 then [0xC0 + n / 64, 0x80 + n % 64]
    else if n < 0x10000 then [0xE0 + n / 4096, 0x80 + (n / 64) % 64, 0x80 + n % 64]
    else [0xF0 + n / 262144, 0x80 + (n / 4096) % 64, 0x80 + (n / 64) % 64, 0x80 + n % 64]
  }

  /** `Buffer.from(s)`: the UTF-8 bytes of a string. */
  function Utf8(s: string): (r: seq<Byte>)
    ensures |r| >= |s|
  {
    if |s| == 0 then [] else Utf8Char(s[0]) + Utf8(s[1..])
  }

  lemma {:induction false} Utf8Concat(a: string, b: string)
    ensures Utf8(a + b) == Utf8(a) + Utf8(b)
    decreases |a|
  {
    if |a| > 0 {
      assert (a + b)[0] == a[0];
      assert (a + b)[1..] == a[1..] + b;
      Utf8Concat(a[1..], b);
    } else {
      assert a + b == b;
    }
  }

  /** On ASCII text UTF-8 is the identity on code points. */
  lemma {:induction false} Utf8OfAscii(s: string)
    requires forall i :: 0 <= i < |s| ==> (s[i] as int) < 0x80
    ensures |Utf8(s)| == |s|
    ensures forall i :: 0 <= i < |s| ==> Utf8(s)[i] == s[i] as int
  {
    if |s| > 0 {
      Utf8OfAscii(s[1..]);
    }
  }

  // ---------------------------------------------------------------- base64

  /** The base64 alphabet of Table 1 in RFC 4648. */
  function B64Char(i: int): (c: char)
    requires 0 <= i < 64
  {
    if i < 26 then ('A' as int + i) as char
    else if i < 52 then ('a' as int + (i - 26)) as char
    else if i < 62 then ('0' as int + (i - 52)) as char
    else if i == 62 then '+'
    else '/'
  }

  /** The inverse of the alphabet; `None` for a character outside it (including `=`). */
  function B64Index(c: char): (r: Option<int>)
    ensures r.Some? ==> 0 <= r.value < 64 && B64Char(r.value) == c
  {
    if 'A' <= c <= 'Z' then Some(c as int - 'A' as int)
    else if 'a' <= c <= 'z' then Some(c as int - 'a' as int + 26)
    else if '0' <= c <= '9' then Some(c as int - '0' as int + 52)
    else if c == '+' then Some(62)
    else if c == '/' then Some(63)
    else None
  }

  lemma B64IndexOfChar(i: int)
    requires 0 <= i < 64
    ensures B64Index(B64Char(i)) == Some(i)
  {
  }

  /** Three bytes as four base64 characters (24 bits in four 6-bit groups). */
  function EncodeQuad(b0: Byte, b1: Byte, b2: Byte): string
  {
    [B64Char(b0 / 4), B64Char((b0 % 4) * 16 + b1 / 16), B64Char((b1 % 16) * 4 + b2 / 64), B64Char(b2 % 64)]
  }

  /** `Buffer.from(bytes).toString('base64')`: padded base64 of a byte sequence. */
  function Base64Encode(b: seq<Byte>): (r: string)
    ensures |r| == (|b| + 2) / 3 * 4
    decreases |b|
  {
    if |b| >= 3 then EncodeQuad(b[0], b[1], b[2]) + Base64Encode(b[3..])
    else if |b| == 2 then [B64Char(b[0] / 4), B64Char((b[0] % 4) * 16 + b[1] / 16), B64Char((b[1] % 16) * 4), '=']
    else if |b| == 1 then [B64Char(b[0] / 4), B64Char((b[0] % 4) * 16), '=', '=']
    else ""
  }

  function DecodeQuad(i0: int, i1: int, i2: int, i3: int): seq<Byte>
    requires 0 <= i0 < 64 && 0 <= i1 < 64 && 0 <= i2 < 64 && 0 <= i3 < 64
  {
    [i0 * 4 + i1 / 16, (i1 % 16) * 16 + i2 / 4, (i2 % 4) * 64 + i3]
  }

  /** Decodes the final group of four characters, which may end in one or two `=`. */
  function DecodeLast(s: string): Option<seq<Byte>>
    requires |s| == 4
  {
    var x0, x1, x2, x3 := B64Index(s[0]), B64Index(s[1]), B64Index(s[2]), B64Index(s[3]);
    if x0.None? || x1.None? then None
    else if s[2] == '=' && s[3] == '=' then Some([x0.value * 4 + x1.value / 16])
    else if x2.None? then None
    else if s[3] == '=' then Some([x0.value * 4 + x1.value / 16, (x1.value % 16) * 16 + x2.value / 4])
    else if x3.None? then None
    else Some(DecodeQuad(x0.value, x1.value, x2.value, x3.value))
  }

  /** The base64 decoder of RFC 4648: groups of four characters, padding only at the end. */
  function Base64Decode(s: string): Option<seq<Byte>>
    decreases |s|
  {
    if |s| == 0 then Some([])
    else if |s| < 4 then None
    else if |s| == 4 then DecodeLast(s)
    else
      var x0, x1, x2, x3 := B64Index(s[0]), B64Index(s[1]), B64Index(s[2]), B64Index(s[3]);
      if x0.None? || x1.None? || x2.None? || x3.None? then None
      else match Base64Decode(s[4..])
        case None => None
        case Some(rest) => Some(DecodeQuad(x0.value, x1.value, x2.value, x3.value) + rest)
  }

  /** The four characters of a full group are in the alphabet and carry the 6-bit groups. */
  lemma QuadIndices(b0: Byte, b1: Byte, b2: Byte)
    ensures var q := EncodeQuad(b0, b1, b2);
      B64Index(q[0]) == Some(b0 / 4) && B64Index(q[1]) == Some((b0 % 4) * 16 + b1 / 16) &&
      B64Index(q[2]) == Some((b1 % 16) * 4 + b2 / 64) && B64Index(q[3]) == Some(b2 % 64)
  {
    B64IndexOfChar(b0 / 4);
    B64IndexOfChar((b0 % 4) * 16 + b1 / 16);
    B64IndexOfChar((b1 % 16) * 4 + b2 / 64);
    B64IndexOfChar(b2 % 64);
  }

  /** Regrouping the four 6-bit groups gives the three bytes back. */
  lemma QuadBits(b0: Byte, b1: Byte, b2: Byte)
    ensures DecodeQuad(b0 / 4, (b0 % 4) * 16 + b1 / 16, (b1 % 16) * 4 + b2 / 64, b2 % 64) == [b0, b1, b2]
  {
    assert ((b0 % 4) * 16 + b1 / 16) / 16 == b0 % 4;
    assert ((b0 % 4) * 16 + b1 / 16) % 16 == b1 / 16;
    assert ((b1 % 16) * 4 + b2 / 64) / 4 == b1 % 16;
    assert ((b1 % 16) * 4 + b2 / 64) % 4 == b2 / 64;
  }

  /** A full group that ends the text decodes to its three bytes. */
  lemma DecodeLastGroup(b0: Byte, b1: Byte, b2: Byte)
    ensures Base64Decode(EncodeQuad(b0, b1, b2)) == Some([b0, b1, b2])
  {
    var q := EncodeQuad(b0, b1, b2);
    QuadIndices(b0, b1, b2);
    QuadBits(b0, b1, b2);
    assert B64Index('=') == None;
    assert q[2] != '=' && q[3] != '=';
  }

  /** A full group followed by more groups decodes to its three bytes and then the rest. */
  lemma DecodeInnerGroup(b0: Byte, b1: Byte, b2: Byte, rest: string, tail: seq<Byte>)
    requires |rest| > 0
    requires Base64Decode(rest) == Some(tail)
    ensures Base64Decode(EncodeQuad(b0, b1, b2) + rest) == Some([b0, b1, b2] + tail)
  {
    var q := EncodeQuad(b0, b1, b2);
    QuadIndices(b0, b1, b2);
    QuadBits(b0, b1, b2);
    var s := q + rest;
    assert s[0] == q[0] && s[1] == q[1] && s[2] == q[2] && s[3] == q[3];
    assert s[4..] == rest;
  }

  /** Two trailing bytes: three characters and one pad. */
  lemma DecodeTwo(b0: Byte, b1: Byte)
    ensures Base64Decode(Base64Encode([b0, b1])) == Some([b0, b1])
  {
    var x0, x1, x2 := b0 / 4, (b0 % 4) * 16 + b1 / 16, (b1 % 16) * 4;
    B64IndexOfChar(x0);
    B64IndexOfChar(x1);
    B64IndexOfChar(x2);
    assert B64Index('=') == None;
    assert x1 / 16 == b0 % 4 && x1 % 16 == b1 / 16 && x2 / 4 == b1 % 16;
    assert Base64Encode([b0, b1]) == [B64Char(x0), B64Char(x1), B64Char(x2), '='];
  }

  /** One trailing byte: two characters and two pads. */
  lemma DecodeOne(b0: Byte)
    ensures Base64Decode(Base64Encode([b0])) == Some([b0])
  {
    var x0, x1 := b0 / 4, (b0 % 4) * 16;
    B64IndexOfChar(x0);
    B64IndexOfChar(x1);
    assert x1 / 16 == b0 % 4;
    assert Base64Encode([b0]) == [B64Char(x0), B64Char(x1), '=', '='];
  }

  /** Decoding an encoding gives the bytes back. */
  lemma {:induction false} Base64RoundTrip(b: seq<Byte>)
    ensures Base64Decode(Base64Encode(b)) == Some(b)
    decreases |b|
  {
    if |b| > 3 {
      var t := b[3..];
      var e := Base64Encode(t);
      assert Base64Decode(e) == Some(t) by {
        Base64RoundTrip(t);
      }
      assert Base64Encode(b) == EncodeQuad(b[0], b[1], b[2]) + e;
      DecodeInnerGroup(b[0], b[1], b[2], e, t);
      assert [b[0], b[1], b[2]] + t == b;
    } else if |b| == 3 {
      assert Base64Encode(b) == EncodeQuad(b[0], b[1], b[2]) by {
        assert Base64Encode(b) == EncodeQuad(b[0], b[1], b[2]) + Base64Encode(b[3..]);
      }
      DecodeLastGroup(b[0], b[1], b[2]);
      assert b == [b[0], b[1], b[2]];
    } else if |b| == 2 {
      DecodeTwo(b[0], b[1]);
      assert b == [b[0], b[1]];
    } else if |b| == 1 {
      DecodeOne(b[0]);
      assert b == [b[0]];
    }
  }

  /** Every character of an encoding is from the alphabet of Table 1 or the pad `=`. */
  lemma {:induction false} Base64Alphabet(b: seq<Byte>)
    ensures forall i :: 0 <= i < |Base64Encode(b)| ==>
      var c := Base64Encode(b)[i]; B64Index(c).Some? || c == '='
    decreases |b|
  {
    var s := Base64Encode(b);
    if |b| >= 3 {
      QuadIndices(b[0], b[1], b[2]);
      Base64Alphabet(b[3..]);
      var q := EncodeQuad(b[0], b[1], b[2]);
      assert s == q + Base64Encode(b[3..]);
      forall i | 0 <= i < |s| ensures B64Index(s[i]).Some? || s[i] == '=' {
        if i >= 4 {
          assert s[i] == Base64Encode(b[3..])[i - 4];
        }
      }
    } else if |b| == 2 {
      B64IndexOfChar(b[0] / 4);
      B64IndexOfChar((b[0] % 4) * 16 + b[1] / 16);
      B64IndexOfChar((b[1] % 16) * 4);
    } else if |b| == 1 {
      B64IndexOfChar(b[0] / 4);
      B64IndexOfChar((b[0] % 4) * 16);
    }
  }

  // ---------------------------------------------------------------- form-urlencoded

  /** Bytes the form serializer copies: ASCII alphanumerics and `*`, `-`, `.`, `_`. */
  predicate FormSafe(x: Byte)
  {
    x == 0x2A || x == 0x2D || x == 0x2E || x == 0x5F ||
    (0x30 <= x <= 0x39) || (0x41 <= x <= 0x5A) || (0x61 <= x <= 0x7A)
  }

  function HexDigit(d: int): (c: char)
    requires 0 <= d < 16
  {
    if d < 10 then ('0' as int + d) as char else ('A' as int + (d - 10)) as char
  }

  /** One byte: copied when safe, `+` for a space, `%XX` in upper-case hex otherwise. */
  function FormByte(x: Byte): (r: string)
    ensures FormSafe(x) ==> r == [x as char]
    ensures x == 0x20 ==> r == "+"
    ensures !FormSafe(x) && x != 0x20 ==> |r| == 3 && r[0] == '%'
  {
    if FormSafe(x) then [x as char]
    else if x == 0x20 then "+"
    else ['%', HexDigit(x / 16), HexDigit(x % 16)]
  }

  function FormBytes(b: seq<Byte>): string
  {
    if |b| == 0 then "" else FormByte(b[0]) + FormBytes(b[1..])
  }

  /** The application/x-www-form-urlencoded serialization of one name or value. */
  function FormEncode(s: string): string
  {
    FormBytes(Utf8(s))
  }

  /** Characters a serialized name or value can contain. */
  predicate FormOutputChar(c: char)
  {
    c == '+' || c == '%' || c == '*' || c == '-' || c == '.' || c == '_' ||
    ('0' <= c <= '9') || ('A' <= c <= 'Z') || ('a' <= c <= 'z')
  }

  lemma {:induction false} FormBytesOutput(b: seq<Byte>)
    ensures forall i :: 0 <= i < |FormBytes(b)| ==> FormOutputChar(FormBytes(b)[i])
    decreases |b|
  {
    if |b| > 0 {
      FormBytesOutput(b[1..]);
      var h := FormByte(b[0]);
      assert forall i :: 0 <= i < |h| ==> FormOutputChar(h[i]);
      var s := FormBytes(b);
      assert s == h + FormBytes(b[1..]);
      forall i | 0 <= i < |s| ensures FormOutputChar(s[i]) {
        if i >= |h| {
          assert s[i] == FormBytes(b[1..])[i - |h|];
        }
      }
    }
  }

  /**
   * A serialized name or value never contains the query delimiters `&`, `=`, `?` or `#`,
   * so joining serialized pairs with `&` and `=` cannot be misread.
   */
  lemma FormEncodeHasNoDelimiters(s: string)
    ensures forall i :: 0 <= i < |FormEncode(s)| ==> FormOutputChar(FormEncode(s)[i])
    ensures '&' !in FormEncode(s) && '=' !in FormEncode(s) && '?' !in FormEncode(s) && '#' !in FormEncode(s)
  {
    FormBytesOutput(Utf8(s));
  }

  predicate FormSafeChar(c: char)
  {
    c == '*' || c == '-' || c == '.' || c == '_' ||
    ('0' <= c <= '9') || ('A' <= c <= 'Z') || ('a' <= c <= 'z')
  }

  /** Text made only of safe characters (a slug, a page number) is serialized unchanged. */
  lemma {:induction false} FormEncodeOfSafe(s: string)
    requires forall i :: 0 <= i < |s| ==> FormSafeChar(s[i])
    ensures FormEncode(s) == s
    decreases |s|
  {
    if |s| > 0 {
      FormEncodeOfSafe(s[1..]);
      assert Utf8(s) == [s[0] as int] + Utf8(s[1..]);
      assert Utf8(s)[1..] == Utf8(s[1..]);
      assert s == [s[0]] + s[1..];
    }
  }
}
