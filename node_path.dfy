/**
 * The two functions of Node's `path` module (POSIX flavour) that the search formatter uses
 * on file paths: `basename` and `extname`.
 */
module NodePath {
  import opened Wrappers
  import opened Strings

  /** `p` without its trailing `/` characters. */
  function StripTrailingSlashes(p: string): string
  {
    if |p| > 0 && p[|p| - 1] == '/' then StripTrailingSlashes(p[..|p| - 1]) else p
  }

  /** What stripping keeps: a prefix that does not end with `/`, followed in `p` only by slashes. */
  lemma {:induction false} StripTrailingSlashesSpec(p: string)
    ensures var r := StripTrailingSlashes(p);
      r <= p && (|r| == 0 || r[|r| - 1] != '/') && forall i :: |r| <= i < |p| ==> p[i] == '/'
  {
    if |p| > 0 && p[|p| - 1] == '/' {
      StripTrailingSlashesSpec(p[..|p| - 1]);
    }
  }

  /** The position of the last `c` in `s`. */
  function LastIndexOf(s: string, c: char): (r: Option<nat>)
    ensures r.Some? ==> r.value < |s|
  {
    if |s| == 0 then None
    else if s[|s| - 1] == c then Some(|s| - 1)
    else LastIndexOf(s[..|s| - 1], c)
  }

  /** The search finds a `c` with none after it, and finds none only when there is none. */
  lemma {:induction false} LastIndexOfSpec(s: string, c: char)
    ensures LastIndexOf(s, c).None? <==> c !in s
    ensures var r := LastIndexOf(s, c); r.Some? ==> s[r.value] == c && c !in s[r.value + 1..]
  {
    if |s| > 0 && s[|s| - 1] != c {
      var init := s[..|s| - 1];
      LastIndexOfSpec(init, c);
      var r := LastIndexOf(init, c);
      if r.Some? {
        assert s[r.value + 1..] == init[r.value + 1..] + [s[|s| - 1]];
      }
      assert s == init + [s[|s| - 1]];
    }
  }

  /** A `c` with none after it is the last one. */
  lemma LastIndexOfAt(s: string, c: char, i: nat)
    requires i < |s| && s[i] == c && c !in s[i + 1..]
    ensures LastIndexOf(s, c) == Some(i)
  {
    LastIndexOfSpec(s, c);
    var r := LastIndexOf(s, c);
    assert s[i] in s;
    forall j | r.value < j < |s| ensures s[j] in s[r.value + 1..] {
      assert s[r.value + 1..][j - r.value - 1] == s[j];
    }
    forall j | i < j < |s| ensures s[j] in s[i + 1..] {
      assert s[i + 1..][j - i - 1] == s[j];
    }
  }

  /** `path.basename(p)`: the last segment, trailing slashes ignored. */
  function Basename(p: string): string
  {
    var q := StripTrailingSlashes(p);
    match LastIndexOf(q, '/')
    case None => q
    case Some(k) => q[k + 1..]
  }

  /**
   * `path.extname(p)` on POSIX: the basename from its last `.` on, or nothing when the
   * basename has no `.`, has its last dot first, or is `..`.
   */
  function ExtName(p: string): string
  {
    Extension(Basename(p))
  }

  /** The extension of a basename. */
  function Extension(base: string): string
  {
    match LastIndexOf(base, '.')
    case None => ""
    case Some(k) => if k == 0 || base == ".." then "" else base[k..]
  }

  /** A basename holds no `/`. */
  lemma BasenameHasNoSlash(p: string)
    ensures '/' !in Basename(p)
  {
    var q := StripTrailingSlashes(p);
    LastIndexOfSpec(q, '/');
    match LastIndexOf(q, '/')
    case None =>
    case Some(k) =>
  }

  /**
   * An extension is empty or a `.` followed by no other dot; it ends the basename, so it
   * holds no `/` either.
   */
  lemma ExtNameShape(p: string)
    ensures var r := ExtName(p);
      (r == "" || (r[0] == '.' && '/' !in r && '.' !in r[1..])) && EndsWith(Basename(p), r)
  {
    var base := Basename(p);
    BasenameHasNoSlash(p);
    LastIndexOfSpec(base, '.');
    match LastIndexOf(base, '.')
    case None =>
    case Some(k) =>
      if k != 0 && base != ".." {
        var r := base[k..];
        assert r[1..] == base[k + 1..];
        forall i | 0 <= i < |r| ensures r[i] != '/' {
          assert r[i] == base[k + i];
          assert base[k + i] in base;
        }
      }
  }

  /** The basename of a name placed in a directory is that name. */
  lemma BasenameIn(dir: string, name: string)
    requires dir == "" || dir[|dir| - 1] == '/'
    requires |name| > 0 && '/' !in name
    ensures Basename(dir + name) == name
  {
    var p := dir + name;
    assert p[|p| - 1] == name[|name| - 1];
    assert StripTrailingSlashes(p) == p;
    if dir == "" {
      assert p == name;
      LastIndexOfSpec(p, '/');
    } else {
      assert p[|dir| - 1] == '/';
      assert p[|dir|..] == name;
      LastIndexOfAt(p, '/', |dir| - 1);
    }
  }

  /** A basename other than `..` whose last dot is not its first character has the extension from that dot. */
  lemma ExtensionAt(base: string, k: nat)
    requires 0 < k < |base| && base[k] == '.' && '.' !in base[k + 1..] && base != ".."
    ensures Extension(base) == base[k..]
  {
    LastIndexOfAt(base, '.', k);
  }

  /** A basename without a dot has no extension. */
  lemma NoDotNoExtension(base: string)
    requires forall i :: 0 <= i < |base| ==> base[i] != '.'
    ensures Extension(base) == ""
  {
    LastIndexOfSpec(base, '.');
  }

  /** A file `stem.ext` in a directory has the extension `.ext`, the text after the last dot. */
  lemma ExtNameOfFile(dir: string, stem: string, ext: string)
    requires dir == "" || dir[|dir| - 1] == '/'
    requires |stem| > 0 && '/' !in stem && '/' !in ext && '.' !in ext
    requires stem + "." + ext != ".."
    ensures ExtName(dir + stem + "." + ext) == "." + ext
  {
    var base := stem + "." + ext;
    assert '/' !in base by {
      forall i | 0 <= i < |base| ensures base[i] != '/' {
        if i < |stem| { assert base[i] == stem[i]; }
        else if i > |stem| { assert base[i] == ext[i - |stem| - 1]; }
      }
    }
    var dot := "." + ext;
    assert base == stem + dot;
    assert base[|stem|..] == dot;
    assert dot[1..] == ext;
    BasenameIn(dir, base);
    ExtensionAt(base, |stem|);
    ConcatAssoc(dir, stem, ".");
    ConcatAssoc(dir, stem + ".", ext);
  }

  /** Trailing slashes do not change the extension. */
  lemma ExtNameTrailingSlash(p: string)
    ensures ExtName(p + "/") == ExtName(p)
  {
    assert (p + "/")[..|p|] == p;
    assert StripTrailingSlashes(p + "/") == StripTrailingSlashes(p);
    assert Basename(p + "/") == Basename(p);
  }

  /** A name whose only dot is its first character has no extension. */
  lemma LeadingDotOnly(name: string)
    requires |name| > 0 && name[0] == '.'
    requires forall i :: 0 < i < |name| ==> name[i] != '.'
    ensures Extension(name) == ""
  {
    forall i | 0 <= i < |name| && name[i] == '.' ensures i <= 0 {
    }
    LastIndexOfAt(name, '.', 0);
  }

  /** A name with no dot after its first character has no extension. */
  lemma NoExtension(dir: string, name: string)
    requires dir == "" || dir[|dir| - 1] == '/'
    requires |name| > 0 && '/' !in name
    requires forall i :: 0 < i < |name| ==> name[i] != '.'
    ensures Basename(dir + name) == name && ExtName(dir + name) == ""
  {
    BasenameIn(dir, name);
    if name[0] == '.' {
      LeadingDotOnly(name);
    } else {
      NoDotNoExtension(name);
    }
  }

  /** The lower-case spellings of the two named files hold no `/` and no dot after their first character. */
  lemma NamedSpellings(t: string)
    requires t == "dockerfile" || t == ".gitignore"
    ensures |t| > 0 && '/' !in t
    ensures forall i :: 0 < i < |t| ==> t[i] != '.'
  {
    assert '/' !in "dockerfile" && '/' !in ".gitignore";
    assert forall i :: 0 < i < |"dockerfile"| ==> "dockerfile"[i] != '.';
    assert forall i :: 0 < i < |".gitignore"| ==> ".gitignore"[i] != '.';
  }

  /** A name spelled, in any case, `Dockerfile` or `.gitignore` holds no `/` and no dot after its first character. */
  lemma NamedFileSpelling(name: string)
    requires ToLower(name) == "dockerfile" || ToLower(name) == ".gitignore"
    ensures |name| > 0 && '/' !in name
    ensures forall i :: 0 < i < |name| ==> name[i] != '.'
  {
    var t := ToLower(name);
    NamedSpellings(t);
    ToLowerKeeps(name, '/');
    ToLowerKeeps(name, '.');
    assert forall i :: 0 <= i < |name| ==> (name[i] == '/' <==> t[i] == '/');
    assert forall i :: 0 <= i < |name| ==> (name[i] == '.' <==> t[i] == '.');
  }
}
