/** The few Go standard-library string operations the package relies on,
    on strings of Unicode scalar values: `strings.Split` with a one-character
    separator, `strings.TrimSpace` (with `unicode.IsSpace`) and
    `filepath.Split` with the Unix separator '/'. */
module GoStrings {

  /** `unicode.IsSpace`: '\t', '\n', '\v', '\f', '\r', ' ', U+0085, U+00A0 and
      the other code points of the Unicode White_Space property. */
  predicate IsSpace(c: char)
    ensures c as int < 0x80 ==> (IsSpace(c) <==> c in {'\t', '\n', '\U{0B}', '\U{0C}', '\r', ' '})
  {
    var n := c as int;
    || (0x09 <= n <= 0x0D) || n == 0x20 || n == 0x85 || n == 0xA0 || n == 0x1680
    || (0x2000 <= n <= 0x200A) || n == 0x2028 || n == 0x2029 || n == 0x202F
    || n == 0x205F || n == 0x3000
  }

  ghost predicate AllSpace(s: string) {
    forall i :: 0 <= i < |s| ==> IsSpace(s[i])
  }

  // ---------------------------------------------------------------------
  // strings.Split(s, sep) for a one-character separator

  /** Glues the pieces back together with `sep` between neighbours
      (`strings.Join`); the reference that `Split` is measured against. */
  function Join(parts: seq<string>, sep: char): (s: string)
    requires |parts| >= 1
  {
    if |parts| == 1 then parts[0] else parts[0] + [sep] + Join(parts[1..], sep)
  }

  /** The pieces of `s` around every occurrence of `sep`; like Go, the empty
      string gives one empty piece and a separator at either end gives an
      empty piece there. */
  function Split(s: string, sep: char): (parts: seq<string>)
    ensures |parts| >= 1
    ensures forall i :: 0 <= i < |parts| ==> sep !in parts[i]
    ensures Join(parts, sep) == s
    decreases |s|
  {
    if |s| == 0 then [""]
    else if s[0] == sep then [""] + Split(s[1..], sep)
    else
      var rest := Split(s[1..], sep);
      [[s[0]] + rest[0]] + rest[1..]
  }

  /** Split undoes Join whenever no piece holds the separator, so the pieces
      Split returns are the only ones that join to `s`. */
  lemma {:induction false} SplitJoin(parts: seq<string>, sep: char)
    requires |parts| >= 1
    requires forall i :: 0 <= i < |parts| ==> sep !in parts[i]
    ensures Split(Join(parts, sep), sep) == parts
    decreases |parts|, |parts[0]|
  {
    var p := parts[0];
    if |parts| == 1 {
      SplitNoSeparator(p, sep);
    } else if p == [] {
      var rest := Join(parts[1..], sep);
      assert Join(parts, sep) == [sep] + rest;
      assert ([sep] + rest)[1..] == rest;
      SplitJoin(parts[1..], sep);
    } else {
      var shorter := [p[1..]] + parts[1..];
      assert shorter[1..] == parts[1..];
      assert Join(parts, sep) == [p[0]] + Join(shorter, sep);
      assert ([p[0]] + Join(shorter, sep))[1..] == Join(shorter, sep);
      SplitJoin(shorter, sep);
      assert [p[0]] + p[1..] == p;
    }
  }

  lemma {:induction false} SplitNoSeparator(s: string, sep: char)
    requires sep !in s
    ensures Split(s, sep) == [s]
    decreases |s|
  {
    if |s| > 0 {
      SplitNoSeparator(s[1..], sep);
      assert [s[0]] + s[1..] == s;
    }
  }

  lemma {:induction false} JoinAppend(a: seq<string>, b: seq<string>, sep: char)
    requires |a| >= 1 && |b| >= 1
    ensures Join(a + b, sep) == Join(a, sep) + [sep] + Join(b, sep)
    decreases |a|
  {
    if |a| > 1 {
      assert (a + b)[1..] == a[1..] + b;
      JoinAppend(a[1..], b, sep);
    } else {
      assert (a + b)[1..] == b;
    }
  }

  /** Splitting at a separator the caller wrote splits each side on its own. */
  lemma SplitConcat(a: string, b: string, sep: char)
    ensures Split(a + [sep] + b, sep) == Split(a, sep) + Split(b, sep)
  {
    var pa, pb := Split(a, sep), Split(b, sep);
    JoinAppend(pa, pb, sep);
    SplitJoin(pa + pb, sep);
  }

  // ---------------------------------------------------------------------
  // strings.TrimSpace

  /** The suffix of `s` left after dropping its leading white space. */
  function TrimLeft(s: string): (r: string)
    ensures |r| <= |s| && r == s[|s| - |r|..]
    ensures r == [] || !IsSpace(r[0])
    ensures AllSpace(s[..|s| - |r|])
    decreases |s|
  {
    if |s| > 0 && IsSpace(s[0]) then
      var r := TrimLeft(s[1..]);
      assert s[..|s| - |r|] == [s[0]] + s[1..][..|s| - 1 - |r|];
      r
    else s
  }

  /** The prefix of `s` left after dropping its trailing white space. */
  function TrimRight(s: string): (r: string)
    ensures |r| <= |s| && r == s[..|r|]
    ensures r == [] || !IsSpace(r[|r| - 1])
    ensures AllSpace(s[|r|..])
    decreases |s|
  {
    if |s| > 0 && IsSpace(s[|s| - 1]) then
      var r := TrimRight(s[..|s| - 1]);
      assert s[|r|..] == s[..|s| - 1][|r|..] + [s[|s| - 1]];
      r
    else s
  }

  /** `strings.TrimSpace`: `s` without leading and trailing white space. */
  function TrimSpace(s: string): (r: string)
    ensures |r| <= |s|
    ensures r == [] <==> AllSpace(s)
  {
    TrimRight(TrimLeft(s))
  }

  /** What TrimSpace returns neither starts nor ends with white space. */
  lemma TrimSpaceEnds(s: string)
    ensures var r := TrimSpace(s); r == [] || (!IsSpace(r[0]) && !IsSpace(r[|r| - 1]))
  {
    var l := TrimLeft(s);
    var r := TrimRight(l);
    if r != [] {
      assert r[0] == l[0];
    }
  }

  /** What TrimSpace returns is the slice of `s` starting after its leading
      white space, with only white space cut off on either side. */
  lemma {:induction false} TrimLeftSpacePrefix(a: string, s: string)
    requires AllSpace(a)
    ensures TrimLeft(a + s) == TrimLeft(s)
    decreases |a|
  {
    if |a| > 0 {
      assert (a + s)[0] == a[0];
      assert (a + s)[1..] == a[1..] + s;
      TrimLeftSpacePrefix(a[1..], s);
    } else {
      assert a + s == s;
    }
  }

  lemma {:induction false} TrimRightSpaceSuffix(s: string, b: string)
    requires AllSpace(b)
    ensures TrimRight(s + b) == TrimRight(s)
    decreases |b|
  {
    if |b| > 0 {
      var b' := b[..|b| - 1];
      assert (s + b)[|s + b| - 1] == b[|b| - 1];
      assert (s + b)[..|s + b| - 1] == s + b';
      TrimRightSpaceSuffix(s, b');
    } else {
      assert s + b == s;
    }
  }

  lemma {:induction false} TrimLeftAppend(s: string, b: string)
    requires TrimLeft(s) != []
    ensures TrimLeft(s + b) == TrimLeft(s) + b
    decreases |s|
  {
    assert (s + b)[0] == s[0];
    if IsSpace(s[0]) {
      assert (s + b)[1..] == s[1..] + b;
      TrimLeftAppend(s[1..], b);
    }
  }

  /** White space around a name never matters: " file " trims like "file". */
  lemma TrimSpacePadding(a: string, s: string, b: string)
    requires AllSpace(a) && AllSpace(b)
    ensures TrimSpace(a + s + b) == TrimSpace(s)
  {
    assert a + s + b == a + (s + b);
    TrimLeftSpacePrefix(a, s + b);
    var l := TrimLeft(s);
    if l == [] {
      assert AllSpace(s);
      assert AllSpace(s + b);
      assert TrimLeft(s + b) == [];
    } else {
      TrimLeftAppend(s, b);
      TrimRightSpaceSuffix(l, b);
    }
  }

  // ---------------------------------------------------------------------
  // filepath.Split with the Unix separator

  /** `filepath.Split(path)`: the directory part up to and including the
      last '/', and the file name after it. */
  function SplitPath(path: string): (r: (string, string))
    ensures r.0 + r.1 == path
    ensures '/' !in r.1
    ensures r.0 == [] || r.0[|r.0| - 1] == '/'
    decreases |path|
  {
    if |path| == 0 then ("", "")
    else if path[|path| - 1] == '/' then (path, "")
    else
      var (dir, file) := SplitPath(path[..|path| - 1]);
      (dir, file + [path[|path| - 1]])
  }

  /** The three properties of SplitPath's result single it out: there is
      exactly one such split of a path. */
  lemma SplitPathUnique(path: string, dir: string, file: string)
    requires dir + file == path
    requires '/' !in file
    requires dir == [] || dir[|dir| - 1] == '/'
    ensures SplitPath(path) == (dir, file)
  {
    var (d, f) := SplitPath(path);
    assert d == path[..|d|] && dir == path[..|dir|];
    assert f == path[|d|..] && file == path[|dir|..];
  }
}
