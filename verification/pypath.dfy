/** The POSIX `os.path` operations the system uses to derive file names:
    `basename`, two-component `join`, `splitext`, and `name.split('.')[0]`.
 */
module PyPath {
  import opened Results
  import opened PyText

  predicate Excludes(s: string, c: char) {
    forall k :: 0 <= k < |s| ==> s[k] != c
  }

  /** `s.rfind(c)`, with `None` for Python's -1. */
  function LastIndex(s: string, c: char): (r: Option<nat>)
    ensures r.None? <==> Excludes(s, c)
    ensures r.Some? ==> r.value < |s| && s[r.value] == c
    ensures r.Some? ==> forall k :: r.value < k < |s| ==> s[k] != c
  {
    if s == [] then None
    else if s[|s| - 1] == c then Some(|s| - 1)
    else LastIndex(s[..|s| - 1], c)
  }

  /** `s.find(c)`, with `None` for Python's -1. */
  function FirstIndex(s: string, c: char): (r: Option<nat>)
    ensures r.None? <==> Excludes(s, c)
    ensures r.Some? ==> r.value < |s| && s[r.value] == c
    ensures r.Some? ==> forall k :: 0 <= k < r.value ==> s[k] != c
  {
    if s == [] then None
    else if s[0] == c then Some(0)
    else match FirstIndex(s[1..], c)
      case None => None
      case Some(i) => Some(i + 1)
  }

  lemma ExcludesConcat(a: string, b: string, c: char)
    requires Excludes(a, c) && Excludes(b, c)
    ensures Excludes(a + b, c)
  {
  }

  /** A prefix of a text without `c` has no `c` either. */
  lemma {:induction false} PrefixExcludes(p: string, s: string, c: char)
    requires IsPrefix(p, s) && Excludes(s, c)
    ensures Excludes(p, c)
  {
    forall k | 0 <= k < |p| ensures p[k] != c {
      assert p[k] == s[k];
    }
  }

  /** `os.path.basename(p)`: the text after the last `/`. */
  function Basename(p: string): (r: string)
    ensures Excludes(r, '/')
    ensures r == p || IsSuffix("/" + r, p)
  {
    match LastIndex(p, '/')
    case None => p
    case Some(i) => p[i + 1..]
  }

  /** `os.path.join(a, b)`: an absolute `b` replaces `a`; otherwise a `/` is
      inserted unless `a` is empty or already ends with one. */
  function Join(a: string, b: string): (r: string)
    ensures IsSuffix(b, r)
    ensures |b| > 0 && b[0] == '/' ==> r == b
    ensures (|b| == 0 || b[0] != '/') ==> IsPrefix(a, r)
  {
    if |b| > 0 && b[0] == '/' then b
    else if a == [] || a[|a| - 1] == '/' then a + b
    else a + "/" + b
  }

  /** A name without `/` joined onto any directory is that path's basename. */
  lemma BasenameOfJoin(a: string, b: string)
    requires Excludes(b, '/')
    ensures Basename(Join(a, b)) == b
  {
    var r := Join(a, b);
    if a == [] {
      assert r == b;
    } else {
      var pre := if a[|a| - 1] == '/' then a else a + "/";
      assert r == pre + b;
      assert r[|pre| - 1] == '/';
      assert LastIndex(r, '/') == Some(|pre| - 1);
      assert r[|pre|..] == b;
    }
  }

  predicate AllDots(s: string) {
    forall k :: 0 <= k < |s| ==> s[k] == '.'
  }

  /** `os.path.splitext(p)`: the extension runs from the last `.` of the last
      path component, unless everything before that dot in the component is
      dots too (so `.bashrc` has no extension). */
  function SplitExt(p: string): (r: (string, string))
    ensures r.0 + r.1 == p
    ensures r.1 == [] || (r.1[0] == '.' && Excludes(r.1[1..], '.') && Excludes(r.1, '/'))
  {
    var start := match LastIndex(p, '/') case None => 0 case Some(i) => i + 1;
    match LastIndex(p, '.')
    case None => (p, [])
    case Some(d) =>
      if d >= start && !AllDots(p[start..d]) then (p[..d], p[d..]) else (p, [])
  }

  /** `os.path.splitext(os.path.basename(p))[0]`: the file name without its
      last extension. */
  function Stem(p: string): (r: string)
    ensures Excludes(r, '/')
  {
    SplitExt(Basename(p)).0
  }

  /** `splitext` undoes `stem + "." + ext` whenever the stem has a character
      other than a dot and the extension has neither dot nor slash. */
  lemma SplitExtOfDotted(stem: string, ext: string)
    requires Excludes(stem, '/') && !AllDots(stem)
    requires Excludes(ext, '.') && Excludes(ext, '/')
    ensures SplitExt(stem + "." + ext) == (stem, "." + ext)
  {
    var p := stem + "." + ext;
    assert p[|stem|] == '.';
    assert LastIndex(p, '.') == Some(|stem|);
    assert Excludes(p, '/');
    assert LastIndex(p, '/') == None;
    assert p[0..|stem|] == stem && p[..|stem|] == stem;
    assert p[|stem|..] == "." + ext;
  }

  /** `s.split('.')[0]`: the text before the first dot. */
  function BeforeFirstDot(s: string): (r: string)
    ensures IsPrefix(r, s)
    ensures Excludes(r, '.')
    ensures r == s || s[|r|] == '.'
  {
    match FirstIndex(s, '.')
    case None => s
    case Some(i) => s[..i]
  }

  /** The first dot of `a + "." + b` is the one after `a` when `a` has none. */
  lemma {:induction false} BeforeFirstDotOfDotted(a: string, b: string)
    requires Excludes(a, '.')
    ensures BeforeFirstDot(a + "." + b) == a
  {
    FirstIndexAfter(a, '.', b);
    assert (a + "." + b)[..|a|] == a;
  }

  lemma {:induction false} FirstIndexAfter(a: string, c: char, b: string)
    requires Excludes(a, c)
    ensures FirstIndex(a + [c] + b, c) == Some(|a|)
  {
    if a != [] {
      assert (a + [c] + b)[1..] == a[1..] + [c] + b;
      FirstIndexAfter(a[1..], c, b);
    }
  }
}
