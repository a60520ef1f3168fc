/** The POSIX `os.path` functions the backend uses on path strings. */
module PosixPath {
  import opened PyText

  /** `os.path.join(a, b)`: an absolute `b` replaces `a`; otherwise a `/` is put between them when needed. */
  function Join(a: string, b: string): string
  {
    if StartsWith(b, "/") then b
    else if a == [] || a[|a| - 1] == '/' then a + b
    else a + "/" + b
  }

  /**
   * The joined path ends with `b`; an absolute `b` is all of it, and a relative one follows
   * `a` with at most a `/` in between, put there only when `a` does not already end in one.
   */
  lemma JoinShape(a: string, b: string)
    ensures EndsWith(Join(a, b), b)
    ensures StartsWith(b, "/") ==> |Join(a, b)| == |b|
    ensures !StartsWith(b, "/") ==> StartsWith(Join(a, b), a) && |a| + |b| <= |Join(a, b)| <= |a| + |b| + 1
    ensures |Join(a, b)| == |a| + |b| + 1 ==> Join(a, b)[|a|] == '/' && a != [] && a[|a| - 1] != '/'
  {
  }

  /** A relative name joined under a directory without a trailing `/` gets exactly one `/` before it. */
  lemma JoinRelative(a: string, b: string)
    requires a != [] && a[|a| - 1] != '/' && b != [] && b[0] != '/'
    ensures Join(a, b) == a + "/" + b
  {
    assert b[..1] != "/" by { assert b[..1][0] == b[0]; }
  }

  /** One past the position of the last `/` in `p`, or 0 when `p` has none. */
  function AfterLastSlash(p: string): (k: nat)
    ensures k <= |p|
    ensures k > 0 ==> p[k - 1] == '/'
    ensures '/' !in p[k..]
  {
    if p == [] then 0
    else if p[|p| - 1] == '/' then |p|
    else
      var k := AfterLastSlash(p[..|p| - 1]);
      assert p[k..] == p[..|p| - 1][k..] + [p[|p| - 1]];
      k
  }

  /** `os.path.basename(p)`: what follows the last `/`. */
  function Basename(p: string): (r: string)
    ensures '/' !in r
    ensures EndsWith(p, r)
  {
    p[AfterLastSlash(p)..]
  }

  /** Drops every trailing `/`. */
  function StripTrailingSlashes(s: string): (r: string)
    ensures StartsWith(s, r)
    ensures r == [] || r[|r| - 1] != '/'
  {
    if s == [] || s[|s| - 1] != '/' then s else StripTrailingSlashes(s[..|s| - 1])
  }

  /** True when `s` is made of `/` alone. */
  predicate AllSlashes(s: string)
  {
    forall i :: 0 <= i < |s| ==> s[i] == '/'
  }

  /**
   * `os.path.dirname(p)`: everything up to the last `/`, without trailing slashes
   * unless that part is made of slashes only.
   */
  function Dirname(p: string): (r: string)
    ensures StartsWith(p, r)
  {
    var head := p[..AfterLastSlash(p)];
    if head != [] && !AllSlashes(head) then StripTrailingSlashes(head) else head
  }

  /** The last `/` of `x + name` is the one that ends `x` when `name` has none. */
  lemma {:induction false} AfterLastSlashAppend(x: string, name: string)
    requires '/' !in name
    requires x == [] || x[|x| - 1] == '/'
    ensures AfterLastSlash(x + name) == |x|
    decreases |name|
  {
    if name == [] {
      assert x + name == x;
    } else {
      var p := x + name;
      assert p[..|p| - 1] == x + name[..|name| - 1];
      assert name[|name| - 1] in name;
      AfterLastSlashAppend(x, name[..|name| - 1]);
    }
  }

  /** Joining a plain file name under a directory and taking the basename gives the name back. */
  lemma BasenameOfJoin(d: string, name: string)
    requires '/' !in name
    ensures Basename(Join(d, name)) == name
  {
    assert !StartsWith(name, "/") by {
      if name != [] { assert name[0] in name; }
    }
    var x := if d == [] || d[|d| - 1] == '/' then d else d + "/";
    assert Join(d, name) == x + name;
    AfterLastSlashAppend(x, name);
    assert (x + name)[|x|..] == name;
  }

  /** Joining a plain file name under a directory and taking the dirname gives the directory back. */
  lemma DirnameOfJoin(d: string, name: string)
    requires '/' !in name
    requires d != [] && d[|d| - 1] != '/'
    ensures Dirname(Join(d, name)) == d
  {
    assert !StartsWith(name, "/") by {
      if name != [] { assert name[0] in name; }
    }
    var p := Join(d, name);
    assert p == (d + "/") + name;
    AfterLastSlashAppend(d + "/", name);
    var head := p[..|d| + 1];
    assert head == d + "/";
    assert !AllSlashes(head) by { assert head[|d| - 1] == d[|d| - 1]; }
    assert StripTrailingSlashes(head) == d by {
      assert head[..|head| - 1] == d;
    }
  }

  /**
   * The basename is everything after the last `/`: it holds no `/`, and it is either the
   * whole path or preceded by a `/`.
   */
  lemma BasenameIsLastComponent(p: string)
    ensures '/' !in Basename(p) && EndsWith(p, Basename(p))
    ensures |Basename(p)| == |p| || p[|p| - |Basename(p)| - 1] == '/'
  {
    var k := AfterLastSlash(p);
    assert |Basename(p)| == |p| - k;
  }

  /** Only slashes are dropped from the end. */
  lemma {:induction false} StripTrailingSlashesDropsSlashes(s: string)
    ensures AllSlashes(s[|StripTrailingSlashes(s)|..])
    ensures !AllSlashes(s) ==> !AllSlashes(StripTrailingSlashes(s))
    decreases |s|
  {
    if s != [] && s[|s| - 1] == '/' {
      var t := s[..|s| - 1];
      StripTrailingSlashesDropsSlashes(t);
      var r := StripTrailingSlashes(t);
      assert s[|r|..] == t[|r|..] + ['/'];
    }
  }

  /**
   * The dirname is the text before the basename with its trailing slashes dropped, unless
   * that text is made of slashes only, in which case it is kept as it is.
   */
  lemma DirnameIsHead(p: string)
    ensures var m := |p| - |Basename(p)|;
      && StartsWith(p, Dirname(p)) && |Dirname(p)| <= m
      && AllSlashes(p[|Dirname(p)|..m])
      && (AllSlashes(Dirname(p)) ==> |Dirname(p)| == m)
      && (Dirname(p) != [] && !AllSlashes(Dirname(p)) ==> Dirname(p)[|Dirname(p)| - 1] != '/')
  {
    var k := AfterLastSlash(p);
    var head := p[..k];
    assert |p| - |Basename(p)| == k;
    if head != [] && !AllSlashes(head) {
      StripTrailingSlashesDropsSlashes(head);
      var r := StripTrailingSlashes(head);
      assert p[|r|..k] == head[|r|..];
    } else if head != [] {
      assert Dirname(p) == head;
    }
  }
}
