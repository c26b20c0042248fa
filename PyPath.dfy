/** The POSIX `os.path` functions the modelled code calls: `splitext`,
    `dirname` and `join`. */
module PyPath {

  /** `s.rfind(c)`: the last index of `c`, or -1. */
  function LastIndexOf(s: string, c: char): (i: int)
    ensures -1 <= i < |s|
    ensures i >= 0 ==> s[i] == c
    ensures forall k :: i < k < |s| ==> s[k] != c
  {
    if s == [] then -1
    else if s[|s| - 1] == c then |s| - 1
    else LastIndexOf(s[..|s| - 1], c)
  }

  /** `os.path.splitext(p)[0]`: `p` without its extension. The extension is
      the last '.' of the last path component and what follows it, unless
      every character of the component before that '.' is a '.' too. */
  function SplitextRoot(p: string): (root: string)
    ensures |root| <= |p| && root == p[..|root|]
    ensures root != p ==>
      && p[|root|] == '.'
      && (forall k :: |root| <= k < |p| ==> p[k] != '/')
      && (forall k :: |root| < k < |p| ==> p[k] != '.')
      && (exists k :: 0 <= k < |root| && p[k] != '.' && forall m :: k <= m < |root| ==> p[m] != '/')
  {
    var sep := LastIndexOf(p, '/');
    var dot := LastIndexOf(p, '.');
    if dot > sep && exists k :: sep < k < dot && p[k] != '.' then p[..dot] else p
  }

  /** `s.rstrip('/')`. */
  function TrimTrailingSlashes(s: string): (r: string)
    ensures |r| <= |s| && r == s[..|r|]
    ensures r == [] || r[|r| - 1] != '/'
  {
    if s != [] && s[|s| - 1] == '/' then TrimTrailingSlashes(s[..|s| - 1]) else s
  }

  /** `os.path.dirname(p)`: everything up to the last '/', without trailing
      slashes unless it consists of slashes only. */
  function Dirname(p: string): string {
    var head := p[..LastIndexOf(p, '/') + 1];
    if exists k :: 0 <= k < |head| && head[k] != '/' then TrimTrailingSlashes(head) else head
  }

  /** `os.path.join(a, b)`. */
  function PathJoin(a: string, b: string): string {
    if |b| > 0 && b[0] == '/' then b
    else if a == [] || a[|a| - 1] == '/' then a + b
    else a + "/" + b
  }

  /** For a file `dir/name.ext` whose directory does not end in '/', whose
      name has no '.' and whose extension has no '.': `splitext` drops just
      `.ext` and `dirname` gives back `dir`. */
  lemma {:induction false} SplitFileName(dir: string, name: string, ext: string)
    requires dir != [] && dir[|dir| - 1] != '/'
    requires name != [] && '/' !in name && '.' !in name
    requires '/' !in ext && '.' !in ext
    ensures SplitextRoot(dir + "/" + name + "." + ext) == dir + "/" + name
    ensures Dirname(dir + "/" + name + "." + ext) == dir
  {
    var p := dir + "/" + name + "." + ext;
    var slash := |dir|;
    var dot := |dir| + 1 + |name|;
    assert p[slash] == '/' && p[dot] == '.';
    assert forall k :: slash < k < dot ==> p[k] == name[k - slash - 1];
    assert forall k :: dot < k < |p| ==> p[k] == ext[k - dot - 1];
    LastIndexIs(p, '/', slash);
    LastIndexIs(p, '.', dot);
    assert p[slash + 1] != '.';
    assert p[..dot] == dir + "/" + name;
    var head := p[..slash + 1];
    assert head == dir + "/";
    assert head[|dir| - 1] != '/';
    assert TrimTrailingSlashes(head) == dir by {
      assert head[..|head| - 1] == dir;
    }
  }

  lemma {:induction false} LastIndexIs(s: string, c: char, i: int)
    requires 0 <= i < |s| && s[i] == c
    requires forall k :: i < k < |s| ==> s[k] != c
    ensures LastIndexOf(s, c) == i
  {
    if i < |s| - 1 {
      LastIndexIs(s[..|s| - 1], c, i);
    }
  }
}
