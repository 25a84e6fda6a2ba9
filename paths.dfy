/** The two `os.path` operations the handlers use, on POSIX paths. */
module Paths {

  /** `str.rfind(c)`: the index of the last `c` in `p`, or -1. */
  function RFind(p: string, c: char): (i: int)
    ensures -1 <= i < |p|
    ensures i >= 0 ==> p[i] == c
    ensures forall j :: i < j < |p| ==> p[j] != c
    decreases |p|
  {
    if |p| == 0 then -1
    else if p[|p| - 1] == c then |p| - 1
    else RFind(p[..|p| - 1], c)
  }

  /** `os.path.basename`: `p[p.rfind('/') + 1:]`, the longest suffix of
      `p` that holds no '/'. */
  function Basename(p: string): (b: string)
    ensures '/' !in b
    ensures |b| <= |p| && b == p[|p| - |b|..]
    ensures |b| < |p| ==> p[|p| - |b| - 1] == '/'
  {
    var i := RFind(p, '/');
    var b := p[i + 1..];
    forall k | 0 <= k < |b|
      ensures b[k] != '/'
    {
      assert b[k] == p[i + 1 + k];
    }
    b
  }

  /** `os.path.join(a, b)` with two arguments: an absolute `b` replaces `a`;
      otherwise a '/' is inserted unless `a` is empty or already ends in one. */
  function JoinPath(a: string, b: string): (r: string)
    ensures |b| > 0 && b[0] == '/' ==> r == b
    ensures |b| <= |r| && r[|r| - |b|..] == b
    ensures !(|b| > 0 && b[0] == '/') ==> |a| <= |r| && r[..|a|] == a
    ensures !(|b| > 0 && b[0] == '/') && (a == "" || a[|a| - 1] == '/') ==> |r| == |a| + |b|
    ensures !(|b| > 0 && b[0] == '/') && a != "" && a[|a| - 1] != '/' ==>
              |r| == |a| + 1 + |b| && r[|a|] == '/'
  {
    if |b| > 0 && b[0] == '/' then b
    else if a == "" || a[|a| - 1] == '/' then a + b
    else a + "/" + b
  }

  /** A slash-free name appended after a separator is its own basename. */
  lemma BasenameAfterSeparator(p: string, name: string)
    requires p == "" || p[|p| - 1] == '/'
    requires '/' !in name
    ensures Basename(p + name) == name
  {
    var s := p + name;
    var i := RFind(s, '/');
    forall j | |p| <= j < |s|
      ensures s[j] != '/'
    {
      assert s[j] == name[j - |p|] && name[j - |p|] in name;
    }
    assert p != "" ==> s[|p| - 1] == '/';
    assert i == |p| - 1;
    assert s[|p|..] == name;
  }

  /** Joining a directory and a slash-free name, then taking the basename,
      gives the name back. */
  lemma BasenameOfJoin(dir: string, name: string)
    requires '/' !in name
    ensures Basename(JoinPath(dir, name)) == name
  {
  }

  /** A relative name is placed under the directory. */
  lemma JoinRelative(dir: string, name: string)
    requires dir != "" && dir[|dir| - 1] != '/'
    requires '/' !in name
    ensures JoinPath(dir, name) == dir + "/" + name
  {
  }
}
