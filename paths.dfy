/**
 * POSIX semantics of the two `os.path` helpers the tracker uses to
 * redirect a data-block into another directory.
 */
module Paths {

  /** Position of the last '/' of `p`, or -1 when `p` has none. */
  function LastSlash(p: string): (i: int)
    ensures -1 <= i < |p|
    ensures i >= 0 ==> p[i] == '/'
    ensures forall j :: i < j < |p| ==> p[j] != '/'
  {
    if |p| == 0 then -1
    else if p[|p| - 1] == '/' then |p| - 1
    else LastSlash(p[..|p| - 1])
  }

  /** `os.path.basename`: everything after the last '/' of `p`. */
  function Basename(p: string): (r: string)
    ensures '/' !in r
    ensures |r| <= |p| && r == p[|p| - |r|..]
    ensures |r| < |p| ==> p[|p| - |r| - 1] == '/'
  {
    p[LastSlash(p) + 1..]
  }

  /**
   * The three facts in Basename's contract determine it: a suffix of `p` with
   * no '/' that is either all of `p` or preceded by a '/' is the basename.
   */
  lemma BasenameOfSuffix(p: string, s: string)
    requires '/' !in s
    requires |s| <= |p| && s == p[|p| - |s|..]
    requires |s| < |p| ==> p[|p| - |s| - 1] == '/'
    ensures Basename(p) == s
  {
    var i := LastSlash(p);
    assert forall k :: |p| - |s| <= k < |p| ==> p[k] == s[k - (|p| - |s|)];
    assert forall k :: |p| - |s| <= k < |p| ==> p[k] != '/';
    assert i == |p| - |s| - 1;
  }

  /** `os.path.join(a, b)` for two components. */
  function Join(a: string, b: string): (r: string)
    ensures |b| <= |r| && r[|r| - |b|..] == b
    ensures |b| < |r| ==> r[|r| - |b| - 1] == '/'
    ensures (|b| > 0 && b[0] == '/') || a <= r
    ensures (|b| > 0 && b[0] == '/') ==> r == b
    ensures !(|b| > 0 && b[0] == '/') && (a == "" || a[|a| - 1] == '/') ==> r == a + b
    ensures !(|b| > 0 && b[0] == '/') && a != "" && a[|a| - 1] != '/' ==> r == a + "/" + b
  {
    if |b| > 0 && b[0] == '/' then b
    else if a == "" || a[|a| - 1] == '/' then a + b
    else a + "/" + b
  }

  /** Joining a directory with a file name keeps that file name as the basename. */
  lemma BasenameOfJoin(a: string, b: string)
    requires '/' !in b
    ensures Basename(Join(a, b)) == b
  {
    BasenameOfSuffix(Join(a, b), b);
  }
}
