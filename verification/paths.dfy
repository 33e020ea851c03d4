/** The POSIX forms of the `os.path` operations the exporter uses. */
module Paths {

  predicate StartsWith(s: string, prefix: string) {
    |prefix| <= |s| && s[..|prefix|] == prefix
  }

  predicate EndsWith(s: string, suffix: string) {
    |suffix| <= |s| && s[|s| - |suffix|..] == suffix
  }

  /** `os.path.join(a, b)`: an absolute `b` replaces `a`; otherwise `b` is
      appended, with a separator unless `a` is empty or already ends in one. */
  function Join(a: string, b: string): (p: string)
    ensures EndsWith(p, b)
    ensures !StartsWith(b, "/") ==> StartsWith(p, a) && |p| <= |a| + 1 + |b|
    ensures StartsWith(b, "/") ==> p == b
    ensures !StartsWith(b, "/") ==> |a| + |b| <= |p| && (|p| == |a| + |b| + 1 ==> p[|a|] == '/')
    ensures !StartsWith(b, "/") && |p| == |a| + |b| ==> a == "" || EndsWith(a, "/")
    ensures !StartsWith(b, "/") && (a == "" || EndsWith(a, "/")) ==> p == a + b
  {
    if StartsWith(b, "/") then b
    else if a == "" || EndsWith(a, "/") then a + b
    else a + "/" + b
  }

  /** `os.path.basename(p)`: what follows the last separator. */
  function Basename(p: string): (b: string)
    ensures '/' !in b
    ensures |b| <= |p| && b == p[|p| - |b|..]
    ensures |b| == |p| || p[|p| - |b| - 1] == '/'
    decreases |p|
  {
    if |p| == 0 then ""
    else if p[|p| - 1] == '/' then ""
    else Basename(p[..|p| - 1]) + [p[|p| - 1]]
  }

  /** A separator-free name placed after a separator (or at the start) is
      its own base name. */
  lemma {:induction false} BasenameAfterSeparator(a: string, b: string)
    requires '/' !in b
    requires a == "" || EndsWith(a, "/")
    ensures Basename(a + b) == b
    decreases |b|
  {
    if |b| == 0 {
      assert a + b == a;
      if a != "" {
        assert a[|a| - 1] == '/';
      }
    } else {
      var c := b[|b| - 1];
      assert (a + b)[..|a + b| - 1] == a + b[..|b| - 1];
      assert (a + b)[|a + b| - 1] == c;
      BasenameAfterSeparator(a, b[..|b| - 1]);
      assert b[..|b| - 1] + [c] == b;
    }
  }

  /** Joining a relative, separator-free name onto any directory gives a
      path whose base name is that name. */
  lemma JoinBasename(dir: string, name: string)
    requires '/' !in name
    ensures Basename(Join(dir, name)) == name
  {
    assert !StartsWith(name, "/") by {
      if |name| > 0 {
        assert name[0] in name;
      }
    }
    assert Join(dir, name) == if dir == "" || EndsWith(dir, "/") then dir + name else dir + "/" + name;
    if dir == "" || EndsWith(dir, "/") {
      BasenameAfterSeparator(dir, name);
    } else {
      assert EndsWith(dir + "/", "/");
      assert dir + "/" + name == (dir + "/") + name;
      BasenameAfterSeparator(dir + "/", name);
    }
  }
}
