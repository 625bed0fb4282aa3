/** Paths as the tool builds them: joins of already-normalised absolute segments,
    with Node's path.dirname and path.basename. */
module Paths {

  type Path = string

  /** `dir + '/' + name`. */
  function Join(dir: Path, name: string): Path {
    dir + "/" + name
  }

  /** Index of the last '/' in p, or -1 when there is none. */
  function LastSlash(p: string): (i: int)
    ensures -1 <= i < |p|
    ensures i >= 0 ==> p[i] == '/'
  {
    if p == [] then -1
    else if p[|p| - 1] == '/' then |p| - 1
    else LastSlash(p[..|p| - 1])
  }

  /** No '/' follows the last one. */
  lemma {:induction false} NoSlashAfter(p: string)
    ensures forall j :: LastSlash(p) < j < |p| ==> p[j] != '/'
  {
    if p != [] && p[|p| - 1] != '/' {
      NoSlashAfter(p[..|p| - 1]);
    }
  }

  /** path.dirname of a normalised path: everything before the last '/'. */
  function Dirname(p: Path): Path {
    var i := LastSlash(p);
    if i < 0 then "." else if i == 0 then "/" else p[..i]
  }

  function StripTrailingSlashes(p: Path): (q: Path)
    ensures q <= p
    ensures |q| > 1 ==> q[|q| - 1] != '/'
  {
    if |p| > 1 && p[|p| - 1] == '/' then StripTrailingSlashes(p[..|p| - 1]) else p
  }

  /** path.basename: the last component, trailing slashes ignored. */
  function BaseName(p: Path): (b: string)
    ensures '/' !in b
  {
    var q := StripTrailingSlashes(p);
    NoSlashAfter(q);
    q[LastSlash(q) + 1..]
  }

  /** p lies strictly inside the directory f. */
  predicate Under(p: Path, f: Path) {
    f + "/" <= p
  }

  /** p is f or lies inside it. */
  predicate InTree(p: Path, f: Path) {
    p == f || Under(p, f)
  }

  /** Joining a single component to a directory gives a child of that directory. */
  lemma DirnameOfJoin(dir: Path, name: string)
    requires dir != "" && '/' !in name
    ensures Dirname(Join(dir, name)) == dir
    ensures Under(Join(dir, name), dir)
  {
    var p := Join(dir, name);
    assert p[|dir|] == '/';
    forall j | |dir| < j < |p| ensures p[j] != '/' {
      assert p[j] == name[j - |dir| - 1];
    }
    NoSlashAfter(p);
    assert p[..|dir|] == dir;
  }

  lemma BaseNameOfJoin(dir: Path, name: string)
    requires name != "" && '/' !in name
    ensures BaseName(Join(dir, name)) == name
  {
    var p := Join(dir, name);
    assert p[|p| - 1] != '/' by { assert p[|p| - 1] == name[|name| - 1]; }
    assert p[|dir|] == '/';
    forall j | |dir| < j < |p| ensures p[j] != '/' {
      assert p[j] == name[j - |dir| - 1];
    }
    NoSlashAfter(p);
    NoSlashAfter(StripTrailingSlashes(p));
    assert p[|dir| + 1..] == name;
  }

  /** A path with a '/' past its first character lies inside its own dirname. */
  lemma UnderDirname(p: Path)
    requires LastSlash(p) > 0
    ensures Under(p, Dirname(p))
  {
    var i := LastSlash(p);
    assert Dirname(p) + "/" == p[..i + 1];
  }

  /** Walking up one level from a path inside f either reaches f or stays inside f. */
  lemma {:induction false} ParentOfUnder(p: Path, f: Path)
    requires f != "" && Under(p, f)
    ensures LastSlash(p) >= |f| > 0
    ensures Dirname(p) == f || Under(Dirname(p), f)
  {
    assert p[|f|] == (f + "/")[|f|] == '/';
    NoSlashAfter(p);
    var i := LastSlash(p);
    if i > |f| {
      assert (f + "/") <= p[..i] by {
        assert p[..i][..|f| + 1] == p[..|f| + 1] == f + "/";
      }
    } else {
      assert p[..i] == f by { assert p[..|f| + 1] == f + "/"; }
    }
  }

  /** A node whose parent lies in the tree of a non-root directory f lies inside f. */
  lemma ChildInTree(q: Path, f: Path)
    requires Dirname(f) != f && Dirname(q) != q && InTree(Dirname(q), f)
    ensures Under(q, f)
  {
    assert LastSlash(".") == -1;
    assert !Under(".", f) by {
      if f == "" {
        assert (f + "/")[0] != "."[0];
      }
    }
    var i := LastSlash(q);
    if i > 0 {
      var d := q[..i];
      assert Dirname(q) == d;
      if d == f {
        assert q[..i + 1] == f + "/";
      } else {
        assert f + "/" <= d;
      }
    } else if i == 0 {
      assert Dirname(q) == "/";
      assert f == "";
      assert q[..1] == "/";
    }
  }
}
