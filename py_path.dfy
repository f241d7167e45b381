/**
 * The POSIX path helpers the datasources use to name release directories and
 * files: posixpath.join (which os.path.join is on POSIX systems) and the last
 * path segment of a URL or path.
 */
module PyPath {
  import opened PyStr

  /** The path starts at the root. */
  predicate Absolute(p: string) {
    p != [] && p[0] == '/'
  }

  /** The path ends in a separator (or is empty, where join adds none either). */
  predicate DirLike(p: string) {
    p == [] || p[|p| - 1] == '/'
  }

  /** posixpath.join(a, b): an absolute `b` replaces `a`; otherwise one '/' separates them. */
  function Join(a: string, b: string): (r: string)
    ensures Absolute(b) ==> r == b
    ensures !Absolute(b) && !DirLike(a) ==> r == a + "/" + b
    ensures !Absolute(b) && DirLike(a) ==> r == a + b
  {
    if Absolute(b) then b
    else if DirLike(a) then a + b
    else a + "/" + b
  }

  /** The last '/'-separated segment of a path: the file name a download is saved under. */
  function Basename(p: string): (r: string)
    ensures '/' !in r && EndsWith(p, r)
    ensures '/' !in p ==> r == p
  {
    match RFind(p, '/')
    case None => p
    case Some(i) => p[i + 1..]
  }

  /** Joining a plain file name onto any directory keeps that name as the last segment. */
  lemma JoinBasename(dir: string, name: string)
    requires name != [] && '/' !in name
    ensures Basename(Join(dir, name)) == name
  {
    var p := Join(dir, name);
    assert !Absolute(name);
    if dir == [] {
      assert p == name;
    } else {
      var k := |p| - |name| - 1;
      if DirLike(dir) {
        assert p == dir + name;
        assert p[k] == dir[|dir| - 1];
      } else {
        assert p == dir + "/" + name;
      }
      assert p[k] == '/';
      assert p[k + 1..] == name;
      assert '/' !in p[k + 1..];
    }
  }

  /** Joining the segments one at a time is joining the relative path they spell. */
  lemma JoinJoin(a: string, b: string, c: string)
    requires b != [] && b[0] != '/' && b[|b| - 1] != '/'
    requires c == [] || c[0] != '/'
    ensures Join(Join(a, b), c) == Join(a, b + "/" + c)
  {
    var ab := Join(a, b);
    var bc := b + "/" + c;
    assert !Absolute(b) && !Absolute(c);
    assert !Absolute(bc) by { assert bc[0] == b[0]; }
    if DirLike(a) {
      assert ab == a + b;
      assert !DirLike(ab) by { assert ab[|ab| - 1] == b[|b| - 1]; }
      assert Join(a, bc) == a + bc;
      assert ab + "/" + c == a + bc;
    } else {
      assert ab == a + "/" + b;
      assert !DirLike(ab) by { assert ab[|ab| - 1] == b[|b| - 1]; }
      assert Join(a, bc) == a + "/" + bc;
      assert ab + "/" + c == a + "/" + bc;
    }
  }
}
