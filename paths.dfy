/** Where the client looks: the remote it clones from, the place of a repository's
    mirror under the cache root, and the subtree that removing a directory
    deletes. Paths are plain strings joined with '/'; no cleaning is done. */
module Paths {

  type Path = string

  /** `filepath.Join(dir, name)`, taken as plain concatenation with '/'. */
  function PathJoin(dir: Path, name: string): Path
  {
    dir + "/" + name
  }

  /** `fmt.Sprintf("%s/%s", base, repoFullName)`: the remote a mirror is cloned from,
      which lies strictly below the base. */
  function Remote(base: string, repoFullName: string): (r: string)
    ensures Within(r, base) && r != base
  {
    base + "/" + repoFullName
  }

  /** `filepath.Join(cacheDir, repoFullName) + ".git"`: the repository's mirror, a
      ".git" directory strictly below the cache root. */
  function CachePath(cacheDir: Path, repoFullName: string): (p: Path)
    ensures Within(p, cacheDir) && p != cacheDir
    ensures 4 <= |p| && p[|p| - 4..] == ".git"
  {
    PathJoin(cacheDir, repoFullName) + ".git"
  }

  /** `filepath.Dir`: everything before the last '/', or "." when there is none. */
  function Dir(p: Path): (d: Path)
    ensures '/' in p ==> d + "/" <= p && '/' !in p[|d| + 1..]
    ensures '/' !in p ==> d == "."
  {
    if |p| == 0 then "."
    else if p[|p| - 1] == '/' then p[..|p| - 1]
    else
      var d := Dir(p[..|p| - 1]);
      assert forall k :: 0 <= k < |p| - 1 ==> p[..|p| - 1][k] == p[k];
      if '/' in p[..|p| - 1] then
        assert p[|d| + 1..] == p[..|p| - 1][|d| + 1..] + [p[|p| - 1]];
        d
      else
        d
  }

  /** `p` is `dir` itself or lies somewhere below it. */
  predicate Within(p: Path, dir: Path)
  {
    p == dir || dir + "/" <= p
  }

  /** The effect of `os.RemoveAll(dir)` on a set of existing paths. */
  function RemoveTree(fs: set<Path>, dir: Path): set<Path>
  {
    set p | p in fs && !Within(p, dir)
  }

  /** Under one base, different full names never share a remote. */
  lemma RemoteInjective(base: string, name1: string, name2: string)
    requires Remote(base, name1) == Remote(base, name2)
    ensures name1 == name2
  {
    var r := Remote(base, name1);
    assert |name1| == |name2|;
    assert name1 == r[|base| + 1..];
    assert name2 == Remote(base, name2)[|base| + 1..];
  }

  /** Different full names never share a mirror under one cache root. */
  lemma CachePathInjective(cacheDir: Path, name1: string, name2: string)
    requires CachePath(cacheDir, name1) == CachePath(cacheDir, name2)
    ensures name1 == name2
  {
    var p := CachePath(cacheDir, name1);
    assert |name1| == |name2|;
    assert name1 == p[|cacheDir| + 1..|cacheDir| + 1 + |name1|];
    assert name2 == CachePath(cacheDir, name2)[|cacheDir| + 1..|cacheDir| + 1 + |name2|];
  }

  /** Every mirror lies strictly below the cache root; the directory created to
      hold it lies below the root or is the root itself. Removing the cache root
      removes both. */
  lemma CachePathWithin(cacheDir: Path, repoFullName: string)
    ensures Within(CachePath(cacheDir, repoFullName), cacheDir)
    ensures CachePath(cacheDir, repoFullName) != cacheDir
    ensures Within(Dir(CachePath(cacheDir, repoFullName)), cacheDir)
  {
    var p := CachePath(cacheDir, repoFullName);
    assert p[..|cacheDir| + 1] == cacheDir + "/";
    assert p[|cacheDir|] == '/';
    assert '/' in p;
    var d := Dir(p);
    assert d == p[..|d|];
    if |d| == |cacheDir| {
      assert d == cacheDir;
    } else {
      assert d[..|cacheDir| + 1] == cacheDir + "/";
    }
  }
}
