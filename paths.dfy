/** Slash-separated paths, with the parts of Go's path/filepath the sweep relies on. */
module Paths {

  type Path = string

  /** The path with every trailing '/' removed. */
  function TrimTrailingSlashes(p: Path): (r: Path)
    ensures r <= p
    ensures r == [] || r[|r| - 1] != '/'
    ensures forall i :: |r| <= i < |p| ==> p[i] == '/'
  {
    if p != [] && p[|p| - 1] == '/' then TrimTrailingSlashes(p[..|p| - 1]) else p
  }

  /** Everything after the last '/' (all of p when it has none). */
  function LastElement(p: Path): (r: Path)
    ensures |r| <= |p| && r == p[|p| - |r|..]
    ensures '/' !in r
    ensures |r| < |p| ==> p[|p| - |r| - 1] == '/'
  {
    if p == [] || p[|p| - 1] == '/' then [] else LastElement(p[..|p| - 1]) + [p[|p| - 1]]
  }

  /** filepath.Base on a Unix system: "." for the empty path, "/" for a path of slashes only,
      otherwise the last element once trailing slashes are dropped. */
  function Base(p: Path): (r: Path)
    ensures r != []
  {
    if p == [] then "."
    else
      var last := LastElement(TrimTrailingSlashes(p));
      if last == [] then "/" else last
  }

  /** q is p itself or lies somewhere beneath it: what os.RemoveAll(p) deletes. Trailing slashes
      of p name the same directory, so `a/` covers `a` and `a/x`, and `/` covers every absolute
      path. */
  predicate Within(q: Path, p: Path)
    ensures q == p ==> Within(q, p)
    ensures Within(q, p) ==> TrimTrailingSlashes(p) <= q
  {
    var dir := TrimTrailingSlashes(p);
    q == p || (p != [] && (q == dir || dir + "/" <= q))
  }

  lemma {:induction false} LastElementOfChild(dir: Path, name: Path)
    requires '/' !in name
    ensures LastElement(dir + "/" + name) == name
  {
    var p := dir + "/" + name;
    if name == [] {
      assert p[|p| - 1] == '/';
    } else {
      var shorter := name[..|name| - 1];
      assert p[..|p| - 1] == dir + "/" + shorter;
      assert '/' !in shorter by {
        forall i | 0 <= i < |shorter| ensures shorter[i] != '/' {
          assert shorter[i] == name[i];
        }
      }
      LastElementOfChild(dir, shorter);
      assert p[|p| - 1] == name[|name| - 1];
      assert shorter + [name[|name| - 1]] == name;
    }
  }

  /** The base name of dir/name is name, whatever dir is. */
  lemma BaseOfChild(dir: Path, name: Path)
    requires name != [] && '/' !in name
    ensures Base(dir + "/" + name) == name
  {
    var p := dir + "/" + name;
    assert p[|p| - 1] == name[|name| - 1];
    assert TrimTrailingSlashes(p) == p;
    LastElementOfChild(dir, name);
  }

  lemma {:induction false} LastElementOfName(name: Path)
    requires '/' !in name
    ensures LastElement(name) == name
  {
    if name != [] {
      var shorter := name[..|name| - 1];
      assert '/' !in shorter by {
        forall i | 0 <= i < |shorter| ensures shorter[i] != '/' {
          assert shorter[i] == name[i];
        }
      }
      assert name[|name| - 1] != '/' by {
        assert name[|name| - 1] in name;
      }
      LastElementOfName(shorter);
      assert LastElement(name) == LastElement(shorter) + [name[|name| - 1]];
      assert shorter + [name[|name| - 1]] == name;
    }
  }

  /** A single path element is its own base name. */
  lemma BaseOfName(name: Path)
    requires name != [] && '/' !in name
    ensures Base(name) == name
  {
    assert TrimTrailingSlashes(name) == name;
    LastElementOfName(name);
  }

  /** `dir/` and `dir` cover the same paths. */
  lemma WithinTrailingSlash(q: Path, dir: Path)
    requires dir != [] && dir[|dir| - 1] != '/'
    ensures Within(q, dir + "/") <==> Within(q, dir)
  {
    assert (dir + "/")[..|dir + "/"| - 1] == dir;
    assert TrimTrailingSlashes(dir + "/") == dir;
  }

  /** Everything beneath a directory is covered by it, however many trailing slashes name it. */
  lemma WithinChild(p: Path, x: Path)
    requires p != []
    ensures Within(TrimTrailingSlashes(p) + "/" + x, p)
  {
    var dir := TrimTrailingSlashes(p);
    assert (dir + "/" + x)[..|dir| + 1] == dir + "/";
  }

  /** A sibling whose name merely extends p's is not covered: `a/logs` does not cover `a/logs2`. */
  lemma NotWithinSibling(p: Path, x: Path)
    requires p != [] && p[|p| - 1] != '/'
    requires x != [] && x[0] != '/'
    ensures !Within(p + x, p)
  {
    assert TrimTrailingSlashes(p) == p;
    assert (p + x)[|p|] == x[0];
  }
}
