/** The retention sweep of deleteOldLog: a walk over the log root that removes expired
    directories whose base name starts with the root's base name. */
module Sweep {
  import opened Wrappers
  import opened Int64s
  import opened Paths
  import opened Config

  /** What lstat reports about an existing entry. */
  datatype FileInfo = FileInfo(isDir: bool, modTime: Int64)

  /** The filesystem as a finite map from path to entry. */
  type Tree = map<Path, FileInfo>

  /** The non-nil errors the walk callback can return. */
  datatype SweepError =
    | RemoveFailed(path: Path, cause: string)  // os.RemoveAll returned an error
    | Recovered(path: Path)                    // a panic inside the callback, turned into an error

  const SECONDS_PER_DAY: int := 60 * 60 * 24

  /** now - 86400 * maxDays, computed in int64 arithmetic as the source does. */
  function Cutoff(now: Int64, maxDays: Int64): (r: Int64)
    ensures InInt64(SECONDS_PER_DAY * maxDays) && InInt64(now - SECONDS_PER_DAY * maxDays) ==>
              r == now - SECONDS_PER_DAY * maxDays
  {
    Wrap64(now - Wrap64(SECONDS_PER_DAY * maxDays))
  }

  /** The deletion test of the callback: a directory, strictly older than the cutoff, whose base
      name has the root's base name as a prefix. */
  predicate Eligible(path: Path, info: FileInfo, root: Path, cutoff: Int64)
    ensures Eligible(path, info, root, cutoff) ==> info.isDir && info.modTime < cutoff
    ensures path == root && info.isDir && info.modTime < cutoff ==> Eligible(path, info, root, cutoff)
  {
    info.isDir && info.modTime < cutoff && Base(root) <= Base(path)
  }

  /** The lstat the walker performs before calling back: nil info for a path that is gone. */
  function Lstat(tree: Tree, p: Path): (r: Option<FileInfo>)
    ensures r.Some? <==> p in tree
    ensures r.Some? ==> r.value == tree[p]
  {
    if p in tree then Some(tree[p]) else None
  }

  /** The tree without p and everything beneath it. */
  function Pruned(tree: Tree, p: Path): (r: Tree)
    ensures forall q :: q in r <==> q in tree && !Within(q, p)
    ensures forall q :: q in r ==> r[q] == tree[q]
  {
    map q | q in tree && !Within(q, p) :: tree[q]
  }

  /** os.RemoveAll: nothing to do for a missing path; for an existing one either the injected
      failure for that path, with the tree left as it was, or the whole subtree removed. */
  function RemoveAllEffect(tree: Tree, failures: map<Path, string>, p: Path): (r: (Option<string>, Tree))
    ensures r.0.Some? <==> p in tree && p in failures
    ensures r.0.Some? ==> r.0.value == failures[p] && r.1 == tree
    ensures r.0.None? && p in tree ==> r.1 == Pruned(tree, p)
    ensures p !in tree ==> r.1 == tree
  {
    if p !in tree then (None, tree)
    else if p in failures then (Some(failures[p]), tree)
    else (None, Pruned(tree, p))
  }

  /** What one callback does: go on with a new tree (and the path removed, if any), or stop. */
  datatype Step = Continue(tree: Tree, removed: set<Path>) | Halt(err: SweepError)

  function Visit(path: Path, info: Option<FileInfo>, tree: Tree, failures: map<Path, string>,
                 root: Path, cutoff: Int64): (r: Step)
    ensures r.Halt? <==>
              info.None? || (Eligible(path, info.value, root, cutoff) && path in tree && path in failures)
    ensures r.Halt? && info.None? ==> r.err == Recovered(path)
    ensures r.Halt? && info.Some? ==> r.err == RemoveFailed(path, failures[path])
    ensures r.Continue? ==> r.removed == if Eligible(path, info.value, root, cutoff) then {path} else {}
    ensures r.Continue? ==> r.tree == if path in r.removed && path in tree then Pruned(tree, path) else tree
  {
    match info
    case None => Halt(Recovered(path))  // info.IsDir() on a nil interface panics
    case Some(fi) =>
      if Eligible(path, fi, root, cutoff) then
        var (err, tree') := RemoveAllEffect(tree, failures, path);
        if err.Some? then Halt(RemoveFailed(path, err.value)) else Continue(tree', {path})
      else Continue(tree, {})
  }

  /** The state a walk leaves: the tree, the paths RemoveAll succeeded on, and the error that
      ended the walk, if one did. */
  datatype Outcome = Outcome(tree: Tree, removed: set<Path>, err: Option<SweepError>)

  /** The walk over `order`, visiting each path with the lstat of the tree as it is by then and
      stopping at the first callback error. */
  function Swept(order: seq<Path>, tree: Tree, failures: map<Path, string>, root: Path,
                 cutoff: Int64): (r: Outcome)
    ensures r.tree.Keys <= tree.Keys
    ensures forall q :: q in r.tree ==> r.tree[q] == tree[q]
    ensures forall p :: p in r.removed ==> p in order
    decreases |order|
  {
    if order == [] then Outcome(tree, {}, None)
    else
      match Visit(order[0], Lstat(tree, order[0]), tree, failures, root, cutoff)
      case Halt(e) => Outcome(tree, {}, Some(e))
      case Continue(tree', gone) =>
        var rest := Swept(order[1..], tree', failures, root, cutoff);
        Outcome(rest.tree, gone + rest.removed, rest.err)
  }

  /** The outcome of the walk whose first visits removed `gone` and which goes on as `rest`. */
  function After(gone: set<Path>, rest: Outcome): Outcome {
    Outcome(rest.tree, gone + rest.removed, rest.err)
  }

  /** The sweep deleteOldLog performs for a configuration at instant `now`. */
  function SweepOf(c: LogConfig, now: Int64, order: seq<Path>, tree: Tree,
                   failures: map<Path, string>): (r: Outcome)
    ensures r == Swept(order, tree, failures, if c.path != "" then c.path else DEFAULT_PATH,
                       Cutoff(now, if c.maxDays != 0 then c.maxDays else DEFAULT_MAX_DAYS))
  {
    Swept(order, tree, failures, Conf(c).0, Cutoff(now, RetentionDays(c)))
  }

  /** The filesystem the sweep works on. */
  class FileSystem {
    var tree: Tree
    const failures: map<Path, string>

    constructor (tree: Tree, failures: map<Path, string>)
      ensures this.tree == tree && this.failures == failures
    {
      this.tree := tree;
      this.failures := failures;
    }

    function Stat(p: Path): (r: Option<FileInfo>)
      reads this
      ensures r.Some? <==> p in tree
      ensures r.Some? ==> r.value == tree[p]
    {
      Lstat(tree, p)
    }

    method RemoveAll(p: Path) returns (err: Option<string>)
      modifies this
      ensures (err, tree) == RemoveAllEffect(old(tree), failures, p)
    {
      if p !in tree {
        err := None;
      } else if p in failures {
        err := Some(failures[p]);
      } else {
        err := None;
        tree := Pruned(tree, p);
      }
    }
  }

  /** The walk callback: removes `path` when it is eligible, turns a RemoveAll error or a panic
      (nil `info`) into its returned error. */
  method Callback(fs: FileSystem, path: Path, info: Option<FileInfo>, root: Path, now: Int64,
                  maxDays: Int64) returns (returnErr: Option<SweepError>, deleted: bool)
    modifies fs
    ensures var step := Visit(path, info, old(fs.tree), fs.failures, root, Cutoff(now, maxDays));
            if step.Halt? then returnErr == Some(step.err) && fs.tree == old(fs.tree)
            else returnErr == None && fs.tree == step.tree && deleted == (path in step.removed)
    ensures deleted ==> returnErr == None
  {
    deleted := false;
    if info.None? {
      returnErr := Some(Recovered(path));
      return;
    }
    var fi := info.value;
    if Eligible(path, fi, root, Cutoff(now, maxDays)) {
      var err := fs.RemoveAll(path);
      if err.Some? {
        returnErr := Some(RemoveFailed(path, err.value));
        return;
      }
      deleted := true;
    }
    returnErr := None;
  }

  /** filepath.Walk with the callback: visits `order` and stops at the first non-nil error. */
  method Walk(fs: FileSystem, root: Path, now: Int64, maxDays: Int64, order: seq<Path>)
    returns (removed: set<Path>, walkErr: Option<SweepError>)
    modifies fs
    ensures Outcome(fs.tree, removed, walkErr) ==
            Swept(order, old(fs.tree), fs.failures, root, Cutoff(now, maxDays))
  {
    ghost var cutoff := Cutoff(now, maxDays);
    removed, walkErr := {}, None;
    var i := 0;
    while i < |order|
      invariant 0 <= i <= |order|
      invariant Swept(order, old(fs.tree), fs.failures, root, cutoff) ==
                After(removed, Swept(order[i..], fs.tree, fs.failures, root, cutoff))
    {
      assert order[i..][1..] == order[i + 1..];
      var info := fs.Stat(order[i]);
      var returnErr, deleted := Callback(fs, order[i], info, root, now, maxDays);
      if returnErr.Some? {
        walkErr := returnErr;
        return;
      }
      if deleted {
        removed := removed + {order[i]};
      }
      i := i + 1;
    }
    assert order[i..] == [];
  }

  /** deleteOldLog: sweeps conf()'s log root with the effective retention and discards the walk's
      error. */
  method DeleteOldLog(fs: FileSystem, c: LogConfig, now: Int64, order: seq<Path>)
    modifies fs
    ensures fs.tree == SweepOf(c, now, order, old(fs.tree), fs.failures).tree
  {
    var (fileDir, _) := Conf(c);
    var maxDays := RetentionDays(c);
    var _, _ := Walk(fs, fileDir, now, maxDays, order);
  }
}
