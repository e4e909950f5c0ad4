/** What the retention sweep does and does not delete, stated over the walk it performs. */
module SweepProperties {
  import opened Wrappers
  import opened Int64s
  import opened Paths
  import opened Dates
  import opened Config
  import opened Sweep

  /** The order filepath.Walk visits in: the root first, then only paths strictly beneath it. */
  predicate WalkOrder(order: seq<Path>, root: Path) {
    |order| > 0 && order[0] == root &&
    forall i :: 1 <= i < |order| ==> order[i] != root && Within(order[i], root)
  }

  /** Walking a + b is walking a and, unless a ended in an error, going on with b from there. */
  lemma {:induction false} SweptConcat(a: seq<Path>, b: seq<Path>, tree: Tree,
                                       failures: map<Path, string>, root: Path, cutoff: Int64)
    ensures var first := Swept(a, tree, failures, root, cutoff);
            Swept(a + b, tree, failures, root, cutoff) ==
            if first.err.Some? then first
            else After(first.removed, Swept(b, first.tree, failures, root, cutoff))
  {
    if a == [] {
      assert a + b == b;
    } else {
      assert (a + b)[0] == a[0];
      assert (a + b)[1..] == a[1..] + b;
      match Visit(a[0], Lstat(tree, a[0]), tree, failures, root, cutoff)
      case Halt(e) =>
      case Continue(tree', gone) =>
        SweptConcat(a[1..], b, tree', failures, root, cutoff);
    }
  }

  /** Once a callback returns an error, nothing after it is examined: the rest of the walk makes
      no difference to the outcome. */
  lemma StopsAtFirstError(a: seq<Path>, b: seq<Path>, tree: Tree,
                          failures: map<Path, string>, root: Path, cutoff: Int64)
    requires Swept(a, tree, failures, root, cutoff).err.Some?
    ensures Swept(a + b, tree, failures, root, cutoff) == Swept(a, tree, failures, root, cutoff)
  {
    SweptConcat(a, b, tree, failures, root, cutoff);
  }

  /** Every path the sweep removed was visited, existed before the sweep, was an expired
      directory whose base name carries the root's base name, and had no removal failure. */
  lemma {:induction false} RemovedWereEligible(order: seq<Path>, tree: Tree,
                                               failures: map<Path, string>, root: Path,
                                               cutoff: Int64, p: Path)
    requires p in Swept(order, tree, failures, root, cutoff).removed
    ensures p in order && p in tree && p !in failures
    ensures Eligible(p, tree[p], root, cutoff)
  {
    match Visit(order[0], Lstat(tree, order[0]), tree, failures, root, cutoff)
    case Halt(e) =>
    case Continue(tree', gone) =>
      if p !in gone {
        RemovedWereEligible(order[1..], tree', failures, root, cutoff, p);
      }
  }

  /** A non-directory, an entry not older than the cutoff, and a path whose base name lacks the
      root's base name as a prefix are never the target of a removal. Such a path can still
      disappear with a removed directory above it (see SurvivorsExactly). */
  lemma NeverRemoved(order: seq<Path>, tree: Tree, failures: map<Path, string>, root: Path,
                     cutoff: Int64, p: Path)
    requires p in tree
    requires !tree[p].isDir || tree[p].modTime >= cutoff || !(Base(root) <= Base(p))
    ensures p !in Swept(order, tree, failures, root, cutoff).removed
  {
    if p in Swept(order, tree, failures, root, cutoff).removed {
      RemovedWereEligible(order, tree, failures, root, cutoff, p);
    }
  }

  /** A walk that ran to the end visited only paths that still existed, and it removed exactly
      the eligible paths among those it visited. */
  lemma {:induction false} CompleteSweep(order: seq<Path>, tree: Tree,
                                         failures: map<Path, string>, root: Path, cutoff: Int64)
    requires Swept(order, tree, failures, root, cutoff).err.None?
    ensures forall p :: p in order ==> p in tree
    ensures forall p :: p in Swept(order, tree, failures, root, cutoff).removed <==>
                        p in order && Eligible(p, tree[p], root, cutoff)
  {
    var r := Swept(order, tree, failures, root, cutoff);
    if order != [] {
      match Visit(order[0], Lstat(tree, order[0]), tree, failures, root, cutoff)
      case Halt(e) =>
      case Continue(tree', gone) =>
        CompleteSweep(order[1..], tree', failures, root, cutoff);
        var rest := Swept(order[1..], tree', failures, root, cutoff);
        forall p | p in order ensures p in tree {
          if p != order[0] { assert p in order[1..]; }
        }
        forall p ensures p in r.removed <==> p in order && Eligible(p, tree[p], root, cutoff) {
          if p in order && p != order[0] {
            assert p in order[1..];
          }
          if p in rest.removed {
            RemovedWereEligible(order[1..], tree', failures, root, cutoff, p);
          }
        }
    }
  }

  /** After the sweep, a path of the tree survives exactly when it lies beneath none of the
      removed paths. */
  lemma {:induction false} SurvivorsExactly(order: seq<Path>, tree: Tree,
                                            failures: map<Path, string>, root: Path, cutoff: Int64)
    ensures var r := Swept(order, tree, failures, root, cutoff);
            forall q :: q in r.tree <==> q in tree && forall d :: d in r.removed ==> !Within(q, d)
  {
    if order != [] {
      match Visit(order[0], Lstat(tree, order[0]), tree, failures, root, cutoff)
      case Halt(e) =>
      case Continue(tree', gone) =>
        SurvivorsExactly(order[1..], tree', failures, root, cutoff);
    }
  }

  /** The root is eligible whenever it is an expired directory, since its base name is a prefix of
      itself: it is removed with everything beneath it, and the walk then stops at the first of
      the root's descendants, which lstat no longer finds. */
  lemma RootSweptWhenExpired(order: seq<Path>, tree: Tree, failures: map<Path, string>,
                             root: Path, cutoff: Int64)
    requires WalkOrder(order, root)
    requires root in tree && tree[root].isDir && tree[root].modTime < cutoff
    requires root !in failures
    ensures var r := Swept(order, tree, failures, root, cutoff);
            r.removed == {root} && r.tree == Pruned(tree, root) &&
            r.err == if |order| == 1 then None else Some(Recovered(order[1]))
  {
    var tree' := Pruned(tree, root);
    assert Visit(root, Lstat(tree, root), tree, failures, root, cutoff) == Continue(tree', {root});
    assert Swept(order, tree, failures, root, cutoff) ==
           After({root}, Swept(order[1..], tree', failures, root, cutoff));
    if |order| == 1 {
      assert order[1..] == [];
    } else {
      assert order[1..][0] == order[1];
      HaltsOnVanished(order[1..], tree', failures, root, cutoff);
    }
  }

  /** A walk whose first path is no longer there ends right away with the recovered panic. */
  lemma HaltsOnVanished(order: seq<Path>, tree: Tree, failures: map<Path, string>, root: Path,
                        cutoff: Int64)
    requires order != [] && order[0] !in tree
    ensures Swept(order, tree, failures, root, cutoff) == Outcome(tree, {}, Some(Recovered(order[0])))
  {
  }

  /** A day directory `root/YYYY-MM-DD` is never eligible when the root's base name starts with
      something other than a digit: its base name begins with a digit of the year. */
  lemma DayDirectoryNeverEligible(root: Path, d: Date, info: FileInfo, cutoff: Int64)
    requires !IsDigit(Base(root)[0])
    ensures !Eligible(root + "/" + DayName(d), info, root, cutoff)
  {
    DayNameShape(d);
    BaseOfChild(root, DayName(d));
  }

  /** Under the default log root "./log" the sweep compares against "log", so the day
      directories the sinks write into are never removed, however old. */
  lemma DefaultRootKeepsDayDirectories(c: LogConfig, d: Date, info: FileInfo, now: Int64)
    requires c.path == ""
    ensures var root := Conf(c).0;
            !Eligible(root + "/" + DayName(d), info, root, Cutoff(now, RetentionDays(c)))
  {
    BaseOfChild(".", "log");
    assert Conf(c).0 == "." + "/" + "log";
    DayDirectoryNeverEligible(Conf(c).0, d, info, Cutoff(now, RetentionDays(c)));
  }

  /** With no int64 overflow, an entry exactly `days` days old is kept and one a second older is
      eligible (given a directory with a matching name). */
  lemma ThresholdIsStrict(path: Path, root: Path, now: Int64, days: Int64, isDir: bool)
    requires InInt64(SECONDS_PER_DAY * days)
    requires InInt64(now - SECONDS_PER_DAY * days) && InInt64(now - SECONDS_PER_DAY * days - 1)
    ensures !Eligible(path, FileInfo(isDir, now - SECONDS_PER_DAY * days), root, Cutoff(now, days))
    ensures Eligible(path, FileInfo(isDir, now - SECONDS_PER_DAY * days - 1), root, Cutoff(now, days))
            <==> isDir && Base(root) <= Base(path)
  {
  }

  /** A removal failure does not leave the rest of the sweep to carry on: when, after the visits
      of `done`, the next path is eligible but cannot be removed, the walk ends with that error,
      the tree is as `done` left it and only paths of `done` are removed, whatever is still to
      come. */
  lemma FailureStopsLaterRemovals(done: seq<Path>, p: Path, later: seq<Path>, tree: Tree,
                                  failures: map<Path, string>, root: Path, cutoff: Int64)
    requires Swept(done, tree, failures, root, cutoff).err.None?
    requires var before := Swept(done, tree, failures, root, cutoff).tree;
             p in before && p in failures && Eligible(p, before[p], root, cutoff)
    ensures var first := Swept(done, tree, failures, root, cutoff);
            Swept(done + ([p] + later), tree, failures, root, cutoff) ==
            Outcome(first.tree, first.removed, Some(RemoveFailed(p, failures[p])))
    ensures forall q :: q in Swept(done + ([p] + later), tree, failures, root, cutoff).removed ==> q in done
  {
    var first := Swept(done, tree, failures, root, cutoff);
    HaltsOnFailure([p] + later, first.tree, failures, root, cutoff);
    SweptConcat(done, [p] + later, tree, failures, root, cutoff);
    assert first.removed + {} == first.removed;
  }

  /** A walk whose first path is eligible but cannot be removed ends right there. */
  lemma HaltsOnFailure(order: seq<Path>, tree: Tree, failures: map<Path, string>, root: Path,
                       cutoff: Int64)
    requires order != [] && order[0] in tree && order[0] in failures
    requires Eligible(order[0], tree[order[0]], root, cutoff)
    ensures Swept(order, tree, failures, root, cutoff) ==
            Outcome(tree, {}, Some(RemoveFailed(order[0], failures[order[0]])))
  {
  }

  /** A configuration with Path "/var/log/app" and MaxDays 7 keeps the day directory
      "/var/log/app/2020-01-01" even when it is ten days old: its base name does not start with
      "app". The paths are written as the joins they are, which spell the same strings. */
  lemma TenDayOldDayDirectoryKept(now: Int64)
    requires InInt64(now - 10 * SECONDS_PER_DAY)
    ensures var root := "/var/log" + "/" + "app";
            var c := LogConfig("", root, "svc", 7);
            !Eligible(root + "/" + "2020-01-01", FileInfo(true, now - 10 * SECONDS_PER_DAY), Conf(c).0,
                      Cutoff(now, RetentionDays(c)))
  {
    var root := "/var/log" + "/" + "app";
    BaseOfChild("/var/log", "app");
    BaseOfChild(root, "2020-01-01");
    assert "2020-01-01"[0] != "app"[0];
  }

  /** A root configured with a trailing slash is removed just as the same root without it:
      os.RemoveAll("a/") deletes the directory a and everything beneath it. */
  lemma RemoveAllIgnoresTrailingSlash(tree: Tree, dir: Path)
    requires dir != [] && dir[|dir| - 1] != '/'
    ensures Pruned(tree, dir + "/") == Pruned(tree, dir)
  {
    forall q ensures Within(q, dir + "/") <==> Within(q, dir) {
      WithinTrailingSlash(q, dir);
    }
  }

  /** What deleteOldLog removes: only visited, existing directories older than the retention
      cutoff whose base name starts with the configured root's; when its walk ends without an
      error it removes every such directory it visited. */
  lemma ConfiguredSweepRemoves(c: LogConfig, now: Int64, order: seq<Path>, tree: Tree,
                               failures: map<Path, string>)
    ensures var r := SweepOf(c, now, order, tree, failures);
            var cutoff := Cutoff(now, RetentionDays(c));
            forall p :: p in r.removed ==>
              p in order && p in tree && p !in failures &&
              tree[p].isDir && tree[p].modTime < cutoff && Base(Conf(c).0) <= Base(p)
    ensures var r := SweepOf(c, now, order, tree, failures);
            var cutoff := Cutoff(now, RetentionDays(c));
            r.err.None? ==>
              forall p :: p in r.removed <==>
                p in order && p in tree &&
                tree[p].isDir && tree[p].modTime < cutoff && Base(Conf(c).0) <= Base(p)
  {
    var root, cutoff := Conf(c).0, Cutoff(now, RetentionDays(c));
    var r := Swept(order, tree, failures, root, cutoff);
    forall p | p in r.removed
      ensures p in order && p in tree && p !in failures && Eligible(p, tree[p], root, cutoff)
    {
      RemovedWereEligible(order, tree, failures, root, cutoff, p);
    }
    if r.err.None? {
      CompleteSweep(order, tree, failures, root, cutoff);
    }
  }
}
