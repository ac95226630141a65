/** The check of symbolic links: every walk that starts at a link ends, in the tree. */
module TreeLinks {
  import opened Outcomes
  import opened TreePaths

  // ---- where a link leads ----

  /** Splits a text at its slashes. */
  function Split(text: string): (parts: seq<string>)
    ensures parts != []
  {
    if text == "" then [""]
    else
      var rest := Split(text[1..]);
      if text[0] == '/' then [""] + rest else [[text[0]] + rest[0]] + rest[1..]
  }

  /** A target that is relative, short and printable. */
  predicate WellFormed(target: string) {
    && target != "" && |target| <= 4096 && target[0] != '/'
    && forall i | 0 <= i < |target| :: target[i] != '\\' && 32 <= target[i] as int && target[i] as int != 127
  }

  /** Lexical resolution from a folder: `..` drops a part and fails above the root. */
  function Resolve(folder: Path, parts: seq<string>): Option<Path>
    decreases |parts|
  {
    if parts == [] then Some(folder)
    else if parts[0] == ".." then
      if folder == [] then None else Resolve(folder[..|folder| - 1], parts[1..])
    else if parts[0] == "" || parts[0] == "." then Resolve(folder, parts[1..])
    else Resolve(folder + [parts[0]], parts[1..])
  }

  function TargetOf(path: Path, target: string): Option<Path>
    requires path != []
  {
    if WellFormed(target) then Resolve(path[..|path| - 1], Split(target)) else None
  }

  predicate IsLink(tree: Tree, p: Path) {
    p in tree && tree[p].Link?
  }

  // ---- walks ----

  /** One step of a walk: from a directory to a link beneath it, from a link to its target. */
  predicate Leads(tree: Tree, p: Path, q: Path) {
    if IsDirectory(tree, p) then IsLink(tree, q) && ProperPrefix(p, q)
    else p != [] && IsLink(tree, p) && TargetOf(p, tree[p].target) == Some(q)
  }

  /** A walk cannot go on here although it should: no such entry, or a link that leads nowhere. */
  predicate DeadEnd(tree: Tree, p: Path) {
    && !IsDirectory(tree, p)
    && (p !in tree || p == [] || (tree[p].Link? && TargetOf(p, tree[p].target).None?))
  }

  predicate Walk(tree: Tree, w: seq<Path>) {
    w != [] && forall i | 0 <= i < |w| - 1 :: Leads(tree, w[i], w[i + 1])
  }

  predicate Repeats(w: seq<Path>) {
    exists i, j | 0 <= i < j < |w| :: w[i] == w[j]
  }

  // ---- the check ----

  function Nodes(tree: Tree): set<Path> {
    set p, n | p in tree && 0 <= n <= |p| :: p[..n]
  }

  lemma InNodes(tree: Tree, p: Path)
    ensures IsDirectory(tree, p) || p in tree ==> p in Nodes(tree)
  {
    if p in tree {
      assert p == p[..|p|];
    } else if IsDirectory(tree, p) {
      var q :| q in tree && ProperPrefix(p, q);
      assert q[..|p|] in Nodes(tree);
    }
  }

  /** Follows everything that can be reached from `path`, refusing what was already visited on the way. */
  predicate Follow(tree: Tree, path: Path, visited: set<Path>)
    decreases Nodes(tree) - visited
  {
    InNodes(tree, path);
    if path in visited then false
    else if IsDirectory(tree, path) then
      forall child | child in tree && ProperPrefix(path, child) && tree[child].Link? ::
        Follow(tree, child, visited + {path})
    else if path !in tree || path == [] then false
    else if tree[path].File? then true
    else
      var target := TargetOf(path, tree[path].target);
      target.Some? && Follow(tree, target.value, visited + {path})
  }

  predicate ValidLinks(tree: Tree) {
    forall p | p in tree && tree[p].Link? :: Follow(tree, p, {})
  }

  // ---- it accepts exactly the trees whose walks end well ----

  /** Where the check accepts, no walk meets a visited node, repeats a node or stops at a dead end. */
  lemma {:induction false} FollowIsSound(tree: Tree, path: Path, visited: set<Path>, w: seq<Path>)
    requires Follow(tree, path, visited) && Walk(tree, w) && w[0] == path
    ensures forall i | 0 <= i < |w| :: w[i] !in visited
    ensures !Repeats(w) && !DeadEnd(tree, w[|w| - 1])
    decreases |w|
  {
    if |w| > 1 {
      assert Leads(tree, w[0], w[1]);
      assert Follow(tree, w[1], visited + {path});
      var rest := w[1..];
      assert Walk(tree, rest) by {
        forall i | 0 <= i < |rest| - 1 ensures Leads(tree, rest[i], rest[i + 1]) {
          assert Leads(tree, w[i + 1], w[i + 2]);
        }
      }
      FollowIsSound(tree, w[1], visited + {path}, rest);
      forall i | 1 <= i < |w| ensures w[i] !in visited && w[i] != path {
        assert rest[i - 1] == w[i];
      }
      forall i, j | 0 <= i < j < |w| ensures w[i] != w[j] {
        if i > 0 {
          assert rest[i - 1] != rest[j - 1];
        }
      }
    }
  }

  /** A walk on which the check must refuse: it comes back to a visited node or to itself, or dies. */
  predicate Bad(tree: Tree, w: seq<Path>, visited: set<Path>) {
    w != [] && (w[|w| - 1] in visited || DeadEnd(tree, w[|w| - 1]) || Repeats(w))
  }

  /** Where the check refuses there is a walk to blame. */
  lemma {:induction false} FollowIsComplete(tree: Tree, path: Path, visited: set<Path>) returns (w: seq<Path>)
    requires !Follow(tree, path, visited)
    ensures Walk(tree, w) && w[0] == path && Bad(tree, w, visited)
    decreases Nodes(tree) - visited
  {
    InNodes(tree, path);
    if path in visited || DeadEnd(tree, path) {
      return [path];
    }
    var next: Path;
    if IsDirectory(tree, path) {
      next :| next in tree && ProperPrefix(path, next) && tree[next].Link? && !Follow(tree, next, visited + {path});
    } else {
      next := TargetOf(path, tree[path].target).value;
    }
    var rest := FollowIsComplete(tree, next, visited + {path});
    w := [path] + rest;
    Prepended(tree, path, rest, visited);
  }

  lemma Prepended(tree: Tree, path: Path, rest: seq<Path>, visited: set<Path>)
    requires Walk(tree, rest) && Leads(tree, path, rest[0]) && Bad(tree, rest, visited + {path})
    ensures Walk(tree, [path] + rest) && Bad(tree, [path] + rest, visited)
  {
    var w := [path] + rest;
    forall i | 0 <= i < |w| - 1 ensures Leads(tree, w[i], w[i + 1]) {
      if i > 0 {
        assert Leads(tree, rest[i - 1], rest[i]);
      }
    }
    if Repeats(rest) {
      var i, j :| 0 <= i < j < |rest| && rest[i] == rest[j];
      assert w[i + 1] == w[j + 1];
    } else if rest[|rest| - 1] == path {
      assert w[0] == w[|w| - 1];
    }
  }

  /** The tree is accepted if and only if every walk from a link visits no node twice and stops at no dead end. */
  lemma ValidLinksExactly(tree: Tree)
    ensures ValidLinks(tree) <==>
            forall w: seq<Path> :: Walk(tree, w) && IsLink(tree, w[0]) ==> !Repeats(w) && !DeadEnd(tree, w[|w| - 1])
  {
    if ValidLinks(tree) {
      forall w: seq<Path> | Walk(tree, w) && IsLink(tree, w[0]) ensures !Repeats(w) && !DeadEnd(tree, w[|w| - 1]) {
        FollowIsSound(tree, w[0], {}, w);
      }
    } else {
      var p :| IsLink(tree, p) && !Follow(tree, p, {});
      var w := FollowIsComplete(tree, p, {});
    }
  }

  /** Every node of a walk but its last is in the tree. */
  lemma WalkInNodes(tree: Tree, w: seq<Path>)
    requires Walk(tree, w)
    ensures forall i | 0 <= i < |w| - 1 :: w[i] in Nodes(tree)
  {
    forall i | 0 <= i < |w| - 1 ensures w[i] in Nodes(tree) {
      assert Leads(tree, w[i], w[i + 1]);
      InNodes(tree, w[i]);
    }
  }

  /** A walk without repetition is no longer than the tree has nodes. */
  lemma {:induction false} DistinctBound(w: seq<Path>, nodes: set<Path>)
    requires (forall i | 0 <= i < |w| :: w[i] in nodes) && !Repeats(w)
    ensures |w| <= |nodes|
    decreases |w|
  {
    if w != [] {
      var n := |w| - 1;
      forall i | 0 <= i < n ensures w[..n][i] in nodes - {w[n]} {
        assert w[i] != w[n];
      }
      forall i, j | 0 <= i < j < n ensures w[..n][i] != w[..n][j] {
        assert w[i] != w[j];
      }
      DistinctBound(w[..n], nodes - {w[n]});
    }
  }

  /** In an accepted tree every walk from a link is finite: its length is bounded by the size of the tree. */
  lemma AcceptedWalksEnd(tree: Tree, w: seq<Path>)
    requires ValidLinks(tree) && Walk(tree, w) && IsLink(tree, w[0])
    ensures |w| <= |Nodes(tree)| + 1
  {
    ValidLinksExactly(tree);
    WalkInNodes(tree, w);
    var n := |w| - 1;
    forall i, j | 0 <= i < j < n ensures w[..n][i] != w[..n][j] {
      assert w[i] != w[j];
    }
    DistinctBound(w[..n], Nodes(tree));
  }

  /** Goes around a repetition once more. */
  function Around(w: seq<Path>, i: nat, j: nat): seq<Path>
    requires i < j < |w|
  {
    w[..j + 1] + w[i + 1..]
  }

  lemma AroundIsWalk(tree: Tree, w: seq<Path>, i: nat, j: nat)
    requires Walk(tree, w) && i < j < |w| && w[i] == w[j]
    ensures Walk(tree, Around(w, i, j)) && Around(w, i, j)[0] == w[0]
    ensures |Around(w, i, j)| > |w| && Around(w, i, j)[i] == Around(w, i, j)[j]
  {
    var v := Around(w, i, j);
    forall k | 0 <= k < |v| - 1 ensures Leads(tree, v[k], v[k + 1]) {
      if k < j {
        assert Leads(tree, w[k], w[k + 1]);
      } else {
        assert Leads(tree, w[k - j + i], w[k - j + i + 1]);
      }
    }
  }

  /** A walk that repeats a node can be made longer than any bound, so a tree with one has an endless walk. */
  lemma {:induction false} RepetitionIsEndless(tree: Tree, w: seq<Path>, i: nat, j: nat, bound: nat)
    returns (longer: seq<Path>)
    requires Walk(tree, w) && i < j < |w| && w[i] == w[j]
    ensures Walk(tree, longer) && longer[0] == w[0] && |longer| > bound
    decreases bound - |w|
  {
    if |w| > bound {
      longer := w;
    } else {
      AroundIsWalk(tree, w, i, j);
      longer := RepetitionIsEndless(tree, Around(w, i, j), i, j, bound);
    }
  }

  /** No walk from a link of this tree is longer than `bound` or stops at a dead end. */
  ghost predicate WalksEnd(tree: Tree, bound: nat) {
    forall w: seq<Path> :: Walk(tree, w) && IsLink(tree, w[0]) ==> |w| <= bound && !DeadEnd(tree, w[|w| - 1])
  }

  /** The tree is accepted if and only if all walks from links are finite and none meets a dead end. */
  lemma AcceptsExactlyFiniteWalks(tree: Tree)
    ensures ValidLinks(tree) <==> exists bound: nat :: WalksEnd(tree, bound)
  {
    ValidLinksExactly(tree);
    if ValidLinks(tree) {
      forall w: seq<Path> | Walk(tree, w) && IsLink(tree, w[0])
        ensures |w| <= |Nodes(tree)| + 1 && !DeadEnd(tree, w[|w| - 1])
      {
        AcceptedWalksEnd(tree, w);
      }
      assert WalksEnd(tree, |Nodes(tree)| + 1);
    } else if exists bound: nat :: WalksEnd(tree, bound) {
      var bound: nat :| WalksEnd(tree, bound);
      var w: seq<Path> :| Walk(tree, w) && IsLink(tree, w[0]) && (Repeats(w) || DeadEnd(tree, w[|w| - 1]));
      if Repeats(w) {
        var i, j :| 0 <= i < j < |w| && w[i] == w[j];
        var longer := RepetitionIsEndless(tree, w, i, j, bound);
      }
      assert false;
    }
  }
}
