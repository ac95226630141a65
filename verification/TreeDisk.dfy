/** Writing a tree to a directory and collecting it again. */
module TreeDisk {
  import opened Outcomes
  import opened TreePaths
  import opened TreeLinks

  datatype Node = Leaf(entry: Entry) | Dir(children: map<string, Node>)

  /** What lies at a path beneath a node. */
  function At(node: Node, path: Path): Option<Node>
    decreases |path|
  {
    if path == [] then Some(node)
    else if node.Dir? && path[0] in node.children then At(node.children[path[0]], path[1..])
    else None
  }

  function LeafAt(node: Node, path: Path): Option<Entry> {
    match At(node, path)
    case Some(Leaf(entry)) => Some(entry)
    case _ => None
  }

  /** Creates the folders on the way and then the entry; fails on a file in the way, and where something exists. */
  function Insert(node: Node, path: Path, entry: Entry): Option<Node>
    requires path != []
    decreases |path|
  {
    if node.Leaf? then None
    else if |path| == 1 then
      if path[0] in node.children then None else Some(Dir(node.children[path[0] := Leaf(entry)]))
    else
      var child := if path[0] in node.children then node.children[path[0]] else Dir(map[]);
      match Insert(child, path[1..], entry)
      case None => None
      case Some(after) => Some(Dir(node.children[path[0] := after]))
  }

  /** Nothing is at the path, and no file is above it. */
  ghost predicate Free(node: Node, path: Path) {
    At(node, path).None? && forall k: nat | k < |path| :: LeafAt(node, path[..k]).None?
  }

  lemma {:induction false} InsertSucceeds(node: Node, path: Path, entry: Entry)
    requires path != [] && Free(node, path)
    ensures Insert(node, path, entry).Some?
    decreases |path|
  {
    assert LeafAt(node, path[..0]).None? && path[..0] == [];
    if |path| == 1 {
      assert path[1..] == [];
      assert path[0] in node.children ==> At(node, path) == At(node.children[path[0]], []);
    } else {
      var child := if path[0] in node.children then node.children[path[0]] else Dir(map[]);
      forall k: nat | k < |path[1..]| ensures LeafAt(child, path[1..][..k]).None? {
        assert LeafAt(node, path[..k + 1]).None?;
        assert path[..k + 1][1..] == path[1..][..k];
      }
      InsertSucceeds(child, path[1..], entry);
    }
  }

  lemma HeadTail(q: Path)
    requires q != []
    ensures q == [q[0]] + q[1..]
  {
  }

  /** Exactly one entry is new, and the only new folders are on the way to it. */
  lemma {:induction false} InsertAdds(node: Node, path: Path, entry: Entry, q: Path)
    requires path != [] && Insert(node, path, entry).Some?
    ensures LeafAt(Insert(node, path, entry).value, q) == if q == path then Some(entry) else LeafAt(node, q)
    ensures At(Insert(node, path, entry).value, q).Some? ==> At(node, q).Some? || q <= path
    decreases |path|
  {
    var after := Insert(node, path, entry).value;
    if q != [] && q[0] == path[0] {
      HeadTail(q);
      HeadTail(path);
      if |path| == 1 {
        assert path[1..] == [];
        assert At(after, q) == At(Leaf(entry), q[1..]);
      } else {
        var child := if path[0] in node.children then node.children[path[0]] else Dir(map[]);
        var grown := Insert(child, path[1..], entry).value;
        InsertAdds(child, path[1..], entry, q[1..]);
        assert At(after, q) == At(grown, q[1..]);
        assert q[1..] <= path[1..] ==> q <= path;
      }
    }
  }

  // ---- writing a tree ----

  /** One of the first `n` paths lies at or beneath `q`. */
  predicate Above(q: Path, order: seq<Path>, n: nat)
    requires n <= |order|
  {
    exists i | 0 <= i < n :: q <= order[i]
  }

  /** The directory holds the first `n` paths of the order, and no folder without a reason. */
  ghost predicate Holds(root: Node, tree: Tree, order: seq<Path>, n: nat)
    requires n <= |order|
  {
    && (forall q :: LeafAt(root, q) == if q in order[..n] && q in tree then Some(tree[q]) else None)
    && (forall q | At(root, q).Some? :: q == [] || Above(q, order, n))
  }

  /** Where no names collide, nothing lies at the next path, ... */
  lemma NothingThere(root: Node, tree: Tree, order: seq<Path>, n: nat)
    requires n < |order| && Holds(root, tree, order, n) && NoneBeneath(tree) && forall p | p in order :: p in tree
    requires order[n] != [] && order[n] !in order[..n]
    ensures At(root, order[n]).None?
  {
    forall i | 0 <= i < n ensures !(order[n] <= order[i]) {
      assert order[i] in order && order[n] in order;
      assert order[..n][i] == order[i] && order[i] != order[n];
      assert !ProperPrefix(order[n], order[i]);
    }
  }

  /** ... and no file lies above it. */
  lemma NothingAbove(root: Node, tree: Tree, order: seq<Path>, n: nat, k: nat)
    requires n < |order| && Holds(root, tree, order, n) && NoneBeneath(tree) && forall p | p in order :: p in tree
    requires k < |order[n]|
    ensures LeafAt(root, order[n][..k]).None?
  {
    var above := order[n][..k];
    assert order[n] in tree;
    assert ProperPrefix(above, order[n]);
  }

  lemma NextIsFree(root: Node, tree: Tree, order: seq<Path>, n: nat)
    requires n < |order| && Holds(root, tree, order, n) && NoneBeneath(tree) && forall p | p in order :: p in tree
    requires order[n] != [] && order[n] !in order[..n]
    ensures Free(root, order[n])
  {
    NothingThere(root, tree, order, n);
    forall k: nat | k < |order[n]| ensures LeafAt(root, order[n][..k]).None? {
      NothingAbove(root, tree, order, n, k);
    }
  }

  lemma InsertHolds(root: Node, tree: Tree, order: seq<Path>, n: nat)
    requires n < |order| && Holds(root, tree, order, n) && order[n] != [] && order[n] in tree
    requires Insert(root, order[n], tree[order[n]]).Some?
    ensures Holds(Insert(root, order[n], tree[order[n]]).value, tree, order, n + 1)
  {
    var after := Insert(root, order[n], tree[order[n]]).value;
    assert order[..n + 1] == order[..n] + [order[n]];
    forall q ensures LeafAt(after, q) == if q in order[..n + 1] && q in tree then Some(tree[q]) else None {
      InsertAdds(root, order[n], tree[order[n]], q);
    }
    forall q | At(after, q).Some? ensures q == [] || Above(q, order, n + 1) {
      InsertAdds(root, order[n], tree[order[n]], q);
    }
  }

  /** Writes the entries in order into a new directory. */
  method Materialize(tree: Tree, order: seq<Path>, fold: Fold) returns (r: Option<Node>)
    requires (forall p :: p in order <==> p in tree) && [] !in tree
    requires forall i, k | 0 <= i < k < |order| :: order[i] != order[k]
    ensures r.Some? <==> NoCollisions(tree, fold) && ValidLinks(tree)
    ensures r.Some? ==> r.value.Dir? && forall q :: LeafAt(r.value, q) == if q in tree then Some(tree[q]) else None
  {
    var distinct := EnsureNoCollisions(tree, order, fold);
    if !distinct || !ValidLinks(tree) {
      return None;
    }
    var root := Dir(map[]);
    var n := 0;
    while n < |order|
      invariant 0 <= n <= |order| && root.Dir?
      invariant Holds(root, tree, order, n)
    {
      NextIsFree(root, tree, order, n);
      InsertSucceeds(root, order[n], tree[order[n]]);
      InsertHolds(root, tree, order, n);
      root := Insert(root, order[n], tree[order[n]]).value;
      n := n + 1;
    }
    assert order[..n] == order;
    return Some(root);
  }

  // ---- collecting a directory ----

  /** A path the collection reports: outside the version control folder, and nothing on the way to it is left out. */
  predicate Collected(p: Path, from: nat, leaveOut: Path -> bool) {
    p != [] && p[0] != ".git" && forall i | from < i <= |p| :: !leaveOut(p[..i])
  }

  /** What the collection finds beneath `prefix`, in the children already visited. */
  ghost predicate Found(entries: Tree, node: Node, prefix: Path, names: set<string>, leaveOut: Path -> bool) {
    forall p :: (p in entries <==>
                  && ProperPrefix(prefix, p) && p[|prefix|] in names && Collected(p, |prefix|, leaveOut)
                  && LeafAt(node, p[|prefix|..]).Some?)
                && (p in entries ==> entries[p] == LeafAt(node, p[|prefix|..]).value)
  }

  method Visit(node: Node, prefix: Path, leaveOut: Path -> bool) returns (entries: Tree)
    requires node.Dir? && (prefix != [] ==> prefix[0] != ".git")
    ensures Found(entries, node, prefix, node.children.Keys, leaveOut)
    decreases node
  {
    entries := map[];
    var todo := node.children.Keys;
    while todo != {}
      invariant todo <= node.children.Keys
      invariant Found(entries, node, prefix, node.children.Keys - todo, leaveOut)
      decreases |todo|
    {
      var name :| name in todo;
      var path := prefix + [name];
      var child := node.children[name];
      var found: Tree := map[];
      if (prefix == [] && name == ".git") || leaveOut(path) {
        LeftOut(node, prefix, name, leaveOut);
      } else if child.Dir? {
        found := Visit(child, path, leaveOut);
        Deeper(found, node, prefix, name, leaveOut);
      } else {
        found := map[path := child.entry];
        Plain(node, prefix, name, leaveOut);
      }
      Merged(entries, found, node, prefix, node.children.Keys - todo, name, leaveOut);
      entries := entries + found;
      assert node.children.Keys - todo + {name} == node.children.Keys - (todo - {name});
      todo := todo - {name};
    }
    assert node.children.Keys - todo == node.children.Keys;
  }

  lemma LeftOut(node: Node, prefix: Path, name: string, leaveOut: Path -> bool)
    requires node.Dir? && ((prefix == [] && name == ".git") || leaveOut(prefix + [name]))
    ensures Found(map[], node, prefix, {name}, leaveOut)
  {
    forall p | ProperPrefix(prefix, p) && p[|prefix|] == name ensures !Collected(p, |prefix|, leaveOut) {
      assert p[..|prefix| + 1] == prefix + [name];
    }
  }

  lemma Plain(node: Node, prefix: Path, name: string, leaveOut: Path -> bool)
    requires node.Dir? && name in node.children && node.children[name].Leaf? && !leaveOut(prefix + [name])
    requires (prefix != [] ==> prefix[0] != ".git") && !(prefix == [] && name == ".git")
    ensures Found(map[prefix + [name] := node.children[name].entry], node, prefix, {name}, leaveOut)
  {
    var path := prefix + [name];
    forall p | ProperPrefix(prefix, p) && p[|prefix|] == name
      ensures LeafAt(node, p[|prefix|..]).Some? <==> p == path
    {
      BelowLeaf(node, prefix, name, p);
    }
    assert path[|prefix|..] == [name];
    assert [name][1..] == [];
    assert At(node, [name]) == At(node.children[name], []);
    assert ProperPrefix(prefix, path);
    forall i | |prefix| < i <= |path| ensures !leaveOut(path[..i]) {
      assert path[..i] == path;
    }
  }

  lemma BelowLeaf(node: Node, prefix: Path, name: string, p: Path)
    requires node.Dir? && name in node.children && node.children[name].Leaf?
    requires ProperPrefix(prefix, p) && p[|prefix|] == name
    ensures LeafAt(node, p[|prefix|..]).Some? <==> p == prefix + [name]
  {
    var rest := p[|prefix|..];
    assert p == prefix + rest;
    HeadTail(rest);
    assert At(node, rest) == At(node.children[name], rest[1..]);
  }

  lemma Deeper(found: Tree, node: Node, prefix: Path, name: string, leaveOut: Path -> bool)
    requires node.Dir? && name in node.children && node.children[name].Dir? && !leaveOut(prefix + [name])
    requires Found(found, node.children[name], prefix + [name], node.children[name].children.Keys, leaveOut)
    ensures Found(found, node, prefix, {name}, leaveOut)
  {
    var path, child := prefix + [name], node.children[name];
    forall p ensures (p in found <==>
                       && ProperPrefix(prefix, p) && p[|prefix|] in {name} && Collected(p, |prefix|, leaveOut)
                       && LeafAt(node, p[|prefix|..]).Some?)
                     && (p in found ==> found[p] == LeafAt(node, p[|prefix|..]).value)
    {
      if ProperPrefix(prefix, p) && p[|prefix|] == name {
        assert p[..|path|] == path;
        assert p[|prefix|..][1..] == p[|path|..];
        assert LeafAt(node, p[|prefix|..]) == LeafAt(child, p[|path|..]);
        if |p| > |path| {
          assert ProperPrefix(path, p);
          assert Collected(p, |prefix|, leaveOut) <==> Collected(p, |path|, leaveOut);
          BelowDir(child, p[|path|..]);
        } else {
          assert p[|path|..] == [];
        }
      }
    }
  }

  lemma BelowDir(node: Node, rest: Path)
    requires node.Dir? && rest != []
    ensures LeafAt(node, rest).Some? ==> rest[0] in node.children
  {
  }

  lemma Merged(entries: Tree, found: Tree, node: Node, prefix: Path, names: set<string>, name: string,
               leaveOut: Path -> bool)
    requires Found(entries, node, prefix, names, leaveOut) && Found(found, node, prefix, {name}, leaveOut)
             && name !in names
    ensures Found(entries + found, node, prefix, names + {name}, leaveOut)
  {
  }

  /** The entries are exactly what the collection reports of this directory. */
  ghost predicate Reports(entries: Tree, root: Node, leaveOut: Path -> bool) {
    forall p :: (p in entries <==> Collected(p, 0, leaveOut) && LeafAt(root, p).Some?)
                && (p in entries ==> entries[p] == LeafAt(root, p).value)
  }

  lemma OneReport(a: Tree, b: Tree, root: Node, leaveOut: Path -> bool)
    requires Reports(a, root, leaveOut) && Reports(b, root, leaveOut)
    ensures a == b
  {
    forall p ensures p in a <==> p in b {
    }
    forall p | p in a ensures a[p] == b[p] {
    }
  }

  /** The directory as a tree, if its names do not collide and its links stay inside. */
  method CollectTree(root: Node, leaveOut: Path -> bool, fold: Fold) returns (r: Option<Tree>)
    requires root.Dir?
    ensures r.Some? ==> Reports(r.value, root, leaveOut) && NoCollisions(r.value, fold) && ValidLinks(r.value)
    ensures forall t :: Reports(t, root, leaveOut) && NoCollisions(t, fold) && ValidLinks(t) ==> r == Some(t)
  {
    var entries := Visit(root, [], leaveOut);
    VisitReports(entries, root, leaveOut);
    forall t | Reports(t, root, leaveOut) ensures t == entries {
      OneReport(t, entries, root, leaveOut);
    }
    var order := ListPaths(entries);
    var distinct := EnsureNoCollisions(entries, order, fold);
    r := if distinct && ValidLinks(entries) then Some(entries) else None;
  }

  lemma VisitReports(entries: Tree, root: Node, leaveOut: Path -> bool)
    requires root.Dir? && Found(entries, root, [], root.children.Keys, leaveOut)
    ensures Reports(entries, root, leaveOut)
  {
    forall p ensures (p in entries <==> Collected(p, 0, leaveOut) && LeafAt(root, p).Some?)
                     && (p in entries ==> entries[p] == LeafAt(root, p).value)
    {
      assert p[0..] == p;
      if p != [] {
        BelowDir(root, p);
      }
    }
  }

  /** Writing a tree, initialising version control in it and collecting it gives the same tree. */
  method RoundTrip(tree: Tree, order: seq<Path>, fold: Fold, git: Node, leaveOut: Path -> bool)
    returns (r: Option<Tree>)
    requires (forall p :: p in order <==> p in tree) && forall i, k | 0 <= i < k < |order| :: order[i] != order[k]
    requires forall p | p in tree :: Collected(p, 0, leaveOut)
    ensures r == if NoCollisions(tree, fold) && ValidLinks(tree) then Some(tree) else None
  {
    var root := Materialize(tree, order, fold);
    if root.None? {
      return None;
    }
    var initialised := Dir(root.value.children[".git" := git]);
    r := CollectTree(initialised, leaveOut, fold);
    forall p ensures p != [] && p[0] != ".git" ==> LeafAt(initialised, p) == LeafAt(root.value, p) {
      BesideGit(root.value, git, p);
    }
    assert Reports(tree, initialised, leaveOut);
  }

  lemma BesideGit(root: Node, git: Node, p: Path)
    requires root.Dir?
    ensures p != [] && p[0] != ".git" ==> LeafAt(Dir(root.children[".git" := git]), p) == LeafAt(root, p)
  {
  }
}
