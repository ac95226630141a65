/** Path-keyed trees: what a path, an entry and a path policy are, and which trees a file system can hold. */
module TreePaths {
  import opened Outcomes

  /** A path is its parts; the root is the empty sequence. */
  type Path = seq<string>

  datatype Entry = File(executable: bool, content: seq<nat>) | Link(target: string)

  type Tree = map<Path, Entry>

  predicate ProperPrefix(a: Path, b: Path) {
    |a| < |b| && a == b[..|a|]
  }

  /** Folds the case and the normal form of a path; two paths with one image are one file on some systems. */
  type Fold = Path -> Path

  /** Some entry lies at or beneath `a`. */
  predicate IsPrefix(tree: Tree, a: Path) {
    a != [] && exists p | p in tree :: a <= p
  }

  /** The proper, non-empty prefixes of the entries are the directories. */
  predicate IsDirectory(tree: Tree, a: Path) {
    a != [] && exists p | p in tree :: ProperPrefix(a, p)
  }

  /** No entry lies beneath another. */
  predicate NoneBeneath(tree: Tree) {
    forall p, q | p in tree && q in tree :: !ProperPrefix(p, q)
  }

  /** No two prefixes fold to the same name, and no entry lies beneath another. */
  ghost predicate NoCollisions(tree: Tree, fold: Fold) {
    && (forall a, b | IsPrefix(tree, a) && IsPrefix(tree, b) && fold(a) == fold(b) :: a == b)
    && NoneBeneath(tree)
  }

  // ---- the check, path by path and prefix by prefix ----

  /** `a` is one of the first `count` prefixes of `path`. */
  predicate AmongPrefixes(a: Path, path: Path, count: nat) {
    1 <= |a| <= count && a <= path
  }

  /** `a` is a prefix of one of the first `n` paths, or one of the first `count` prefixes of the next. */
  predicate Visited(order: seq<Path>, n: nat, count: nat, a: Path)
    requires n <= |order|
  {
    || (a != [] && exists i | 0 <= i < n :: a <= order[i])
    || (n < |order| && AmongPrefixes(a, order[n], count))
  }

  /** The table maps every folded prefix seen so far to that prefix. */
  ghost predicate Remembers(seen: map<Path, Path>, fold: Fold, order: seq<Path>, n: nat, count: nat)
    requires n <= |order|
  {
    && (forall a | Visited(order, n, count, a) :: fold(a) in seen && seen[fold(a)] == a)
    && (forall k | k in seen :: Visited(order, n, count, seen[k]) && fold(seen[k]) == k)
  }

  method EnsureNoCollisions(tree: Tree, order: seq<Path>, fold: Fold) returns (ok: bool)
    requires forall p :: p in order <==> p in tree
    ensures ok <==> NoCollisions(tree, fold)
  {
    var seen: map<Path, Path> := map[];
    var n := 0;
    while n < |order|
      invariant 0 <= n <= |order|
      invariant Remembers(seen, fold, order, n, 0)
      invariant forall i, q | 0 <= i < n && q in tree :: !ProperPrefix(q, order[i])
    {
      var path := order[n];
      ok, seen := SeePrefixes(tree, order, fold, seen, n);
      if !ok {
        return;
      }
      if exists q | q in tree :: ProperPrefix(q, path) {
        return false;
      }
      PathDone(order, n);
      n := n + 1;
    }
    AllSeen(tree, order, fold, seen);
    return true;
  }

  /** The prefixes of one path enter the table, or one of them clashes with a name in it. */
  method SeePrefixes(tree: Tree, order: seq<Path>, fold: Fold, before: map<Path, Path>, n: nat)
    returns (ok: bool, seen: map<Path, Path>)
    requires (forall p :: p in order <==> p in tree) && n < |order| && Remembers(before, fold, order, n, 0)
    ensures ok ==> Remembers(seen, fold, order, n, |order[n]|)
    ensures !ok ==> !NoCollisions(tree, fold)
  {
    seen := before;
    var count := 1;
    while count <= |order[n]|
      invariant 1 <= count <= |order[n]| + 1
      invariant Remembers(seen, fold, order, n, count - 1)
    {
      var part := order[n][..count];
      if fold(part) in seen && seen[fold(part)] != part {
        Clash(tree, order, fold, seen, n, count);
        return false, seen;
      }
      Remembered(seen, fold, order, n, count);
      seen := seen[fold(part) := part];
      count := count + 1;
    }
    return true, seen;
  }

  lemma Clash(tree: Tree, order: seq<Path>, fold: Fold, seen: map<Path, Path>, n: nat, count: nat)
    requires forall p :: p in order <==> p in tree
    requires n < |order| && 1 <= count <= |order[n]| && Remembers(seen, fold, order, n, count - 1)
    requires fold(order[n][..count]) in seen && seen[fold(order[n][..count])] != order[n][..count]
    ensures !NoCollisions(tree, fold)
  {
    var a, b := order[n][..count], seen[fold(order[n][..count])];
    assert order[n] in tree;
    assert IsPrefix(tree, a);
    assert Visited(order, n, count - 1, b);
    if exists i | 0 <= i < n :: b <= order[i] {
      var i :| 0 <= i < n && b <= order[i];
      assert order[i] in tree;
    }
    assert IsPrefix(tree, b);
  }

  /** One more prefix is visited, and nothing else. */
  lemma Remembered(seen: map<Path, Path>, fold: Fold, order: seq<Path>, n: nat, count: nat)
    requires n < |order| && 1 <= count <= |order[n]| && Remembers(seen, fold, order, n, count - 1)
    requires fold(order[n][..count]) in seen ==> seen[fold(order[n][..count])] == order[n][..count]
    ensures Remembers(seen[fold(order[n][..count]) := order[n][..count]], fold, order, n, count)
  {
    var part := order[n][..count];
    forall a ensures Visited(order, n, count, a) <==> Visited(order, n, count - 1, a) || a == part {
    }
  }

  lemma PathDone(order: seq<Path>, n: nat)
    requires n < |order|
    ensures forall a :: Visited(order, n, |order[n]|, a) <==> Visited(order, n + 1, 0, a)
  {
  }

  lemma AllSeen(tree: Tree, order: seq<Path>, fold: Fold, seen: map<Path, Path>)
    requires forall p :: p in order <==> p in tree
    requires Remembers(seen, fold, order, |order|, 0)
    requires forall i, q | 0 <= i < |order| && q in tree :: !ProperPrefix(q, order[i])
    ensures NoCollisions(tree, fold)
  {
    forall a | IsPrefix(tree, a) ensures Visited(order, |order|, 0, a) {
      var p :| p in tree && a <= p;
      assert p in order;
    }
    forall p, q | p in tree && q in tree ensures !ProperPrefix(p, q) {
      assert q in order;
    }
  }

  method ListPaths(tree: Tree) returns (listed: seq<Path>)
    ensures forall p :: p in listed <==> p in tree
  {
    listed := [];
    var todo := tree.Keys;
    while todo != {}
      invariant todo <= tree.Keys
      invariant forall p :: p in listed <==> p in tree.Keys - todo
      decreases |todo|
    {
      var p :| p in todo;
      listed := listed + [p];
      todo := todo - {p};
    }
  }

  // ---- path policies ----

  /** A rule is the whole tree, or a pattern of parts. */
  datatype Rule = Everything | Pattern(parts: Path)

  /** `glob` is the shell-style match of a path, or of a single part, against a pattern. */
  type Glob = (Path, Path) -> bool

  datatype Policy = Policy(readable: seq<Rule>, writable: seq<Rule>, excluded: seq<Rule>, isProtected: string -> bool,
                           isReservedTop: string -> bool)

  predicate Matches(path: Path, rule: Rule, anyPart: bool, glob: Glob) {
    match rule
    case Everything => true
    case Pattern(parts) =>
      || parts <= path || glob(path, parts)
      || (anyPart && |parts| == 1 && exists i | 0 <= i < |path| :: glob([path[i]], parts))
  }

  datatype Operation = Read | Write

  /** Whether the policy lets the modification read or write this path. `isReservedTop` marks hook and skill folders. */
  predicate PolicyAllows(path: Path, policy: Policy, operation: Operation, glob: Glob) {
    && (forall i | 0 <= i < |path| :: !policy.isProtected(path[i]))
    && (path != [] ==> !policy.isReservedTop(path[0]))
    && (forall i | 0 <= i < |policy.excluded| :: !Matches(path, policy.excluded[i], true, glob))
    && (exists i | 0 <= i < |policy.readable| :: Matches(path, policy.readable[i], false, glob))
    && (operation == Read || exists i | 0 <= i < |policy.writable| :: Matches(path, policy.writable[i], false, glob))
  }

  lemma WritableIsReadable(path: Path, policy: Policy, glob: Glob)
    ensures PolicyAllows(path, policy, Write, glob) ==> PolicyAllows(path, policy, Read, glob)
  {
  }
}
