/** Freezing what a modification did to a working copy, and committing it. */
module Workspace {
  import opened Outcomes
  import opened TreePaths
  import opened TreeLinks

  /** The parameters a workspace is checked with. `generated` marks the paths that checks may create,
      `reserved` the top folders the product keeps to itself. */
  datatype Rules = Rules(policy: Policy, glob: Glob, fold: Fold, generated: Path -> bool, reserved: string -> bool)
  {
    predicate Readable(p: Path) {
      PolicyAllows(p, policy, Read, glob)
    }

    predicate Writable(p: Path) {
      PolicyAllows(p, policy, Write, glob) && (p != [] ==> !reserved(p[0]))
    }
  }

  function Get(tree: Tree, p: Path): Option<Entry> {
    if p in tree then Some(tree[p]) else None
  }

  /** What the policy lets the modification see of a tree. */
  function Projection(tree: Tree, rules: Rules): Tree {
    map p | p in tree && rules.Readable(p) :: tree[p]
  }

  /** The digest of a tree, taken to be injective. */
  datatype Digest = Digest(tree: Tree)

  datatype Frozen = Frozen(candidate: Tree, digest: Digest, changed: seq<Path>)

  predicate IsLinkEntry(entry: Option<Entry>) {
    entry.Some? && entry.value.Link?
  }

  /** The working copy differs from what was handed out. */
  predicate Differs(baseline: Tree, current: Tree, rules: Rules, p: Path) {
    Get(Projection(baseline, rules), p) != Get(current, p)
  }

  /** The difference at this path may be kept. */
  predicate Permitted(baseline: Tree, current: Tree, rules: Rules, p: Path) {
    Differs(baseline, current, rules, p) ==>
      && rules.Writable(p)
      && !IsLinkEntry(Get(Projection(baseline, rules), p)) && !IsLinkEntry(Get(current, p))
  }

  /** The baseline with every readable path as the working copy has it. */
  ghost predicate Overlays(candidate: Tree, baseline: Tree, current: Tree, rules: Rules) {
    forall p :: Get(candidate, p) == if rules.Readable(p) then Get(current, p) else Get(baseline, p)
  }

  /** Freezing succeeds only on the preserved baseline, without generated paths in it, where every difference is
      permitted. */
  predicate Freezable(baseline: Tree, expected: Digest, current: Tree, rules: Rules) {
    && Digest(baseline) == expected
    && (forall p | p in baseline :: !rules.generated(p))
    && (forall p | p in baseline.Keys + current.Keys :: Permitted(baseline, current, rules, p))
  }

  /** Applies the first `n` differences in order. */
  ghost predicate Applied(candidate: Tree, changed: seq<Path>, baseline: Tree, current: Tree, rules: Rules,
                          order: seq<Path>, n: nat)
    requires n <= |order|
  {
    && (forall p | p in order[..n] :: Permitted(baseline, current, rules, p))
    && (forall p :: Get(candidate, p) ==
                    if p in order[..n] && Differs(baseline, current, rules, p) then Get(current, p)
                      else Get(baseline, p))
    && (forall p :: p in changed <==> p in order[..n] && Differs(baseline, current, rules, p))
  }

  /** `order` lists the paths of both sides without repetition. */
  predicate Lists(order: seq<Path>, baseline: Tree, current: Tree, rules: Rules) {
    && (forall i, k | 0 <= i < k < |order| :: order[i] != order[k])
    && (forall p | p in order :: p in Projection(baseline, rules) || p in current)
    && (forall p | p in Projection(baseline, rules) :: p in order)
    && (forall p | p in current :: p in order)
  }

  /** Walks through the paths in order and takes over every difference, or stops at the first that is not permitted. */
  method ApplyChanges(baseline: Tree, current: Tree, rules: Rules, order: seq<Path>)
    returns (ok: bool, candidate: Tree, changed: seq<Path>)
    requires Lists(order, baseline, current, rules)
    ensures ok ==> Applied(candidate, changed, baseline, current, rules, order, |order|)
    ensures !ok ==> exists p | p in order :: !Permitted(baseline, current, rules, p)
  {
    var projected := Projection(baseline, rules);
    candidate, changed := baseline, [];
    var n := 0;
    while n < |order|
      invariant 0 <= n <= |order|
      invariant Applied(candidate, changed, baseline, current, rules, order, n)
    {
      var p := order[n];
      var before, after := Get(projected, p), Get(current, p);
      if before != after && (!rules.Writable(p) || IsLinkEntry(before) || IsLinkEntry(after)) {
        assert !Permitted(baseline, current, rules, p);
        return false, candidate, changed;
      }
      if before == after {
        SkippedOne(candidate, changed, baseline, current, rules, order, n);
      } else {
        TakenOne(candidate, changed, baseline, current, rules, order, n);
        changed := changed + [p];
        candidate := if after.None? then candidate - {p} else candidate[p := after.value];
      }
      n := n + 1;
    }
    return true, candidate, changed;
  }

  function With(tree: Tree, p: Path, entry: Option<Entry>): Tree {
    if entry.None? then tree - {p} else tree[p := entry.value]
  }

  lemma SkippedOne(candidate: Tree, changed: seq<Path>, baseline: Tree, current: Tree, rules: Rules, order: seq<Path>,
                   n: nat)
    requires n < |order| && Applied(candidate, changed, baseline, current, rules, order, n)
    requires Permitted(baseline, current, rules, order[n]) && !Differs(baseline, current, rules, order[n])
    ensures Applied(candidate, changed, baseline, current, rules, order, n + 1)
  {
    hide Differs, Permitted;
    assert order[..n + 1] == order[..n] + [order[n]];
  }

  lemma TakenOne(candidate: Tree, changed: seq<Path>, baseline: Tree, current: Tree, rules: Rules, order: seq<Path>,
                 n: nat)
    requires n < |order| && Applied(candidate, changed, baseline, current, rules, order, n)
    requires Permitted(baseline, current, rules, order[n]) && Differs(baseline, current, rules, order[n])
    ensures Applied(With(candidate, order[n], Get(current, order[n])), changed + [order[n]], baseline, current, rules,
                    order, n + 1)
  {
    hide Differs, Permitted;
    assert order[..n + 1] == order[..n] + [order[n]];
  }

  method FreezeCandidate(baseline: Tree, expected: Digest, current: Tree, rules: Rules, order: seq<Path>)
    returns (r: Result<Frozen>)
    requires Lists(order, baseline, current, rules)
    ensures r.Ok? ==>
              && Overlays(r.value.candidate, baseline, current, rules)
              && r.value.digest == Digest(r.value.candidate)
              && (forall p :: p in r.value.changed <==> Get(baseline, p) != Get(r.value.candidate, p))
    ensures r.Ok? <==>
              && Freezable(baseline, expected, current, rules)
              && exists t :: Overlays(t, baseline, current, rules) && NoCollisions(t, rules.fold) && ValidLinks(t)
  {
    if Digest(baseline) != expected || exists p | p in baseline :: rules.generated(p) {
      return Err(BASE_CHANGED);
    }
    var ok, candidate, changed := ApplyChanges(baseline, current, rules, order);
    if !ok {
      return Err(SNAPSHOT_CHANGED);
    }
    AppliedOverlays(candidate, changed, baseline, current, rules, order);
    OnlyOverlay(candidate, baseline, current, rules);
    var listed := ListPaths(candidate);
    var distinct := EnsureNoCollisions(candidate, listed, rules.fold);
    if !distinct || !ValidLinks(candidate) {
      return Err(SNAPSHOT_CHANGED);
    }
    return Ok(Frozen(candidate, Digest(candidate), changed));
  }

  lemma AppliedOverlays(candidate: Tree, changed: seq<Path>, baseline: Tree, current: Tree, rules: Rules,
                        order: seq<Path>)
    requires Lists(order, baseline, current, rules)
    requires Applied(candidate, changed, baseline, current, rules, order, |order|)
    ensures Overlays(candidate, baseline, current, rules)
    ensures forall p | p in baseline.Keys + current.Keys :: Permitted(baseline, current, rules, p)
    ensures forall p :: p in changed <==> Get(baseline, p) != Get(candidate, p)
  {
    assert order[..|order|] == order;
    forall p ensures Get(candidate, p) == if rules.Readable(p) then Get(current, p) else Get(baseline, p) {
      WritableIsReadable(p, rules.policy, rules.glob);
    }
    forall p ensures p in changed <==> Get(baseline, p) != Get(candidate, p) {
      WritableIsReadable(p, rules.policy, rules.glob);
    }
  }

  /** There is one overlay only. */
  lemma OnlyOverlay(candidate: Tree, baseline: Tree, current: Tree, rules: Rules)
    requires Overlays(candidate, baseline, current, rules)
    ensures forall t :: Overlays(t, baseline, current, rules) ==> t == candidate
  {
    forall t: Tree | Overlays(t, baseline, current, rules) ensures t == candidate {
      forall p ensures p in t <==> p in candidate {
        assert Get(t, p) == Get(candidate, p);
      }
      forall p | p in t ensures t[p] == candidate[p] {
        assert Get(t, p) == Get(candidate, p);
      }
    }
  }

  /** What a frozen candidate is, in terms of what the modification saw and did: unreadable paths keep their
      baseline entry, the readable part is exactly the working copy, and every change was writable and no link. */
  lemma FrozenIsOverlay(baseline: Tree, expected: Digest, current: Tree, rules: Rules, candidate: Tree)
    requires Freezable(baseline, expected, current, rules) && Overlays(candidate, baseline, current, rules)
    ensures Projection(candidate, rules) == current
    ensures forall p | !rules.Readable(p) :: Get(candidate, p) == Get(baseline, p)
    ensures forall p | Get(candidate, p) != Get(baseline, p) ::
              rules.Writable(p) && !IsLinkEntry(Get(candidate, p)) && !IsLinkEntry(Get(baseline, p))
  {
    forall p ensures Get(Projection(candidate, rules), p) == Get(current, p) {
      WritableIsReadable(p, rules.policy, rules.glob);
      if p in current {
        assert Permitted(baseline, current, rules, p);
      }
    }
    assert forall p :: p in Projection(candidate, rules) <==> Get(Projection(candidate, rules), p).Some?;
    assert forall p :: p in current <==> Get(current, p).Some?;
    forall p | p in current ensures Projection(candidate, rules)[p] == current[p] {
      assert Get(Projection(candidate, rules), p) == Get(current, p);
    }
    forall p | Get(candidate, p) != Get(baseline, p)
      ensures rules.Writable(p) && !IsLinkEntry(Get(candidate, p)) && !IsLinkEntry(Get(baseline, p))
    {
      assert rules.Readable(p);
      assert Permitted(baseline, current, rules, p);
    }
  }

  /** The tree of the commit: the readable part of the frozen candidate, unless the copy was changed since. `onBranch`
      says that the copy still is on its own branch, at the commit it started from. */
  method CommitCandidate(collected: Tree, frozen: Frozen, rules: Rules, onBranch: bool) returns (r: Result<Tree>)
    ensures r.Ok? <==> Digest(collected) == frozen.digest && onBranch
    ensures r.Err? ==> r.error == if Digest(collected) != frozen.digest then SNAPSHOT_CHANGED
            else WORKSPACE_BRANCH_CHANGED
    ensures r.Ok? ==> forall p :: Get(r.value, p) == if rules.Readable(p) then Get(collected, p) else None
  {
    if Digest(collected) != frozen.digest {
      return Err(SNAPSHOT_CHANGED);
    }
    if !onBranch {
      return Err(WORKSPACE_BRANCH_CHANGED);
    }
    r := Ok(Projection(collected, rules));
  }

  /** What is committed is what the modification left in its working copy, byte for byte. */
  method FreezeAndCommit(baseline: Tree, expected: Digest, current: Tree, rules: Rules, order: seq<Path>,
                         collected: Tree, onBranch: bool)
    returns (committed: Result<Tree>)
    requires Lists(order, baseline, current, rules)
    ensures committed.Ok? ==> committed.value == current
  {
    var frozen := FreezeCandidate(baseline, expected, current, rules, order);
    if frozen.Err? {
      return Err(frozen.error);
    }
    FrozenIsOverlay(baseline, expected, current, rules, frozen.value.candidate);
    committed := CommitCandidate(collected, frozen.value, rules, onBranch);
    if committed.Ok? {
      ProjectionIs(committed.value, collected, rules);
    }
  }

  lemma ProjectionIs(t: Tree, tree: Tree, rules: Rules)
    requires forall p :: Get(t, p) == if rules.Readable(p) then Get(tree, p) else None
    ensures t == Projection(tree, rules)
  {
    forall p ensures p in t <==> p in Projection(tree, rules) {
      assert Get(t, p) == if rules.Readable(p) then Get(tree, p) else None;
    }
    forall p | p in t ensures t[p] == Projection(tree, rules)[p] {
      assert Get(t, p) == Get(tree, p);
    }
  }
}
