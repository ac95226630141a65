/** The second half of a run: freezing the candidate, checking it, sealing and committing it. */
module Pipeline {
  // The folders may be changed by anybody at any time, so every look at one is an input of its own.

  import opened Outcomes
  import opened TreePaths
  import opened TreeLinks
  import opened Workspace
  import Evidence
  import Runs = RunSteps

  type Id = nat

  datatype Command = Command(id: Id, required: bool)

  /** One check command as it went: the lease, the folder before and after, the report and the verdict. */
  datatype Attempt = Attempt(alive: bool, before: Digest, reportFresh: bool, after: Digest, verdict: Evidence.Verdict)

  datatype CheckRow = CheckRow(id: Id, required: bool, tree: Digest, verdict: Evidence.Verdict)

  /** The attempt counts: the lease held, the report was fresh and the folder was the expected tree throughout. */
  predicate Clean(attempt: Attempt, expected: Digest) {
    attempt.alive && attempt.before == expected && attempt.reportFresh && attempt.after == expected
  }

  /** Runs all commands on one folder and records what each did to the expected tree. */
  method CheckPhase(commands: seq<Command>, expected: Digest, attempts: seq<Attempt>, isBaseline: bool)
    returns (r: Result<seq<CheckRow>>)
    requires |attempts| == |commands|
    ensures r.Ok? <==> forall i | 0 <= i < |attempts| ::
              && Clean(attempts[i], expected)
              && (isBaseline ==> attempts[i].verdict == Evidence.PASS || attempts[i].verdict == Evidence.FAIL)
    ensures r.Ok? ==> |r.value| == |commands| && forall i | 0 <= i < |commands| ::
              r.value[i] == CheckRow(commands[i].id, commands[i].required, attempts[i].after, attempts[i].verdict)
  {
    var rows := [];
    var i := 0;
    while i < |commands|
      invariant 0 <= i <= |commands| && |rows| == i
      invariant forall k | 0 <= k < i ::
        && Clean(attempts[k], expected)
        && (isBaseline ==> attempts[k].verdict == Evidence.PASS || attempts[k].verdict == Evidence.FAIL)
      invariant forall k | 0 <= k < i ::
        rows[k] == CheckRow(commands[k].id, commands[k].required, attempts[k].after, attempts[k].verdict)
    {
      var attempt := attempts[i];
      if !attempt.alive {
        return Err(WORKER_LEASE_REQUIRED);
      }
      if attempt.before != expected || !attempt.reportFresh || attempt.after != expected {
        return Err(SNAPSHOT_CHANGED);
      }
      rows := rows + [CheckRow(commands[i].id, commands[i].required, expected, attempt.verdict)];
      if isBaseline && attempt.verdict != Evidence.PASS && attempt.verdict != Evidence.FAIL {
        return Err(CHECKS_INCOMPLETE);
      }
      i := i + 1;
    }
    return Ok(rows);
  }

  // ---- sealing ----

  datatype Change = ADD | DELETE | MODIFY

  /** One row of the list of changes, with the entry of either side. */
  datatype ChangedFile = ChangedFile(path: Path, change: Change, before: Option<Entry>, after: Option<Entry>)

  /** The row that lists a path, where the two trees differ. */
  function RowAt(before: Tree, after: Tree, p: Path): Option<ChangedFile> {
    if Get(before, p) == Get(after, p) then None
    else
      var change := if p !in before then ADD else if p !in after then DELETE else MODIFY;
      Some(ChangedFile(p, change, Get(before, p), Get(after, p)))
  }

  /** Lists every path where the trees differ, once, and no other. */
  method ChangedRows(before: Tree, after: Tree, order: seq<Path>) returns (rows: seq<ChangedFile>)
    requires (forall p :: p in order <==> p in before || p in after) && forall i, k | 0 <= i < k < |order| ::
             order[i] != order[k]
    ensures forall row :: row in rows <==> RowAt(before, after, row.path) == Some(row)
    ensures forall i, k | 0 <= i < k < |rows| :: rows[i].path != rows[k].path
  {
    rows := [];
    var i := 0;
    while i < |order|
      invariant 0 <= i <= |order|
      invariant forall row :: row in rows <==> row.path in order[..i] && RowAt(before, after, row.path) == Some(row)
      invariant forall k, m | 0 <= k < m < |rows| :: rows[k].path != rows[m].path
    {
      var p := order[i];
      assert order[..i + 1] == order[..i] + [p];
      if Get(before, p) != Get(after, p) {
        forall k | 0 <= k < |rows| ensures rows[k].path != p {
          assert rows[k] in rows;
        }
        var change := if p !in before then ADD else if p !in after then DELETE else MODIFY;
        rows := rows + [ChangedFile(p, change, Get(before, p), Get(after, p))];
      }
      i := i + 1;
    }
    assert order[..i] == order;
  }

  /** `small`: patch and changes are within the limits; `secret`: something in them looks like a secret. */
  datatype Bundle = Bundle(result: Digest, complete: bool, normal: bool)

  /** Seals what is in the candidate folder, if that is the tree the checks saw. */
  method SealResult(processesStopped: bool, collected: Tree, checked: Digest, rows: seq<CheckRow>, small: bool,
                    secret: bool)
    returns (r: Result<Bundle>)
    ensures r.Ok? <==> processesStopped && Digest(collected) == checked && forall i | 0 <= i < |rows| ::
            rows[i].tree == checked
    ensures r.Ok? ==> r.value == Bundle(Digest(collected), small, !secret)
  {
    if !processesStopped {
      return Err(PROCESS_TERMINATION_UNCONFIRMED);
    }
    if Digest(collected) != checked {
      return Err(SNAPSHOT_CHANGED);
    }
    var i := 0;
    while i < |rows|
      invariant 0 <= i <= |rows| && forall k | 0 <= k < i :: rows[k].tree == checked
    {
      if rows[i].tree != checked {
        return Err(SNAPSHOT_CHANGED);
      }
      i := i + 1;
    }
    return Ok(Bundle(Digest(collected), small, !secret));
  }

  // ---- the run ----

  /** Everything the second half of a run looks at: the copies, the attempts, the processes when the checks were done,
      the folders afterwards, the contents to be sealed and what is to be committed. */
  datatype Looks = Looks(
    baseline: Tree, expectedBaseline: Digest, current: Tree, attempts: seq<Attempt>, aliveAfter: bool,
    processes: seq<Runs.Process>, checksFolder: Digest, originalSame: bool,
    collected: Tree, small: bool, secret: bool, committable: Tree, onBranch: bool)

  /** The candidate that freezing the working copy leaves. */
  ghost predicate Freezes(tree: Tree, rules: Rules, looks: Looks) {
    && Freezable(looks.baseline, looks.expectedBaseline, looks.current, rules)
    && Overlays(tree, looks.baseline, looks.current, rules) && NoCollisions(tree, rules.fold) && ValidLinks(tree)
  }

  /** Every later look was at this very tree, and every required check passed on it. */
  ghost predicate Passes(tree: Tree, commands: seq<Command>, looks: Looks) {
    && |looks.attempts| == |commands|
    && (forall i | 0 <= i < |commands| ::
          Clean(looks.attempts[i], Digest(tree))
            && (commands[i].required ==> looks.attempts[i].verdict == Evidence.PASS))
    && looks.aliveAfter && looks.checksFolder == Digest(tree) && looks.originalSame
    && looks.collected == tree && looks.small && !looks.secret
    && looks.committable == tree && looks.onBranch
  }

  /** The run may end as SUCCEEDED now. */
  ghost predicate MayFinish(
    commands: seq<Command>, rules: Rules, run: Runs.Id, epoch: nat, looks: Looks, book: Runs.Book) {
    && (exists tree :: Freezes(tree, rules, looks) && Passes(tree, commands, looks))
    && !Runs.Unfinished(looks.processes, run, true)
    && Runs.Transition(book, run, Runs.SUCCEEDED, Some(epoch), None).Ok?
  }

  /** What a successful run leaves behind. */
  datatype Success = Success(frozen: Frozen, rows: seq<CheckRow>, bundle: Bundle, committed: Tree, book: Runs.Book)

  /** The second half of a run; `book` are the tables at its last transaction. */
  method FinishRun(
    commands: seq<Command>, rules: Rules, run: Runs.Id, epoch: nat, looks: Looks, order: seq<Path>, book: Runs.Book)
    returns (r: Result<Success>)
    requires |looks.attempts| == |commands| && Lists(order, looks.baseline, looks.current, rules)
    ensures r.Ok? <==> MayFinish(commands, rules, run, epoch, looks, book)
    ensures r.Ok? ==> Sound(r.value, commands, rules, run, epoch, looks, book)
  {
    hide Freezable, Overlays, NoCollisions, ValidLinks, Runs.Transition, Runs.Unfinished;
    var frozen :- FreezeCandidate(looks.baseline, looks.expectedBaseline, looks.current, rules, order);
    var tree := frozen.candidate;
    OnlyOverlay(tree, looks.baseline, looks.current, rules);
    assert forall t | Freezes(t, rules, looks) :: t == tree;
    assert Freezes(tree, rules, looks);
    var rows :- CheckPhase(commands, frozen.digest, looks.attempts, false);
    if !looks.aliveAfter {
      return Err(WORKER_LEASE_REQUIRED);
    }
    var i := 0;
    while i < |rows|
      invariant 0 <= i <= |rows| && forall k | 0 <= k < i && rows[k].required :: rows[k].verdict == Evidence.PASS
    {
      if rows[i].required && rows[i].verdict != Evidence.PASS {
        return Err(CHECKS_INCOMPLETE);
      }
      i := i + 1;
    }
    if Runs.Unfinished(looks.processes, run, true) {
      return Err(PROCESS_TERMINATION_UNCONFIRMED);
    }
    if looks.checksFolder != frozen.digest {
      return Err(SNAPSHOT_CHANGED);
    }
    if !looks.originalSame {
      return Err(BASE_CHANGED);
    }
    var bundle :- SealResult(true, looks.collected, frozen.digest, rows, looks.small, looks.secret);
    if !bundle.complete || !bundle.normal {
      return Err(RESULT_NOT_PUBLISHABLE);
    }
    var committed :- CommitCandidate(looks.committable, frozen, rules, looks.onBranch);
    assert Passes(tree, commands, looks);
    var after :- Runs.Transition(book, run, Runs.SUCCEEDED, Some(epoch), None);
    FrozenIsOverlay(looks.baseline, looks.expectedBaseline, looks.current, rules, tree);
    ProjectionIs(committed, looks.committable, rules);
    return Ok(Success(frozen, rows, bundle, committed, after));
  }

  /** A run that succeeded rests on one tree: every check saw it before and after, every required check passed on it,
      the bundle was sealed from it, the commit is its readable part and so exactly the working copy. */
  ghost predicate Sound(
    s: Success, commands: seq<Command>, rules: Rules, run: Runs.Id, epoch: nat, looks: Looks, book: Runs.Book) {
    var tree := s.frozen.candidate;
    && Freezes(tree, rules, looks) && Passes(tree, commands, looks)
    && s.frozen.digest == Digest(tree) && s.bundle == Bundle(Digest(tree), true, true) && s.committed == looks.current
    && |s.rows| == |commands|
    && (forall i | 0 <= i < |commands| :: s.rows[i] ==
          CheckRow(commands[i].id, commands[i].required, Digest(tree), looks.attempts[i].verdict))
    && Runs.Transition(book, run, Runs.SUCCEEDED, Some(epoch), None) == Ok(s.book)
  }

  // ---- what SUCCEEDED means, for every run of the run machine ----

  /** A step of the run machine; a run succeeds only by the last statement of the procedure above. */
  datatype Step =
    | Other(step: Runs.Step)
    | FinishStep(j: Id, owner: Id, epoch: nat, commands: seq<Command>, rules: Rules, looks: Looks)

  /** The worker that claimed this job of a run comes to the end of the procedure. */
  ghost predicate Finishes(b: Runs.Book, step: Step) {
    && step.FinishStep? && Runs.WasClaimed(b, step.j, step.owner, step.epoch) && b.jobs[step.j].kind == Runs.RUN_JOB
    && MayFinish(step.commands, step.rules, b.jobs[step.j].subject, step.epoch, step.looks, b)
  }

  ghost function Apply(b: Runs.Book, step: Step): Runs.Book {
    match step
    case Other(other) => if other.ProgressStep? && other.to == Runs.SUCCEEDED then b else Runs.Apply(b, other)
    case FinishStep(j, _, epoch, _, _, _) =>
      if Finishes(b, step) then Runs.Transition(b, b.jobs[j].subject, Runs.SUCCEEDED, Some(epoch), None).value else b
  }

  ghost function Play(b: Runs.Book, steps: seq<Step>): Runs.Book {
    if steps == [] then b else Apply(Play(b, steps[..|steps| - 1]), steps[|steps| - 1])
  }

  /** A finish is the progress of its run to SUCCEEDED; what is refused changes nothing. */
  ghost function AsRunStep(b: Runs.Book, step: Step): Runs.Step {
    match step
    case Other(other) =>
      if other.ProgressStep? && other.to == Runs.SUCCEEDED then Runs.ProcessEndStep(|b.processes|) else other
    case FinishStep(j, owner, epoch, _, _, _) =>
      if Finishes(b, step) then Runs.ProgressStep(j, owner, epoch, Runs.SUCCEEDED, None)
      else Runs.ProcessEndStep(|b.processes|)
  }

  ghost function RunSteps(b: Runs.Book, steps: seq<Step>): (taken: seq<Runs.Step>)
    ensures |taken| == |steps|
  {
    seq(|steps|, i requires 0 <= i < |steps| => AsRunStep(Play(b, steps[..i]), steps[i]))
  }

  lemma StepIsRunStep(b: Runs.Book, step: Step)
    ensures Apply(b, step) == Runs.Apply(b, AsRunStep(b, step))
  {
    hide Freezes, Passes, Runs.Transition;
  }

  /** Every run of this machine is one of the run machine, so what is proved of those holds of it. */
  lemma {:induction false} PlayIsRunPlay(start: Runs.Book, steps: seq<Step>)
    ensures Play(start, steps) == Runs.Play(start, RunSteps(start, steps))
  {
    hide Apply, Runs.Apply, AsRunStep;
    if steps != [] {
      var before := steps[..|steps| - 1];
      PlayIsRunPlay(start, before);
      forall i | 0 <= i < |before| ensures before[..i] == steps[..i] {
      }
      assert RunSteps(start, steps)[..|before|] == RunSteps(start, before);
      StepIsRunStep(Play(start, before), steps[|before|]);
    }
  }

  predicate Succeeded(b: Runs.Book, r: Id) {
    r in b.runs && b.runs[r].status == Runs.SUCCEEDED
  }

  lemma RequestsNeverSucceed(b: Runs.Book, step: Runs.Step, r: Id)
    requires step.CreateStep? || step.RetryStep? || step.CancelStep? || step.RevokeStep? || step.EnqueueStep?
             || step.RestoreStep?
    requires Succeeded(Runs.Apply(b, step), r)
    ensures Succeeded(b, r)
  {
  }

  lemma WorkersNeverSucceed(b: Runs.Book, step: Runs.Step, r: Id)
    requires step.ClaimStep? || step.HeartbeatStep? || step.RecoverStep? || step.FinaliseStep?
    requires Succeeded(Runs.Apply(b, step), r)
    ensures Succeeded(b, r)
  {
    hide Runs.NextJob, Runs.Unfinished;
  }

  /** No other step makes a run SUCCEEDED. */
  lemma OnlyProgressSucceeds(b: Runs.Book, step: Runs.Step, r: Id)
    requires Succeeded(Runs.Apply(b, step), r) && !Succeeded(b, r)
    ensures step.ProgressStep? && step.to == Runs.SUCCEEDED && step.j in b.jobs && b.jobs[step.j].subject == r
  {
    if step.CreateStep? || step.RetryStep? || step.CancelStep? || step.RevokeStep? || step.EnqueueStep?
      || step.RestoreStep? {
      RequestsNeverSucceed(b, step, r);
    } else if step.ClaimStep? || step.HeartbeatStep? || step.RecoverStep? || step.FinaliseStep? {
      WorkersNeverSucceed(b, step, r);
    }
  }

  lemma OnlyFinishSucceeds(b: Runs.Book, step: Step, r: Id)
    requires Succeeded(Apply(b, step), r) && !Succeeded(b, r)
    ensures Finishes(b, step) && b.jobs[step.j].subject == r
  {
    hide Runs.Apply, Freezes, Passes;
    if step.Other? {
      OnlyProgressSucceeds(b, step.step, r);
    }
  }

  /** The run was made SUCCEEDED by step `n`, on this tree: frozen from the working copy, checked, sealed and committed,
      with every required check passed on it and no process of the run left, not even a given-up one. */
  ghost predicate FinishedOn(start: Runs.Book, steps: seq<Step>, n: nat, r: Id, tree: Tree) {
    && n < |steps| && steps[n].FinishStep?
    && var b, looks := Play(start, steps[..n]), steps[n].looks;
       && Finishes(b, steps[n]) && b.jobs[steps[n].j].subject == r
       && Freezes(tree, steps[n].rules, looks) && Passes(tree, steps[n].commands, looks)
       && Projection(tree, steps[n].rules) == looks.current
       && b.runs[r].status == Runs.VERIFYING && !Runs.Unfinished(b.processes, r, true)
  }

  /** Whenever a run is SUCCEEDED, a sound finish made it so, in one of the steps so far. */
  lemma {:induction false} SucceededWasFinished(start: Runs.Book, steps: seq<Step>, r: Id) returns (n: nat, tree: Tree)
    requires start.runs == map[] && Succeeded(Play(start, steps), r)
    ensures FinishedOn(start, steps, n, r, tree)
  {
    hide Apply, FinishedOn;
    var before, step := steps[..|steps| - 1], steps[|steps| - 1];
    var b := Play(start, before);
    if Succeeded(b, r) {
      n, tree := SucceededWasFinished(start, before, r);
      FinishedBefore(start, steps, n, r, tree);
    } else {
      OnlyFinishSucceeds(b, step, r);
      n := |before|;
      tree := FinishRests(start, steps, r);
    }
  }

  lemma FinishedBefore(start: Runs.Book, steps: seq<Step>, n: nat, r: Id, tree: Tree)
    requires steps != [] && FinishedOn(start, steps[..|steps| - 1], n, r, tree)
    ensures FinishedOn(start, steps, n, r, tree)
  {
    hide Apply, Finishes, Freezes, Passes;
    assert steps[..|steps| - 1][..n] == steps[..n];
  }

  lemma FinishRests(start: Runs.Book, steps: seq<Step>, r: Id) returns (tree: Tree)
    requires steps != [] && Finishes(Play(start, steps[..|steps| - 1]), steps[|steps| - 1])
    requires Play(start, steps[..|steps| - 1]).jobs[steps[|steps| - 1].j].subject == r
    ensures FinishedOn(start, steps, |steps| - 1, r, tree)
  {
    hide Apply, Freezable, Overlays, NoCollisions, ValidLinks;
    var step := steps[|steps| - 1];
    tree :| Freezes(tree, step.rules, step.looks) && Passes(tree, step.commands, step.looks);
    FrozenIsOverlay(step.looks.baseline, step.looks.expectedBaseline, step.looks.current, step.rules, tree);
  }
}
