/** Publishing and reviewing together: the publication services read the results as the review services left them. */
module Platform {
  import opened Outcomes
  import opened PublicationRows
  import opened PublicationSteps
  import Publishing = PublicationSystem
  import Invariant = PublicationInvariant
  import Frames = PublicationFrames
  import Runs = PublicationRuns
  import Consent = PublicationConsent
  import Backups = PublicationBackups
  import Theorems = PublicationTheorems
  import Authority = PublicationAuthority
  import Reviews

  /** `desks` are the desks as they were when the backups of the system were taken; `revisions` and `runs` are the
      identifiers that any desk ever used. Runs have one name in both parts. */
  datatype Platform = Platform(
    system: Publishing.System, desk: Reviews.Desk, desks: seq<Reviews.Desk>, revisions: set<Id>, runs: set<Id>)

  /** A step of either part; backups and restores, requested of publishing, are of both. */
  datatype Step = Publish(publishing: Publishing.Step) | Review(reviewing: Reviews.Step)

  // ---- what publishing sees of a result ----

  function Shown(row: BundleRow, d: Reviews.Desk, b: Id): BundleRow
    requires b in d.bundles
  {
    row.(
    run := d.bundles[b].run, version := d.bundles[b].version, manifest := d.bundles[b].manifest,
    complete := d.bundles[b].complete, normal := d.bundles[b].normal,
    reviewed := if b in d.reviews && d.reviews[b].state == Reviews.APPROVED then Some(d.reviews[b].manifest) else None,
    current := Reviews.IsCurrent(d, b))
  }

  function ShownRun(row: RunRow, d: Reviews.Desk, r: Id): RunRow {
    row.(succeeded := r in d.runs && d.runs[r].succeeded)
  }

  /** The world with the runs, results and administrators of the review services. */
  function View(w: World, d: Reviews.Desk): World {
    w.(
    admins := d.admins, runs := map r | r in w.runs :: ShownRun(w.runs[r], d, r),
    bundles := map b | b in w.bundles && b in d.bundles :: Shown(w.bundles[b], d, b))
  }

  function Now(w: Platform): World {
    w.system.state.db.world
  }

  /** What the world becomes when something else in it changes, if it may change so. */
  function Outside(w: Platform, world: World): World {
    if Publishing.Prolongs(Now(w), world) then world else Now(w)
  }

  // ---- one step of both parts ----

  /** New rows get identifiers that no desk ever used. */
  predicate Fresh(w: Platform, step: Reviews.Step) {
    match step
    case ConfirmStep(_, _, _, _, _, _, r) => r !in w.revisions
    case SubmitStep(_, _, _, _, run) => run !in w.runs
    case RetryStep(_, run) => run !in w.runs
    case _ => true
  }

  /** The backup exists, and the rest of its world goes on as it was then. */
  predicate MayRestore(w: Platform, n: nat, world: World) {
    var s := w.system.state;
    && n < |s.backups| && n < |w.desks|
    && Publishing.Prolongs(s.backups[n].world.(retired := Publishing.Retiring(s)), world)
  }

  /** The step replaces the databases of both parts by those of a backup. */
  predicate Restoring(w: Platform, step: Step) {
    step.Publish? && step.publishing.BackupRestored? && MayRestore(w, step.publishing.n, step.publishing.world)
  }

  function DeskStep(w: Platform, step: Step): Reviews.Step {
    match step
    case Publish(WorldChange(world)) => Reviews.AccountsStep(Outside(w, world).admins)
    case Publish(_) => Reviews.AccountsStep(w.desk.admins)
    case Review(reviewing) => if Fresh(w, reviewing) then reviewing else Reviews.AccountsStep(w.desk.admins)
  }

  function DeskAfter(w: Platform, step: Step): Reviews.Desk {
    if Restoring(w, step) then Reviews.Restore(w.desks[step.publishing.n]) else Reviews.Apply(w.desk, DeskStep(w, step))
  }

  /** A restore that may not happen is one of a backup that does not exist. */
  function SystemStep(w: Platform, step: Step): Publishing.Step {
    match step
    case Publish(BackupRestored(n, world)) =>
      if MayRestore(w, n, world) then Publishing.BackupRestored(n, View(world, DeskAfter(w, step)))
      else Publishing.BackupRestored(|w.system.state.backups|, world)
    case Publish(WorldChange(world)) => Publishing.WorldChange(View(Outside(w, world), DeskAfter(w, step)))
    case Publish(publishing) => publishing
    case Review(_) => Publishing.WorldChange(View(Now(w), DeskAfter(w, step)))
  }

  ghost function Apply(w: Platform, step: Step): Platform {
    Platform(
      Publishing.Apply(w.system, SystemStep(w, step)), DeskAfter(w, step),
      if step == Publish(Publishing.BackupTaken) then w.desks + [w.desk] else w.desks,
      w.revisions + DeskAfter(w, step).revisions.Keys, w.runs + DeskAfter(w, step).runs.Keys)
  }

  ghost function Run(w: Platform, steps: seq<Step>): Platform {
    if steps == [] then w else Apply(Run(w, steps[..|steps| - 1]), steps[|steps| - 1])
  }

  /** Publishing sees the runs, the results and the administrators as they are. */
  predicate Synced(w: Platform) {
    Now(w) == View(Now(w), w.desk)
  }

  predicate Begins(w: Platform) {
    && Publishing.Initial(w.system) && Reviews.Empty(w.desk) && Synced(w)
    && w.desks == [] && w.revisions == {} && w.runs == {}
  }

  // ---- what every step keeps ----

  /** No result of this run is current, now and later. */
  predicate Spent(d: Reviews.Desk, r: Id) {
    r in d.runs ==> Reviews.Outrun(d, d.runs[r].revision)
  }

  ghost predicate RetiredSpent(retired: set<Id>, d: Reviews.Desk) {
    forall r {:trigger Spent(d, r)} | r in retired :: Spent(d, r)
  }

  predicate RowsKnown(db: Db, runs: set<Id>) {
    forall p | p in db.publications :: db.publications[p].run in runs
  }

  ghost predicate DesksFit(w: Platform) {
    && Reviews.Orderly(w.desk) && w.desk.revisions.Keys <= w.revisions && w.desk.runs.Keys <= w.runs
    && |w.desks| == |w.system.state.backups| && forall n | 0 <= n < |w.desks| :: Reviews.Orderly(w.desks[n])
  }

  ghost predicate RunsKnown(s: Publishing.State, runs: set<Id>) {
    && s.db.world.retired <= runs && RowsKnown(s.db, runs)
    && forall n | 0 <= n < |s.backups| :: RowsKnown(s.backups[n], runs)
  }

  ghost predicate Fits(w: Platform) {
    && Theorems.Sound(w.system) && Synced(w) && DesksFit(w)
    && RunsKnown(w.system.state, w.runs) && RetiredSpent(Now(w).retired, w.desk)
  }

  lemma ViewTwice(w: World, d: Reviews.Desk)
    ensures View(View(w, d), d) == View(w, d)
  {
    assert forall b | b in View(w, d).bundles :: Shown(View(w, d).bundles[b], d, b) == View(w, d).bundles[b];
    assert forall r | r in View(w, d).runs :: ShownRun(View(w, d).runs[r], d, r) == View(w, d).runs[r];
  }

  /** A world whose retired runs are spent at the desk may be seen through it. */
  lemma ViewEvolves(before: World, world: World, d: Reviews.Desk)
    requires Publishing.Prolongs(before, world) && Reviews.Orderly(d) && RetiredSpent(world.retired, d)
    ensures Publishing.Evolves(before, View(world, d))
  {
    var seen := View(world, d);
    forall b | b in seen.bundles && seen.bundles[b].run in seen.retired ensures !seen.bundles[b].current {
      assert Spent(d, d.bundles[b].run);
      assert Reviews.RunFits(d, d.bundles[b].run);
    }
  }

  /** A step of the desk leaves spent what was spent, and starts no run that was. */
  lemma SpentStays(d: Reviews.Desk, e: Reviews.Desk, r: Id)
    requires Reviews.Orderly(d) && Reviews.Grows(d, e) && Spent(d, r) && (r in d.runs || r !in e.runs)
    ensures Spent(e, r)
  {
    if r in d.runs {
      assert Reviews.RunFits(d, r) && Reviews.RevisionFits(d, d.runs[r].revision);
      assert Reviews.RunGrows(d.runs[r], e.runs[r]);
    }
  }

  /** A step of the desk adds rows only under the identifiers it is given. */
  lemma OwnIdentifiers(d: Reviews.Desk, step: Reviews.Step)
    ensures forall r | r in Reviews.Apply(d, step).runs && r !in d.runs ::
              (step.SubmitStep? || step.RetryStep?) && step.run == r
    ensures forall r | r in Reviews.Apply(d, step).revisions && r !in d.revisions :: step.ConfirmStep? && step.r == r
  {
    hide Reviews.IsCurrent, Reviews.IsReady, Reviews.MayFollow, Reviews.NextVersion;
  }

  /** Only a new run with a fresh identifier is added. */
  lemma FreshRuns(w: Platform, step: Step)
    requires !Restoring(w, step)
    ensures forall r | r in DeskAfter(w, step).runs && r !in w.desk.runs :: r !in w.runs
    ensures forall r | r in DeskAfter(w, step).revisions && r !in w.desk.revisions ::
              step.Review? && step.reviewing.ConfirmStep? && step.reviewing.r == r && r !in w.revisions
  {
    hide Restoring, Outside, Reviews.Decide, Reviews.Save, Reviews.Seal, Reviews.Confirm, Reviews.Submit;
    if step.Review? {
      OwnIdentifiers(w.desk, step.reviewing);
    }
  }

  lemma CalmSpent(w: Platform, step: Step)
    requires DesksFit(w) && !Restoring(w, step) && Now(w).retired <= w.runs && RetiredSpent(Now(w).retired, w.desk)
    ensures RetiredSpent(Now(w).retired, DeskAfter(w, step))
  {
    hide DeskStep, Restoring, Reviews.Apply;
    Reviews.StepGrows(w.desk, DeskStep(w, step));
    FreshRuns(w, step);
    forall r | r in Now(w).retired ensures Spent(DeskAfter(w, step), r) {
      assert Spent(w.desk, r);
      SpentStays(w.desk, DeskAfter(w, step), r);
    }
  }

  lemma DesksStay(w: Platform, step: Step)
    requires Fits(w)
    ensures DesksFit(Apply(w, step))
  {
    hide Publishing.Apply, Theorems.Sound, RunsKnown, RetiredSpent, Reviews.Apply, Reviews.Orderly, View,
      Publishing.Retiring;
    Theorems.BackupStep(w.system, SystemStep(w, step));
    if Restoring(w, step) {
      Reviews.RestoreCutsAll(w.desks[step.publishing.n]);
    } else {
      Reviews.StepKeeps(w.desk, DeskStep(w, step));
    }
    SameStep(w, step);
  }

  lemma SameStep(w: Platform, step: Step)
    ensures SystemStep(w, step).BackupTaken? <==> step == Publish(Publishing.BackupTaken)
  {
  }

  /** A restored desk leaves all results of before behind. */
  lemma RestoredSpent(w: Platform, step: Step, retired: set<Id>)
    requires DesksFit(w) && Restoring(w, step)
    ensures RetiredSpent(retired, DeskAfter(w, step))
  {
    var d := w.desks[step.publishing.n];
    Reviews.RestoreCutsAll(d);
    forall r | r in retired ensures Spent(DeskAfter(w, step), r) {
      if r in d.runs {
        assert Reviews.Outrun(Reviews.Restore(d), d.runs[r].revision);
      }
    }
  }

  /** What may be restored on the platform is accepted by the publication system. */
  lemma RestoreTaken(w: Platform, step: Step)
    requires Fits(w) && Restoring(w, step)
    ensures var taken := SystemStep(w, step);
            && taken == Publishing.BackupRestored(step.publishing.n, View(step.publishing.world, DeskAfter(w, step)))
            && Publishing.MayRestore(w.system.state, taken.n, taken.world)
  {
    hide View, Publishing.Retiring, Reviews.Restore, Theorems.Sound, RunsKnown;
    var n, world := step.publishing.n, step.publishing.world;
    RestoredSpent(w, step, world.retired);
    Reviews.RestoreCutsAll(w.desks[n]);
    ViewEvolves(w.system.state.backups[n].world.(retired := Publishing.Retiring(w.system.state)), world,
                DeskAfter(w, step));
  }

  /** No other step replaces a database. */
  lemma OthersAreCalm(w: Platform, step: Step)
    requires !Restoring(w, step)
    ensures Publishing.Calm(w.system, SystemStep(w, step))
  {
    hide View, Publishing.Prolongs, Publishing.Retiring;
  }

  /** A change of the world takes effect. */
  lemma ChangeTaken(w: Platform, step: Step)
    requires Fits(w) && !Restoring(w, step) && SystemStep(w, step).WorldChange?
    ensures Publishing.Evolves(Now(w), SystemStep(w, step).world)
  {
    hide View, Theorems.Sound, RetiredSpent, Restoring, Reviews.Apply, DeskStep;
    CalmSpent(w, step);
    Reviews.StepKeeps(w.desk, DeskStep(w, step));
    ViewEvolves(Now(w), if step.Publish? then Outside(w, step.publishing.world) else Now(w), DeskAfter(w, step));
  }

  lemma WorldTaken(s: Publishing.System, step: Publishing.Step)
    requires if step.WorldChange? then Publishing.Evolves(s.state.db.world, step.world)
             else step.BackupRestored? && Publishing.MayRestore(s.state, step.n, step.world)
    ensures Publishing.Apply(s, step).state.db.world == step.world
  {
    hide Publishing.Evolves;
  }

  lemma RefusedRestore(s: Publishing.System, step: Publishing.Step)
    requires step.BackupRestored? && Publishing.Calm(s, step)
    ensures Publishing.Apply(s, step) == s
  {
  }

  lemma StepSyncs(w: Platform, step: Step)
    requires Fits(w)
    ensures Synced(Apply(w, step))
  {
    hide Publishing.Apply, Theorems.Sound, DesksFit, RunsKnown, RetiredSpent, View, Publishing.MayRestore,
      Publishing.Evolves, Reviews.Restore, Restoring, Publishing.Calm;
    var d, taken := DeskAfter(w, step), SystemStep(w, step);
    if Restoring(w, step) {
      RestoreTaken(w, step);
      WorldTaken(w.system, taken);
      ViewTwice(step.publishing.world, d);
    } else if taken.WorldChange? {
      ChangeTaken(w, step);
      WorldTaken(w.system, taken);
      ViewTwice(if step.Publish? then Outside(w, step.publishing.world) else Now(w), d);
    } else {
      OthersAreCalm(w, step);
      DeskUnmoved(w, step);
      if taken.BackupRestored? {
        RefusedRestore(w.system, taken);
      } else {
        Frames.OthersStay(w.system, taken);
      }
      ProjectsAside(Now(w), w.desk, Now(Apply(w, step)).projects);
    }
  }

  lemma DeskUnmoved(w: Platform, step: Step)
    requires !Restoring(w, step) && !SystemStep(w, step).WorldChange?
    ensures DeskAfter(w, step) == w.desk
  {
  }

  lemma ProjectsAside(w: World, d: Reviews.Desk, projects: map<Id, ProjectRow>)
    requires w == View(w, d)
    ensures w.(projects := projects) == View(w.(projects := projects), d)
  {
    assert w.(projects := projects).bundles == w.bundles && w.(projects := projects).runs == w.runs;
  }

  /** A run with a current result is a run of the desk. */
  lemma CurrentKnown(w: Platform, r: Id)
    requires Synced(w) && Frames.CurrentRun(Now(w), r)
    ensures r in w.desk.runs
  {
    var b :| b in Now(w).bundles && Now(w).bundles[b].run == r && Now(w).bundles[b].current;
    assert b in View(Now(w), w.desk).bundles;
  }

  lemma CalmKnown(w: Platform, step: Step)
    requires Fits(w) && !Restoring(w, step)
    ensures RunsKnown(Apply(w, step).system.state, Apply(w, step).runs)
  {
    hide Publishing.Apply, View, Publishing.Calm, Restoring, SystemStep, DeskAfter, Invariant.Core, Backups.BackupsFit;
    var s, taken := w.system, SystemStep(w, step);
    var t := Publishing.Apply(s, taken);
    OthersAreCalm(w, step);
    Frames.CalmFrames(s, taken);
    Consent.ApplyConsents(s, taken);
    Theorems.BackupStep(s, taken);
    forall p | p in t.state.db.publications ensures t.state.db.publications[p].run in w.runs {
      if p in s.state.db.publications {
        assert Consent.RowCarried(s.state.db, t.state.db, p);
      } else {
        assert Frames.FreshRow(s.state, t.state, p);
        CurrentKnown(w, t.state.db.publications[p].run);
      }
    }
  }

  /** All runs that publications or effects were ever of are known to the desks. */
  lemma RetiringKnown(w: Platform)
    requires Fits(w)
    ensures Publishing.Retiring(w.system.state) <= w.runs
  {
    var s := w.system.state;
    forall i | 0 <= i < |s.log| ensures s.log[i].run in w.runs {
      assert Invariant.EffectFits(s, s.log[i]);
    }
  }

  lemma RestoredKnown(w: Platform, step: Step)
    requires Fits(w) && Restoring(w, step)
    ensures RunsKnown(Apply(w, step).system.state, Apply(w, step).runs)
  {
    hide View, Publishing.Evolves, Publishing.Retiring, Theorems.Sound, Synced;
    RestoreTaken(w, step);
    RetiringKnown(w);
    var world := SystemStep(w, step).world;
    RestoredIs(w.system, step.publishing.n, world);
    assert Now(Apply(w, step)).retired == Publishing.Retiring(w.system.state);
  }

  lemma RestoredIs(s: Publishing.System, n: nat, world: World)
    requires Publishing.MayRestore(s.state, n, world)
    ensures var t := Publishing.Apply(s, Publishing.BackupRestored(n, world)).state;
            && t.db.world == world && world.retired == Publishing.Retiring(s.state) && t.backups == s.state.backups
            && t.remote == s.state.remote && t.log == s.state.log
            && t.db.publications.Keys == s.state.backups[n].publications.Keys
            && forall p | p in t.db.publications :: t.db.publications[p].run == s.state.backups[n].publications[p].run
  {
    hide Publishing.Retiring;
  }

  lemma StepFits(w: Platform, step: Step)
    requires Fits(w)
    ensures Fits(Apply(w, step))
  {
    hide Publishing.Apply, Theorems.Sound, Synced, DesksFit, RunsKnown, RetiredSpent, Restoring, DeskAfter, SystemStep;
    Theorems.StepSound(w.system, SystemStep(w, step));
    StepSyncs(w, step);
    DesksStay(w, step);
    if Restoring(w, step) {
      RestoredKnown(w, step);
      RestoredSpent(w, step, Now(Apply(w, step)).retired);
    } else {
      CalmKnown(w, step);
      OthersAreCalm(w, step);
      Frames.CalmFrames(w.system, SystemStep(w, step));
      KnownRetired(w);
      CalmSpent(w, step);
    }
  }

  lemma KnownRetired(w: Platform)
    requires RunsKnown(w.system.state, w.runs)
    ensures Now(w).retired <= w.runs
  {
  }

  lemma BeginsFits(w: Platform)
    requires Begins(w)
    ensures Fits(w)
  {
    hide View;
    Runs.InitialCore(w.system);
    Theorems.ReachedSound(w.system, []);
  }

  lemma {:induction false} RunFits(w: Platform, steps: seq<Step>)
    requires Fits(w)
    ensures Fits(Run(w, steps))
  {
    hide Apply, Fits;
    if steps != [] {
      RunFits(w, steps[..|steps| - 1]);
      StepFits(Run(w, steps[..|steps| - 1]), steps[|steps| - 1]);
    }
  }

  // ---- a run of both parts is a run of each ----

  ghost function SystemSteps(w: Platform, steps: seq<Step>): (taken: seq<Publishing.Step>)
    ensures |taken| == |steps|
  {
    seq(|steps|, i requires 0 <= i < |steps| => SystemStep(Run(w, steps[..i]), steps[i]))
  }

  ghost function DeskSteps(w: Platform, steps: seq<Step>): (taken: seq<Reviews.Step>)
    ensures |taken| == |steps|
  {
    seq(|steps|, i requires 0 <= i < |steps| => DeskStep(Run(w, steps[..i]), steps[i]))
  }

  /** No step of this run restores a backup. */
  ghost predicate Undisturbed(w: Platform, steps: seq<Step>) {
    forall n: nat | n < |steps| :: !Restoring(Run(w, steps[..n]), steps[n])
  }

  lemma StepsBefore(w: Platform, steps: seq<Step>, n: nat)
    requires n <= |steps|
    ensures SystemSteps(w, steps)[..n] == SystemSteps(w, steps[..n])
            && DeskSteps(w, steps)[..n] == DeskSteps(w, steps[..n])
    ensures Undisturbed(w, steps) ==> Undisturbed(w, steps[..n])
  {
    hide SystemStep, DeskStep, Apply, Restoring;
    forall i | 0 <= i < n ensures steps[..n][..i] == steps[..i] {
    }
  }

  lemma {:induction false} SystemPart(w: Platform, steps: seq<Step>)
    ensures Run(w, steps).system == Publishing.Run(w.system, SystemSteps(w, steps))
  {
    hide SystemStep, DeskStep, DeskAfter, Publishing.Apply;
    if steps != [] {
      SystemPart(w, steps[..|steps| - 1]);
      StepsBefore(w, steps, |steps| - 1);
    }
  }

  lemma DeskMoves(w: Platform, step: Step)
    requires !Restoring(w, step)
    ensures Apply(w, step).desk == Reviews.Apply(w.desk, DeskStep(w, step))
  {
    hide Restoring, DeskStep, Reviews.Apply, Publishing.Apply, SystemStep;
  }

  lemma {:induction false} DeskPart(w: Platform, steps: seq<Step>)
    requires Undisturbed(w, steps)
    ensures Run(w, steps).desk == Reviews.Play(w.desk, DeskSteps(w, steps))
  {
    hide DeskStep, Apply, Reviews.Apply, Restoring;
    if steps != [] {
      var before := steps[..|steps| - 1];
      StepsBefore(w, steps, |before|);
      DeskPart(w, before);
      DeskMoves(Run(w, before), steps[|before|]);
    }
  }

  /** The state of each part after `n` steps. */
  lemma PartsBefore(w: Platform, steps: seq<Step>, n: nat)
    requires n <= |steps|
    ensures Run(w, steps[..n]).system == Publishing.Run(w.system, SystemSteps(w, steps)[..n])
    ensures Undisturbed(w, steps) ==> Run(w, steps[..n]).desk == Reviews.Play(w.desk, DeskSteps(w, steps)[..n])
  {
    hide Apply, Restoring, SystemSteps, DeskSteps, Undisturbed;
    StepsBefore(w, steps, n);
    SystemPart(w, steps[..n]);
    if Undisturbed(w, steps) {
      DeskPart(w, steps[..n]);
    }
  }

  lemma {:induction false} RunOn(w: Platform, steps: seq<Step>, n: nat)
    requires n <= |steps|
    ensures Run(w, steps) == Run(Run(w, steps[..n]), steps[n..])
  {
    hide Apply;
    if n == |steps| {
      assert steps[..n] == steps && steps[n..] == [];
    } else {
      var before := steps[..|steps| - 1];
      RunOn(w, before, n);
      assert before[..n] == steps[..n];
      assert before[n..] == steps[n..][..|steps| - n - 1];
    }
  }

  /** The steps of a part of a run. */
  lemma StepsWithin(w: Platform, steps: seq<Step>, r: nat, n: nat)
    requires r <= n <= |steps|
    ensures var u, t := Run(w, steps[..r]), steps[r..n];
            SystemSteps(u, t) == SystemSteps(w, steps)[r..n] && forall i: nat | i <= |t| ::
              Run(u, t[..i]) == Run(w, steps[..r + i])
  {
    hide Apply, SystemStep, DeskStep;
    var u, t := Run(w, steps[..r]), steps[r..n];
    forall i: nat | i <= |t| ensures Run(u, t[..i]) == Run(w, steps[..r + i]) {
      RunOn(w, steps[..r + i], r);
      assert steps[..r + i][..r] == steps[..r] && steps[..r + i][r..] == t[..i];
    }
  }

  lemma CalmIsUndisturbed(w: Platform, steps: seq<Step>)
    requires Fits(w) && Theorems.AllCalm(w.system, SystemSteps(w, steps))
    ensures Undisturbed(w, steps)
  {
    hide Apply, Fits, SystemStep, Publishing.Apply, Restoring, Publishing.Calm;
    forall n: nat | n < |steps| ensures !Restoring(Run(w, steps[..n]), steps[n]) {
      RunFits(w, steps[..n]);
      PartsBefore(w, steps, n);
      assert Publishing.Calm(Publishing.Run(w.system, SystemSteps(w, steps)[..n]), SystemSteps(w, steps)[n]);
      if Restoring(Run(w, steps[..n]), steps[n]) {
        RestoringIsNoCalm(Run(w, steps[..n]), steps[n]);
      }
    }
  }

  lemma RestoringIsNoCalm(w: Platform, step: Step)
    requires Fits(w) && Restoring(w, step)
    ensures !Publishing.Calm(w.system, SystemStep(w, step))
  {
    hide Fits, Publishing.MayRestore;
    RestoreTaken(w, step);
  }

  // ---- what follows the last restore ----

  lemma SegmentAt(start: Platform, steps: seq<Step>, r: nat, n: nat)
    requires Begins(start) && r <= n <= |steps|
    requires Authority.Segment(
               Publishing.Run(start.system, SystemSteps(start, steps)[..r]), SystemSteps(start, steps)[r..n])
    ensures var u, t := Run(start, steps[..r]), steps[r..n];
            && Fits(u) && Undisturbed(u, t) && Authority.Segment(u.system, SystemSteps(u, t))
            && Run(u, t) == Run(start, steps[..n])
  {
    hide Apply, Fits, Authority.Settled, Undisturbed, SystemSteps;
    BeginsFits(start);
    RunFits(start, steps[..r]);
    PartsBefore(start, steps, r);
    StepsWithin(start, steps, r, n);
    CalmIsUndisturbed(Run(start, steps[..r]), steps[r..n]);
    assert steps[r..n][..n - r] == steps[r..n];
  }

  lemma SystemStepAt(w: Platform, steps: seq<Step>, m: nat)
    requires m < |steps|
    ensures SystemSteps(w, steps)[m] == SystemStep(Run(w, steps[..m]), steps[m])
    ensures Run(w, steps[..m + 1]) == Apply(Run(w, steps[..m]), steps[m])
    ensures Run(w, steps[..m]).system == Publishing.Run(w.system, SystemSteps(w, steps)[..m])
  {
    hide Apply;
    assert steps[..m + 1][..m] == steps[..m];
    PartsBefore(w, steps, m);
  }

  /** The desk starts from a cut: it is empty, or restored. */
  lemma CutAtRestore(start: Platform, steps: seq<Step>, m: nat)
    requires Begins(start) && m <= |steps|
    ensures var r := Authority.LastRestore(start.system, SystemSteps(start, steps)[..m]);
            Reviews.Cut(Run(start, steps[..r]).desk)
  {
    hide Apply, Publishing.Apply, Publishing.Calm, SystemSteps, Fits, SystemStep, Reviews.Cut, Publishing.Initial,
      Authority.LastRestore;
    var before := SystemSteps(start, steps)[..m];
    var r := Authority.LastRestore(start.system, before);
    if r == 0 {
      EmptyIsCut(start.desk);
    } else {
      var w := Run(start, steps[..r - 1]);
      Authority.LastIsRestore(start.system, before);
      assert before[..r - 1] == SystemSteps(start, steps)[..r - 1];
      SystemStepAt(start, steps, r - 1);
      BeginsFits(start);
      RunFits(start, steps[..r - 1]);
      CutByRestore(w, steps[r - 1]);
    }
  }

  lemma EmptyIsCut(d: Reviews.Desk)
    requires Reviews.Empty(d)
    ensures Reviews.Cut(d)
  {
  }

  lemma CutByRestore(w: Platform, step: Step)
    requires Fits(w) && !Publishing.Calm(w.system, SystemStep(w, step))
    ensures Reviews.Cut(Apply(w, step).desk)
  {
    hide Publishing.Apply, Publishing.Calm, SystemStep, Reviews.Cut, Reviews.Restore, Publishing.Prolongs,
      Publishing.Retiring;
    if !Restoring(w, step) {
      OthersAreCalm(w, step);
    }
    Reviews.RestoreCutsAll(w.desks[step.publishing.n]);
  }

  // ---- the whole chain of consent behind every effect ----

  /** Publishing sees this result as current and reviewed, on the manifest of the snapshot. */
  predicate Reviewed(w: World, t: Snapshot) {
    && t.bundle in w.bundles && w.bundles[t.bundle].run == t.run && w.bundles[t.bundle].manifest == t.manifest
    && w.bundles[t.bundle].reviewed == Some(t.manifest) && w.bundles[t.bundle].current
  }

  /** What publishing sees as reviewed is current and approved on its manifest at the desk. */
  lemma ReviewedIsApproved(w: Platform, t: Snapshot)
    requires Synced(w) && Reviewed(Now(w), t)
    ensures Reviews.IsCurrent(w.desk, t.bundle)
    ensures w.desk.bundles[t.bundle].run == t.run && w.desk.bundles[t.bundle].manifest == t.manifest
    ensures t.bundle in w.desk.reviews && w.desk.reviews[t.bundle].state == Reviews.APPROVED
  {
    assert t.bundle in View(Now(w), w.desk).bundles;
    assert Now(w).bundles[t.bundle] == Shown(Now(w).bundles[t.bundle], w.desk, t.bundle);
  }

  lemma ConditionsReviewed(w: World, actor: Id, row: Publication)
    requires Conditions(w, actor, row.run, Some(row.snapshot)).Ok?
    ensures Reviewed(w, row.snapshot)
  {
  }

  lemma BackedIsReviewed(u: Publishing.State, e: Publishing.Effect, job: Id, a: Id)
    requires Authority.Backing(u, e, job, a)
    ensures e.publication in u.db.publications && Reviewed(u.db.world, u.db.publications[e.publication].snapshot)
  {
  }

  /** The approval was given since, on the same snapshot. */
  lemma ApprovalGiven(w: Platform, steps: seq<Step>, p: Id, a: Id) returns (g: nat)
    requires Authority.Segment(w.system, SystemSteps(w, steps))
             && Authority.ConsentChain(Run(w, steps).system.state.db, p, a)
    ensures g < |steps|
    ensures var s, u := Run(w, steps[..g]), Run(w, steps).system.state.db;
            && Authority.Gives(s.system, SystemStep(s, steps[g]), a, p, u.approvals[a].actor)
            && s.system.state.db.publications[p].snapshot == u.publications[p].snapshot
  {
    hide Publishing.Apply, Apply, SystemStep, Authority.Settled, Authority.Gives, SystemSteps;
    var taken := SystemSteps(w, steps);
    SystemPart(w, steps);
    g := Authority.ApprovalWasGiven(w.system, taken, a);
    SystemStepAt(w, steps, g);
    GivenInTable(Run(w, steps[..g]).system, taken[g], a, p, Run(w, steps).system.state.db.approvals[a].actor);
    Authority.SameLater(w.system, taken, g, p);
  }

  lemma GivenInTable(s: Publishing.System, step: Publishing.Step, a: Id, p: Id, actor: Id)
    requires Authority.Gives(s, step, a, p, actor)
    ensures p in s.state.db.publications
    ensures Conditions(s.state.db.world, actor, s.state.db.publications[p].run,
                       Some(s.state.db.publications[p].snapshot)).Ok?
  {
  }

  /** An approval is given only to a result that went through all its decisions, since the cut. */
  lemma GivenOnApproved(w: Platform, steps: seq<Step>, step: Step, p: Id, a: Id, actor: Id)
    returns (x: Reviews.Decisions)
    requires Fits(w) && Reviews.Cut(w.desk) && Undisturbed(w, steps)
    requires Authority.Gives(Run(w, steps).system, SystemStep(Run(w, steps), step), a, p, actor)
    ensures var t := Run(w, steps).system.state.db.publications[p].snapshot;
            Reviews.Chain(w.desk, DeskSteps(w, steps), t.bundle, x) && x.manifest == t.manifest && x.run == t.run
  {
    hide Apply, SystemStep, Authority.Gives, Undisturbed, Conditions, DeskSteps, View, Theorems.Sound, DesksFit,
      RunsKnown;
    var s := Run(w, steps);
    GivenInTable(s.system, SystemStep(s, step), a, p, actor);
    ConditionsReviewed(Now(s), actor, s.system.state.db.publications[p]);
    RunFits(w, steps);
    DeskPart(w, steps);
    x := ApprovedResult(w.desk, DeskSteps(w, steps), s, s.system.state.db.publications[p].snapshot);
  }

  lemma ApprovedResult(d: Reviews.Desk, steps: seq<Reviews.Step>, s: Platform, t: Snapshot)
    returns (x: Reviews.Decisions)
    requires Reviews.Cut(d) && s.desk == Reviews.Play(d, steps) && Synced(s) && Reviewed(Now(s), t)
    ensures Reviews.Chain(d, steps, t.bundle, x) && x.manifest == t.manifest && x.run == t.run
  {
    hide View, Reviews.Apply, Reviews.Orderly;
    ReviewedIsApproved(s, t);
    Reviews.CutForever(d, steps, t.bundle);
    Reviews.ApprovedByBoth(d, steps, t.bundle);
    x :| Reviews.Chain(d, steps, t.bundle, x);
  }

  /** At the end of these steps the job holds its lease for an approved publication of the effect. Its approval `a` had
      been given in step `g`, when the result had gone through all its decisions on the manifest of the snapshot. */
  ghost predicate Granted(
    w: Platform, steps: seq<Step>, e: Publishing.Effect, g: nat, job: Id, a: Id, review: Reviews.Decisions)
    requires g < |steps|
  {
    var s, u := Run(w, steps[..g]), Run(w, steps).system.state;
    && Authority.Backing(u, e, job, a)
    && Authority.Gives(s.system, SystemStep(s, steps[g]), a, e.publication, u.db.approvals[a].actor)
    && var t := u.db.publications[e.publication].snapshot;
       && s.system.state.db.publications[e.publication].snapshot == t
       && review.run == t.run && review.manifest == t.manifest
       && Reviews.Chain(w.desk, DeskSteps(w, steps[..g]), t.bundle, review)
  }

  /** The last restore before the write, when the approval of the publication was given, when the write was authorised,
      for which job and by which approval, and how the result had come to be approved. */
  datatype Path = Path(restored: nat, given: nat, authorised: nat, job: Id, approval: Id, review: Reviews.Decisions)

  /** Before effect `k` was logged, it was granted after `authorised` steps, by an approval given in step `given`; all
      its decisions were made after the first `restored` steps, with no restore in between. */
  ghost predicate Earned(start: Platform, steps: seq<Step>, k: nat, x: Path)
    requires k < |Run(start, steps).system.state.log|
  {
    && x.restored <= x.given < x.authorised <= |steps| && |Run(start, steps[..x.authorised]).system.state.log| <= k
    && var w, since := Run(start, steps[..x.restored]), steps[x.restored..x.authorised];
       && Undisturbed(w, since)
       && Granted(w, since, Run(start, steps).system.state.log[k], x.given - x.restored, x.job, x.approval, x.review)
  }

  /** Every push and every pull request that ever took effect had the full consent since the last restore before it: the
      owner confirmed the revision, then its run succeeded, then the owner accepted the complete result, then an
      administrator approved it, then an administrator approved exactly this publication, then the write was authorised
      for the job that held the lease, with every required check passed on the tree; all of it in this order, before the
      write, and on one manifest. */
  lemma EveryEffectHadConsent(start: Platform, steps: seq<Step>, k: nat)
    requires Begins(start) && k < |Run(start, steps).system.state.log|
    ensures exists x :: Earned(start, steps, k, x)
  {
    hide Publishing.Apply, Apply, Begins, Granted, Fits, Authority.Segment, Authority.Backing, SystemSteps, Undisturbed;
    var r, n, m, job, a := EffectBacked(start, steps, k);
    SegmentAt(start, steps, r, n);
    CutAtRestore(start, steps, m);
    var g, review := EffectGranted(Run(start, steps[..r]), steps[r..n], Run(start, steps).system.state.log[k], job, a);
    assert Earned(start, steps, k, Path(r, r + g, n, job, a, review));
  }

  lemma EffectBacked(start: Platform, steps: seq<Step>, k: nat) returns (r: nat, n: nat, m: nat, job: Id, a: Id)
    requires Begins(start) && k < |Run(start, steps).system.state.log|
    ensures r <= n <= m < |steps| && r == Authority.LastRestore(start.system, SystemSteps(start, steps)[..m])
    ensures Authority.Segment(
              Publishing.Run(start.system, SystemSteps(start, steps)[..r]), SystemSteps(start, steps)[r..n])
    ensures |Run(start, steps[..n]).system.state.log| <= k < |Run(start, steps[..m + 1]).system.state.log|
    ensures Authority.Backing(Run(start, steps[..n]).system.state, Run(start, steps).system.state.log[k], job, a)
  {
    hide Publishing.Apply, Apply, SystemSteps, Authority.Backing, Authority.Segment, Authority.LastRestore;
    var taken := SystemSteps(start, steps);
    SystemPart(start, steps);
    r, n, m, job, a := Authority.EffectBacked(start.system, taken, k);
    LogsAt(start, steps, n, m);
  }

  lemma LogsAt(start: Platform, steps: seq<Step>, n: nat, m: nat)
    requires n <= m < |steps|
    ensures Run(start, steps[..n]).system == Publishing.Run(start.system, SystemSteps(start, steps)[..n])
    ensures Run(start, steps[..m + 1]).system == Publishing.Run(start.system, SystemSteps(start, steps)[..m + 1])
    ensures |Run(start, steps[..n]).system.state.log| <=
            |Publishing.Run(start.system, SystemSteps(start, steps)[..m]).state.log|
  {
    hide Publishing.Apply, Apply, SystemSteps;
    var taken := SystemSteps(start, steps);
    PartsBefore(start, steps, n);
    PartsBefore(start, steps, m + 1);
    Theorems.RunLogs(start.system, taken[..m], n);
    assert taken[..m][..n] == taken[..n];
  }

  /** What is backed at the end of an undisturbed run was granted in it, and reviewed before. */
  lemma EffectGranted(w: Platform, steps: seq<Step>, e: Publishing.Effect, job: Id, a: Id)
    returns (g: nat, review: Reviews.Decisions)
    requires Fits(w) && Reviews.Cut(w.desk) && Undisturbed(w, steps)
             && Authority.Segment(w.system, SystemSteps(w, steps))
    requires Authority.Backing(Run(w, steps).system.state, e, job, a)
    ensures g < |steps| && Granted(w, steps, e, g, job, a, review)
  {
    hide Publishing.Apply, Apply, SystemStep, Authority.Gives, Reviews.Chain, Reviews.Cut, SystemSteps, DeskSteps,
      Undisturbed, Fits, Authority.Segment;
    g := ApprovalGiven(w, steps, e.publication, a);
    StepsBefore(w, steps, g);
    review := GivenOnApproved(w, steps[..g], steps[g], e.publication, a,
                              Run(w, steps).system.state.db.approvals[a].actor);
  }

  /** In every run of the platform each product run pushes at most once and opens at most one pull request, whatever
      old databases are restored in between. */
  lemma ExactlyOnce(start: Platform, steps: seq<Step>, i: nat, k: nat)
    requires Begins(start) && i < k < |Run(start, steps).system.state.log|
    ensures var log := Run(start, steps).system.state.log; log[i].run == log[k].run ==> log[i].write != log[k].write
  {
    hide Apply, Publishing.Apply, SystemSteps;
    SystemPart(start, steps);
    Theorems.ExactlyOnce(start.system, SystemSteps(start, steps), i, k);
  }

  // ---- the cut made by a restore ----

  /** Restoring any backup over the present remote leaves the invariant, the remote and its history as they are. No
      decision is left valid, nothing approved or in progress, no job pending, no command open and no result current. */
  lemma RestoreEndsConsent(w: Platform, step: Step)
    requires Fits(w) && Restoring(w, step)
    ensures var s, t := w.system, Apply(w, step).system;
            && Fits(Apply(w, step)) && t.state.remote == s.state.remote && t.state.log == s.state.log
            && Invariant.Quiet(t.state.db.records) && t.thread.Idle?
            && (forall a | a in t.state.db.approvals :: !t.state.db.approvals[a].valid)
            && (forall j | j in t.state.db.jobs :: !t.state.db.jobs[j].Pending())
            && (forall p | p in t.state.db.publications ::
                  || t.state.db.publications[p].abandoned
                  || t.state.db.publications[p].state in {PUBLISHED, REJECTED, INVALIDATED, UNKNOWN})
    ensures forall b :: !Reviews.IsCurrent(Apply(w, step).desk, b)
  {
    hide Publishing.Apply, Publishing.MayRestore, Fits, Reviews.IsCurrent, View, DeskAfter;
    StepFits(w, step);
    RestoreTaken(w, step);
    Authority.RestoredIsSettled(w.system, SystemStep(w, step).n, SystemStep(w, step).world);
    RestoredIs(w.system, SystemStep(w, step).n, SystemStep(w, step).world);
    forall b ensures !Reviews.IsCurrent(Apply(w, step).desk, b) {
      NothingCurrent(w, step, b);
    }
  }

  lemma NothingCurrent(w: Platform, step: Step, b: Id)
    requires Fits(w) && Restoring(w, step)
    ensures !Reviews.IsCurrent(Apply(w, step).desk, b)
  {
    hide Publishing.Apply, SystemStep, Publishing.Prolongs, Publishing.Retiring, Reviews.Restore;
    var d := w.desks[step.publishing.n];
    Reviews.RestoreCutsAll(d);
    Reviews.CutLeavesNone(Reviews.Restore(d), b);
  }

  /** After `n` steps the publication is of a result whose revision no desk knew during the first `q` steps. */
  ghost predicate OfNewRevision(start: Platform, steps: seq<Step>, q: nat, n: nat, p: Id)
    requires q <= |steps| && n <= |steps|
  {
    var u := Run(start, steps[..n]);
    && p in u.system.state.db.publications
    && var b := u.system.state.db.publications[p].snapshot.bundle;
       && Reviews.HasRun(u.desk, b)
       && forall m: nat | m <= q :: Reviews.RunOf(u.desk, b).revision !in Run(start, steps[..m]).desk.revisions
  }

  /** In every run and after every restore in it, of whatever backup: nothing is written to the remote any more for a
      result whose revision was confirmed before that restore, whether the result was sealed before or afterwards, and
      whether the backup has it or not. */
  lemma RestoredResultsAreNeverWritten(start: Platform, steps: seq<Step>, q: nat, k: nat)
    requires Begins(start) && q < |steps| && Restoring(Run(start, steps[..q]), steps[q])
    requires |Run(start, steps[..q + 1]).system.state.log| <= k < |Run(start, steps).system.state.log|
    ensures exists n: nat, job: Id, a: Id ::
              && q < n <= |steps| && |Run(start, steps[..n]).system.state.log| <= k
              && Authority.Backing(Run(start, steps[..n]).system.state, Run(start, steps).system.state.log[k], job, a)
              && OfNewRevision(start, steps, q, n, Run(start, steps).system.state.log[k].publication)
  {
    hide Publishing.Apply, Apply, Begins, Fits, Restoring, Authority.Segment, Authority.Backing, SystemSteps,
      Undisturbed;
    var r, n, m, job, a := EffectBacked(start, steps, k);
    var e := Run(start, steps).system.state.log[k];
    RestoreIsBefore(start, steps, q, m, k);
    SegmentAt(start, steps, r, n);
    CutAtRestore(start, steps, m);
    BackedIsNew(Run(start, steps[..r]), steps[r..n], e, job, a);
    forall i: nat | i <= q ensures Run(start, steps[..i]).desk.revisions.Keys <= Run(start, steps[..r]).revisions {
      KnownThen(start, steps, i, r);
    }
    assert OfNewRevision(start, steps, q, n, e.publication);
  }

  /** The restore in step `q` is at the last one before step `m`, or earlier. */
  lemma RestoreIsBefore(start: Platform, steps: seq<Step>, q: nat, m: nat, k: nat)
    requires Begins(start) && q < |steps| && m < |steps| && Restoring(Run(start, steps[..q]), steps[q])
    requires |Run(start, steps[..q + 1]).system.state.log| <= k < |Run(start, steps[..m + 1]).system.state.log|
    ensures q < Authority.LastRestore(start.system, SystemSteps(start, steps)[..m])
  {
    hide Publishing.Apply, Apply, Begins, Fits, Restoring, SystemSteps, Publishing.Calm;
    var taken := SystemSteps(start, steps);
    PartsBefore(start, steps, q + 1);
    PartsBefore(start, steps, m + 1);
    if m <= q {
      assert taken[..q + 1][..m + 1] == taken[..m + 1];
      Theorems.RunLogs(start.system, taken[..q + 1], m + 1);
    }
    BeginsFits(start);
    RunFits(start, steps[..q]);
    SystemStepAt(start, steps, q);
    RestoringIsNoCalm(Run(start, steps[..q]), steps[q]);
    assert taken[..m][..q] == taken[..q];
    Authority.RestoredByThen(start.system, taken[..m], q);
  }

  /** What is backed at the end of an undisturbed run is of a revision that was not known at its start. */
  lemma BackedIsNew(w: Platform, steps: seq<Step>, e: Publishing.Effect, job: Id, a: Id)
    requires Fits(w) && Reviews.Cut(w.desk) && Undisturbed(w, steps)
    requires Authority.Backing(Run(w, steps).system.state, e, job, a)
    ensures var u := Run(w, steps);
            && e.publication in u.system.state.db.publications
            && var b := u.system.state.db.publications[e.publication].snapshot.bundle;
               Reviews.HasRun(u.desk, b) && Reviews.RunOf(u.desk, b).revision !in w.revisions
  {
    hide Publishing.Apply, Apply, Undisturbed, View, Theorems.Sound, DesksFit, RunsKnown, RetiredSpent, Reviews.Cut,
      DeskSteps;
    var u := Run(w, steps);
    RunFits(w, steps);
    BackedIsReviewed(u.system.state, e, job, a);
    var b := u.system.state.db.publications[e.publication].snapshot.bundle;
    ReviewedIsApproved(u, u.system.state.db.publications[e.publication].snapshot);
    DeskPart(w, steps);
    Reviews.CutForever(w.desk, DeskSteps(w, steps), b);
    NewIsFresh(w, steps, Reviews.RunOf(u.desk, b).revision);
  }

  /** A revision that the desk got on the way had an identifier that was never used. */
  lemma {:induction false} NewIsFresh(w: Platform, steps: seq<Step>, r: Id)
    requires Undisturbed(w, steps) && r in Run(w, steps).desk.revisions && r !in w.desk.revisions
    ensures r !in w.revisions
  {
    hide Publishing.Apply, Restoring, DeskAfter, SystemStep;
    if steps != [] {
      var before := steps[..|steps| - 1];
      StepsBefore(w, steps, |before|);
      if r in Run(w, before).desk.revisions {
        NewIsFresh(w, before, r);
      } else {
        KnownGrows(w, before);
        assert !Restoring(Run(w, before), steps[|before|]);
        FreshRuns(Run(w, before), steps[|before|]);
      }
    }
  }

  lemma {:induction false} KnownGrows(w: Platform, steps: seq<Step>)
    ensures w.revisions <= Run(w, steps).revisions
  {
    hide Publishing.Apply, DeskAfter, SystemStep;
    if steps != [] {
      KnownGrows(w, steps[..|steps| - 1]);
    }
  }

  /** A revision at the desk after `i` steps is known after any more. */
  lemma KnownThen(start: Platform, steps: seq<Step>, i: nat, r: nat)
    requires Begins(start) && i <= r <= |steps|
    ensures Run(start, steps[..i]).desk.revisions.Keys <= Run(start, steps[..r]).revisions
  {
    hide Apply, Theorems.Sound, Synced, RunsKnown, RetiredSpent, Begins;
    BeginsFits(start);
    RunFits(start, steps[..i]);
    RunOn(start, steps[..r], i);
    assert steps[..r][..i] == steps[..i];
    KnownGrows(Run(start, steps[..i]), steps[..r][i..]);
  }

  /** A publication job that is over never waits or runs again, whatever is restored, for as long as it is in the
      tables. */
  lemma {:induction false} OverStaysOver(s: Publishing.System, steps: seq<Publishing.Step>, j: Id)
    requires Theorems.Sound(s) && j in s.state.db.jobs && !s.state.db.jobs[j].Pending()
    requires forall n: nat | n <= |steps| :: j in Publishing.Run(s, steps[..n]).state.db.jobs
    ensures j in Publishing.Run(s, steps).state.db.jobs && !Publishing.Run(s, steps).state.db.jobs[j].Pending()
  {
    hide Publishing.Apply, Theorems.Sound;
    assert steps[..|steps|] == steps;
    if steps != [] {
      var before := steps[..|steps| - 1];
      forall n: nat | n <= |before| ensures j in Publishing.Run(s, before[..n]).state.db.jobs {
        assert before[..n] == steps[..n];
      }
      OverStaysOver(s, before, j);
      Theorems.RunSound(s, before);
      OverStep(Publishing.Run(s, before), steps[|steps| - 1], j);
    }
  }

  lemma OverStep(s: Publishing.System, step: Publishing.Step, j: Id)
    requires Theorems.Sound(s) && j in s.state.db.jobs && !s.state.db.jobs[j].Pending()
    requires j in Publishing.Apply(s, step).state.db.jobs
    ensures !Publishing.Apply(s, step).state.db.jobs[j].Pending()
  {
    hide Publishing.Apply, Publishing.MayRestore, Backups.BackupsFit;
    var t := Publishing.Apply(s, step);
    if Publishing.Calm(s, step) {
      Theorems.StepSound(s, step);
      Consent.ApplyConsents(s, step);
      assert Consent.JobCarried(s.state.db, t.state.db, j);
      assert Invariant.JobSlotted(s.state, j) && Invariant.JobSlotted(t.state, j);
      SlotMoves(s, step);
    } else {
      Authority.RestoredIsSettled(s, step.n, step.world);
    }
  }

  /** The slot changes hands only by a claim, of a queued job. */
  lemma SlotMoves(s: Publishing.System, step: Publishing.Step)
    ensures var t := Publishing.Apply(s, step);
            || t.state.slot == s.state.slot || t.state.slot.None?
            || (step.Claim? && t.state.slot == Some(step.job) && step.job in s.state.db.jobs
                && s.state.db.jobs[step.job].state == QUEUED)
  {
    hide Publishing.MayRestore, Publishing.Restored;
    if step.Advance? {
      Frames.WorkInert(s, step.input);
    }
  }
}
