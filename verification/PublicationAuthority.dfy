/** Every write that ever took effect was authorised, and an authorisation carries a whole chain of consent. */
module PublicationAuthority {
  import opened Outcomes
  import opened PublicationRows
  import opened PublicationSteps
  import opened PublicationSystem
  import opened PublicationInvariant
  import opened PublicationConsent
  import opened PublicationRuns
  import opened PublicationTheorems
  import opened PublicationFrames
  import opened PublicationBackups

  // ---- what an authorisation rests on ----

  /** From the finished run to the publication approval, everything speaks about one manifest. */
  predicate ConsentChain(db: Db, p: Id, a: Id) {
    && p in db.publications && a in db.approvals
    && var row, approval, w := db.publications[p], db.approvals[a], db.world;
       var t := row.snapshot;
       && approval.publication == p && approval.approve && approval.valid && approval.hash == Digest(t)
       && approval.actor in w.admins
       && t.run in w.runs && t.project in w.projects && t.bundle in w.bundles
       && var run, project, bundle := w.runs[t.run], w.projects[t.project], w.bundles[t.bundle];
          && run.project == t.project && run.succeeded && run.bundle == Some(t.bundle) && bundle.run == t.run
          && bundle.manifest == t.manifest && bundle.reviewed == Some(t.manifest) && bundle.current
          && bundle.verifies && bundle.complete && bundle.normal
          && bundle.tree == t.tree && ChecksSatisfied(project, run, t.tree)
          && project.active && project.head == t.baseline == bundle.baseline
          && project.enabled && |project.policies| > 0 && t.policy == Current(project.policies)
  }

  /** The thread stands before a write, and the last check grants it. */
  ghost predicate AuthorisedAt(u: System, p: Id, job: Id, write: Write) {
    && Executes(u) && u.thread == Working(job, AuthorizeStep(write)) && Subject(u) == p
    && AuthorizeWrite(u.state.db, p, Consent(u), job).Ok?
  }

  lemma AuthorisedHasConsent(u: System, p: Id, job: Id, write: Write)
    requires Sound(u) && AuthorisedAt(u, p, job, write)
    ensures u.state.slot == Some(job) && u.state.db.jobs[job].state == RUNNING
    ensures u.state.db.publications[p].state == PUBLISHING
    ensures ConsentChain(u.state.db, p, Consent(u))
    ensures Open(At(u.state.remote, PlaceOf(u.state.db.publications[p])), write,
                 u.state.db.publications[p].snapshot.commit)
  {
    assert JobSlotted(u.state, job);
    assert JobRefers(u.state.db, u.state.db.jobs[job]);
    assert RowRefers(u.state.db.world, u.state.db.publications[p]);
    AuthorisedChain(u.state.db, p, Consent(u), job);
  }

  lemma AuthorisedChain(db: Db, p: Id, a: Id, job: Id)
    requires p in db.publications && a in db.approvals && RowRefers(db.world, db.publications[p])
    requires AuthorizeWrite(db, p, a, job).Ok?
    ensures ConsentChain(db, p, a)
  {
  }

  // ---- how records and the thread move ----

  /** Records are only added by the launch of an authorised write, and only end. */
  predicate RecordKept(d: Db, e: Db, i: nat) {
    i < |d.records| ==>
      && i < |e.records| && e.records[i] == d.records[i].(ended := e.records[i].ended)
      && (d.records[i].ended ==> e.records[i].ended)
  }

  ghost predicate RecordsMove(s: System, t: System) {
    && (forall i: nat {:trigger RecordKept(s.state.db, t.state.db, i)} :: RecordKept(s.state.db, t.state.db, i))
    && (|t.state.db.records| > |s.state.db.records| ==>
          && Executes(s) && s.thread.pc.Launch? && |t.state.db.records| == |s.state.db.records| + 1
          && t.state.db.records[|s.state.db.records|] == Record(s.thread.job, Subject(s), s.thread.pc.write, false))
  }

  /** The thread reaches a launch only by an authorisation. */
  ghost predicate LaunchEarned(s: System, t: System) {
    t.thread.Working? && t.thread.pc.Launch? ==>
      || t.thread == s.thread
      || (Executes(s) && AuthorisedAt(s, Subject(s), t.thread.job, t.thread.pc.write))
  }

  ghost predicate Orderly(s: System, t: System) {
    RecordsMove(s, t) && LaunchEarned(s, t)
  }

  lemma SameRecords(s: System, t: System)
    requires t.state.db.records == s.state.db.records
    ensures RecordsMove(s, t)
  {
    forall i: nat ensures RecordKept(s.state.db, t.state.db, i) {
    }
  }

  lemma RequestKeepsRecords(db: Db, step: Step)
    ensures IsRequest(step) ==> Requested(db, step).records == db.records
  {
  }

  lemma RaisedOrderly(s: System, unknown: bool)
    requires s.thread.Working?
    ensures Orderly(s, Raised(s, unknown))
  {
    SameRecords(s, Raised(s, unknown));
  }

  lemma ReconcileOrderly(s: System, input: Input)
    requires Reconciles(s) && ThreadOwns(s.state, s.thread)
    ensures Orderly(s, WorkReconcile(s, input))
  {
    ReconcileRecords(s, input);
    SameRecords(s, WorkReconcile(s, input));
  }

  /** The records are as before and the thread did not come to a launch. */
  predicate Idles(s: System, t: System) {
    && t.state.db.records == s.state.db.records
    && (t.thread.Working? && t.thread.pc.Launch? ==> t.thread == s.thread)
  }

  lemma RaisedIdles(s: System, unknown: bool)
    requires s.thread.Working?
    ensures Idles(s, Raised(s, unknown))
  {
  }

  lemma FinishIdles(s: System, input: Input)
    requires s.thread.Working? && s.thread.job in s.state.db.jobs
    ensures Idles(s, WorkFinish(s, input))
  {
  }

  lemma ReconciledIdles(s: System, held: Publication, n: nat, seen: Observation, target: PublicationState)
    requires Reconciles(s) && n < |Seen(s).attempts|
    ensures Idles(s, ReconciledStep(s, held, n, seen, target)) && Idles(s, ReconcileFailedStep(s, held, n))
  {
    RaisedIdles(s, false);
  }

  lemma ReconcileRecords(s: System, input: Input)
    requires Reconciles(s)
    ensures Idles(s, WorkReconcile(s, input))
  {
    hide ReconciledStep, ReconcileFailedStep, WorkFinish, CheckObservation;
    RaisedIdles(s, false);
    FinishIdles(s, input);
    match s.thread.pc
    case ReconcileSettle(held, n, seen, target) =>
      if n < |Seen(s).attempts| { ReconciledIdles(s, held, n, seen, target); }
    case ReconcileFail(held, n) =>
      if n < |Seen(s).attempts| { ReconciledIdles(s, held, n, Observation(0, None, None), FAILED); }
    case _ =>
  }

  lemma PrepareRecords(s: System, input: Input)
    requires Prepares(s)
    ensures Idles(s, WorkPrepare(s, input))
  {
  }

  lemma LaunchOrderly(s: System, input: Input)
    requires Executes(s) && (s.thread.pc.AuthorizeStep? || s.thread.pc.Launch?)
    ensures Orderly(s, WorkExecute(s, input))
  {
    var t := WorkExecute(s, input);
    forall i: nat ensures RecordKept(s.state.db, t.state.db, i) {
    }
  }

  lemma StartIdles(s: System)
    requires Executes(s)
    ensures Idles(s, StartStep(s))
  {
    RaisedIdles(s, false);
  }

  lemma PublishIdles(s: System)
    requires Executes(s)
    ensures Idles(s, PublishedStep(s))
  {
    RaisedIdles(s, false);
  }

  lemma DispatchIdles(s: System, unknown: bool, dispatched: bool, write: Write)
    requires Executes(s)
    ensures Idles(s, SettledStep(s, unknown, dispatched)) && Idles(s, DispatchStep(s, write))
  {
    RaisedIdles(s, false);
  }

  lemma StartRecords(s: System, input: Input)
    requires Executes(s) && s.thread.pc.Approve?
    ensures Idles(s, WorkExecute(s, input))
  {
    StartIdles(s);
  }

  lemma PublishRecords(s: System, input: Input)
    requires Executes(s) && s.thread.pc.PublishStep?
    ensures Idles(s, WorkExecute(s, input))
  {
    hide PublishedStep, StartStep, SettledStep, DispatchStep, WorkFinish, LookFrom, ConfirmStep, LaunchStep,
      LookBeforeWrite;
    PublishIdles(s);
  }

  lemma DispatchRecords(s: System, input: Input)
    requires Executes(s) && (s.thread.pc.SettleStep? || s.thread.pc.DispatchWrite?)
    ensures Idles(s, WorkExecute(s, input))
  {
    hide DispatchStep, SettledStep;
    match s.thread.pc
    case SettleStep(unknown, dispatched) => DispatchIdles(s, unknown, dispatched, PushWrite);
    case DispatchWrite(write) => DispatchIdles(s, false, false, write);
  }

  lemma ObservationRecords(s: System, input: Input)
    requires Executes(s)
    requires !(s.thread.pc.Approve? || s.thread.pc.PublishStep? || s.thread.pc.SettleStep?
               || s.thread.pc.DispatchWrite?)
    requires !s.thread.pc.AuthorizeStep? && !s.thread.pc.Launch?
    ensures Idles(s, WorkExecute(s, input))
  {
    RaisedIdles(s, false);
    FinishIdles(s, input);
  }

  lemma WorkOrderly(s: System, input: Input)
    requires Sound(s)
    ensures Orderly(s, Work(s, input))
  {
    if !KnownJob(s) {
      SameRecords(s, s);
    } else if input.Raise? {
      RaisedOrderly(s, input.unknown);
    } else if Prepares(s) {
      PrepareRecords(s, input);
      SameRecords(s, WorkPrepare(s, input));
    } else if Reconciles(s) {
      ReconcileOrderly(s, input);
    } else if s.thread.pc.AuthorizeStep? || s.thread.pc.Launch? {
      LaunchOrderly(s, input);
    } else {
      if s.thread.pc.Approve? {
        StartRecords(s, input);
      } else if s.thread.pc.PublishStep? {
        PublishRecords(s, input);
      } else if s.thread.pc.SettleStep? || s.thread.pc.DispatchWrite? {
        DispatchRecords(s, input);
      } else {
        ObservationRecords(s, input);
      }
      SameRecords(s, WorkExecute(s, input));
    }
  }

  lemma RecoverKeepsRecords(s: State)
    ensures Recover(s).db.records == s.db.records
  {
  }

  lemma ApplyOrderly(s: System, step: Step)
    requires Sound(s) && Calm(s, step)
    ensures Orderly(s, Apply(s, step))
  {
    hide Work, Sound, Requested, Recover;
    if step.Advance? {
      WorkOrderly(s, step.input);
    } else {
      RecoverKeepsRecords(s.state);
      if IsRequest(step) {
        RequestKeepsRecords(s.state.db, step);
      }
      forall i: nat ensures RecordKept(s.state.db, Apply(s, step).state.db, i) {
      }
    }
  }

  // ---- every run ----

  /** All commands have ended, the worker does not stand before a launch, and no decision is valid. */
  ghost predicate Settled(s: System) {
    && Sound(s) && Quiet(s.state.db.records) && !(s.thread.Working? && s.thread.pc.Launch?)
    && forall a | a in s.state.db.approvals :: !s.state.db.approvals[a].valid
  }

  lemma InitialSettled(s: System)
    requires Initial(s)
    ensures Settled(s)
  {
    InitialCore(s);
  }

  /** A restore settles every system. */
  lemma RestoreSettles(s: System, n: nat, world: World)
    requires Sound(s) && MayRestore(s.state, n, world)
    ensures Settled(Apply(s, BackupRestored(n, world)))
  {
    hide Sound, MayRestore, Restored;
    StepSound(s, BackupRestored(n, world));
    RestoredIsSettled(s, n, world);
  }

  lemma RestoredIsSettled(s: System, n: nat, world: World)
    requires MayRestore(s.state, n, world)
    ensures var t := Apply(s, BackupRestored(n, world));
            && Quiet(t.state.db.records) && t.thread.Idle?
            && (forall a | a in t.state.db.approvals :: !t.state.db.approvals[a].valid)
            && (forall j | j in t.state.db.jobs :: !t.state.db.jobs[j].Pending())
            && (forall p | p in t.state.db.publications ::
                  t.state.db.publications[p].abandoned
                    || t.state.db.publications[p].state in {PUBLISHED, REJECTED, INVALIDATED, UNKNOWN})
  {
    hide Evolves, Retiring;
  }

  /** A run without restores, from a settled system. */
  ghost predicate Segment(start: System, steps: seq<Step>) {
    Settled(start) && AllCalm(start, steps)
  }

  lemma SegmentBefore(start: System, steps: seq<Step>)
    requires Segment(start, steps) && steps != []
    ensures Segment(start, steps[..|steps| - 1]) && Sound(Run(start, steps[..|steps| - 1]))
    ensures Calm(Run(start, steps[..|steps| - 1]), steps[|steps| - 1])
  {
    hide Apply, Calm, Sound;
    CalmBefore(start, steps);
    RunSound(start, steps[..|steps| - 1]);
  }

  /** What has ended stays ended. */
  lemma {:induction false} QuietStays(start: System, steps: seq<Step>, i: nat)
    requires Segment(start, steps) && i < |start.state.db.records|
    ensures i < |Run(start, steps).state.db.records| && Run(start, steps).state.db.records[i].ended
  {
    hide Apply;
    if steps != [] {
      var before := steps[..|steps| - 1];
      SegmentBefore(start, steps);
      QuietStays(start, before, i);
      ApplyOrderly(Run(start, before), steps[|steps| - 1]);
      assert RecordKept(Run(start, before).state.db, Run(start, steps).state.db, i);
    }
  }

  /** Some earlier state of the run authorised this write of this job. */
  ghost predicate WasAuthorised(start: System, steps: seq<Step>, p: Id, job: Id, write: Write) {
    exists n: nat :: n <= |steps| && AuthorisedAt(Run(start, steps[..n]), p, job, write)
  }

  lemma StillAuthorised(start: System, steps: seq<Step>, p: Id, job: Id, write: Write)
    requires steps != [] && WasAuthorised(start, steps[..|steps| - 1], p, job, write)
    ensures WasAuthorised(start, steps, p, job, write)
  {
    var before := steps[..|steps| - 1];
    var n: nat :| n <= |before| && AuthorisedAt(Run(start, before[..n]), p, job, write);
    assert before[..n] == steps[..n];
  }

  lemma JustAuthorised(start: System, steps: seq<Step>, p: Id, job: Id, write: Write)
    requires steps != [] && AuthorisedAt(Run(start, steps[..|steps| - 1]), p, job, write)
    ensures WasAuthorised(start, steps, p, job, write)
  {
  }

  /** A thread before its launch was authorised for it. */
  lemma {:induction false} LaunchWasAuthorised(start: System, steps: seq<Step>)
    requires Segment(start, steps)
    ensures var s := Run(start, steps);
            s.thread.Working? && s.thread.pc.Launch? && s.thread.job in s.state.db.jobs ==>
              WasAuthorised(start, steps, s.state.db.jobs[s.thread.job].subject, s.thread.job, s.thread.pc.write)
  {
    hide Apply;
    if steps != [] {
      var before, step := steps[..|steps| - 1], steps[|steps| - 1];
      var s, t := Run(start, before), Run(start, steps);
      SegmentBefore(start, steps);
      LaunchWasAuthorised(start, before);
      ApplyOrderly(s, step);
      if t.thread.Working? && t.thread.pc.Launch? && t.thread.job in t.state.db.jobs {
        ApplyConsents(s, step);
        assert JobCarried(s.state.db, t.state.db, t.thread.job);
        var p := t.state.db.jobs[t.thread.job].subject;
        if t.thread == s.thread {
          StillAuthorised(start, steps, p, t.thread.job, t.thread.pc.write);
        } else {
          JustAuthorised(start, steps, p, t.thread.job, t.thread.pc.write);
        }
      }
    }
  }

  lemma LaunchAuthorised(start: System, steps: seq<Step>, p: Id, job: Id, write: Write)
    requires Segment(start, steps)
    requires Executes(Run(start, steps)) && Run(start, steps).thread == Working(job, Launch(write))
             && Subject(Run(start, steps)) == p
    ensures WasAuthorised(start, steps, p, job, write)
  {
    LaunchWasAuthorised(start, steps);
  }

  /** A record of `t` was there one step before, or a launch added it. */
  lemma RecordOrigin(s: System, t: System, i: nat)
    requires Orderly(s, t) && i < |t.state.db.records|
    ensures var record := t.state.db.records[i];
            if i < |s.state.db.records|
            then record == s.state.db.records[i].(ended := record.ended)
            else
              && Executes(s) && s.thread == Working(record.job, Launch(record.write))
              && Subject(s) == record.publication
  {
    assert RecordKept(s.state.db, t.state.db, i);
  }

  lemma RunOrigin(start: System, steps: seq<Step>, i: nat)
    requires Segment(start, steps) && steps != [] && i < |Run(start, steps).state.db.records|
    ensures var s, record := Run(start, steps[..|steps| - 1]), Run(start, steps).state.db.records[i];
            if i < |s.state.db.records|
            then record == s.state.db.records[i].(ended := record.ended)
            else
              && Executes(s) && s.thread == Working(record.job, Launch(record.write))
              && Subject(s) == record.publication
  {
    hide Apply;
    var before := steps[..|steps| - 1];
    SegmentBefore(start, steps);
    ApplyOrderly(Run(start, before), steps[|steps| - 1]);
    RecordOrigin(Run(start, before), Run(start, steps), i);
  }

  /** Every process that may write was authorised before it was launched. */
  lemma {:induction false} RecordWasAuthorised(start: System, steps: seq<Step>, i: nat, p: Id, job: Id, write: Write)
    requires Segment(start, steps) && |start.state.db.records| <= i < |Run(start, steps).state.db.records|
    requires Run(start, steps).state.db.records[i] == Record(job, p, write, Run(start, steps).state.db.records[i].ended)
    ensures WasAuthorised(start, steps, p, job, write)
  {
    hide Apply;
    if steps != [] {
      var before := steps[..|steps| - 1];
      SegmentBefore(start, steps);
      RunOrigin(start, steps, i);
      if i < |Run(start, before).state.db.records| {
        RecordWasAuthorised(start, before, i, p, job, write);
      } else {
        LaunchAuthorised(start, before, p, job, write);
      }
      StillAuthorised(start, steps, p, job, write);
    }
  }

  /** A publication keeps its snapshot from an earlier state of the run to the last. */
  lemma {:induction false} SameLater(start: System, steps: seq<Step>, n: nat, p: Id)
    requires Segment(start, steps) && n <= |steps| && p in Run(start, steps[..n]).state.db.publications
    ensures p in Run(start, steps).state.db.publications
    ensures Run(start, steps[..n]).state.db.publications[p].SameTarget(Run(start, steps).state.db.publications[p])
  {
    hide Apply;
    if n == |steps| {
      assert steps[..n] == steps;
    } else {
      var before := steps[..|steps| - 1];
      assert before[..n] == steps[..n];
      SegmentBefore(start, steps);
      SameLater(start, before, n, p);
      ApplyConsents(Run(start, before), steps[|steps| - 1]);
      assert RowCarried(Run(start, before).state.db, Run(start, steps).state.db, p);
    }
  }

  /** State `u` holds the lease of a job with an approval of this effect, and the whole chain behind it. */
  predicate Backing(u: State, e: Effect, job: Id, a: Id) {
    && u.slot == Some(job) && job in u.db.jobs && u.db.jobs[job].approval == Some(a)
    && ConsentChain(u.db, e.publication, a) && EffectOf(e, u.db.publications[e.publication])
  }

  lemma AuthorisedBacks(u: System, e: Effect, job: Id)
    requires Sound(u) && AuthorisedAt(u, e.publication, job, e.write)
             && EffectOf(e, u.state.db.publications[e.publication])
    ensures Backing(u.state, e, job, Consent(u))
  {
    AuthorisedHasConsent(u, e.publication, job, e.write);
  }

  /** The open command `i` would have this effect. */
  predicate Aims(db: Db, i: nat, e: Effect) {
    && i < |db.records| && !db.records[i].ended
    && e.publication == db.records[i].publication && e.write == db.records[i].write
    && e.publication in db.publications && EffectOf(e, db.publications[e.publication])
  }

  /** The write of every open command was authorised, earlier in the same run, under the lease of its job and with the
      whole chain of consent on the manifest of its snapshot. */
  lemma OpenCommandBacked(start: System, steps: seq<Step>, i: nat, e: Effect) returns (n: nat, job: Id, a: Id)
    requires Segment(start, steps) && Aims(Run(start, steps).state.db, i, e)
    ensures n <= |steps| && Backing(Run(start, steps[..n]).state, e, job, a)
  {
    hide Apply;
    var record := Run(start, steps).state.db.records[i];
    if i < |start.state.db.records| {
      QuietStays(start, steps, i);
    }
    RecordWasAuthorised(start, steps, i, record.publication, record.job, record.write);
    job := record.job;
    n :| n <= |steps| && AuthorisedAt(Run(start, steps[..n]), record.publication, job, record.write);
    var u := Run(start, steps[..n]);
    a := Consent(u);
    SameLater(start, steps, n, e.publication);
    RunSound(start, steps[..n]);
    AuthorisedBacks(u, e, job);
  }

  // ---- every run, with its restores ----

  /** The number of steps up to the last one that restored a backup. */
  ghost function LastRestore(start: System, steps: seq<Step>): (r: nat)
    ensures r <= |steps|
  {
    if steps == [] then 0
    else if Calm(Run(start, steps[..|steps| - 1]), steps[|steps| - 1]) then LastRestore(start, steps[..|steps| - 1])
    else |steps|
  }

  lemma {:induction false} RunOn(start: System, steps: seq<Step>, n: nat)
    requires n <= |steps|
    ensures Run(start, steps) == Run(Run(start, steps[..n]), steps[n..])
  {
    hide Apply;
    if n == |steps| {
      assert steps[..n] == steps && steps[n..] == [];
    } else {
      var before := steps[..|steps| - 1];
      RunOn(start, before, n);
      assert before[..n] == steps[..n];
      assert before[n..] == steps[n..][..|steps| - n - 1];
    }
  }

  lemma {:induction false} LastIsRestore(start: System, steps: seq<Step>)
    ensures var r := LastRestore(start, steps); r > 0 ==> !Calm(Run(start, steps[..r - 1]), steps[r - 1])
  {
    hide Apply, Calm;
    var r := LastRestore(start, steps);
    if 0 < r < |steps| {
      var before := steps[..|steps| - 1];
      LastIsRestore(start, before);
      assert before[..r - 1] == steps[..r - 1];
    }
  }

  lemma CalmAfter(start: System, steps: seq<Step>, step: Step)
    requires AllCalm(start, steps) && Calm(Run(start, steps), step)
    ensures AllCalm(start, steps + [step])
  {
    hide Apply, Calm;
    var after := steps + [step];
    forall n: nat | n < |after| ensures Calm(Run(start, after[..n]), after[n]) {
      assert after[..n] == steps[..n];
      assert n == |steps| ==> after[..n] == steps;
    }
  }

  /** What follows the last restore is a run without restores from a settled system. */
  lemma {:induction false} SinceRestore(start: System, steps: seq<Step>)
    requires Initial(start)
    ensures var r := LastRestore(start, steps); Segment(Run(start, steps[..r]), steps[r..])
  {
    hide Apply, Settled, Calm;
    var r := LastRestore(start, steps);
    if steps == [] {
      InitialSettled(start);
    } else if r == |steps| {
      var before, step := steps[..|steps| - 1], steps[|steps| - 1];
      assert steps[..r] == steps && steps[r..] == [];
      if !Calm(Run(start, before), step) {
        RestoreIsSettled(start, before, step);
      }
    } else {
      var before := steps[..|steps| - 1];
      SinceRestore(start, before);
      RunOn(start, before, r);
      CalmAfter(Run(start, before[..r]), before[r..], steps[|steps| - 1]);
      assert before[..r] == steps[..r] && before[r..] + [steps[|steps| - 1]] == steps[r..];
    }
  }

  lemma RestoreIsSettled(start: System, before: seq<Step>, step: Step)
    requires Initial(start) && !Calm(Run(start, before), step)
    ensures Settled(Apply(Run(start, before), step))
  {
    hide Apply, Settled, MayRestore;
    ReachedSound(start, before);
    RestoreSettles(Run(start, before), step.n, step.world);
  }

  /** Every restore is at the last one or before it. */
  lemma {:induction false} RestoredByThen(start: System, steps: seq<Step>, q: nat)
    requires q < |steps| && !Calm(Run(start, steps[..q]), steps[q])
    ensures q < LastRestore(start, steps)
  {
    hide Apply, Calm;
    var before := steps[..|steps| - 1];
    if q < |before| {
      assert before[..q] == steps[..q];
      RestoredByThen(start, before, q);
    }
  }

  /** Only an open command adds to the log. */
  lemma EffectIsNew(s: System, step: Step, k: nat)
    requires |s.state.log| <= k < |Apply(s, step).state.log|
    ensures k == |s.state.log| && step.WriteLands? && Aims(s.state.db, step.record, Apply(s, step).state.log[k])
  {
    hide Work;
    if !step.WriteLands? {
      OnlyLandingTouches(s, step);
    }
  }

  /** The step in which an effect was logged. */
  lemma {:induction false} EffectOrigin(start: System, steps: seq<Step>, k: nat) returns (m: nat, i: nat)
    requires |start.state.log| <= k < |Run(start, steps).state.log|
    ensures m < |steps| && |Run(start, steps[..m]).state.log| == k < |Run(start, steps[..m + 1]).state.log|
    ensures Aims(Run(start, steps[..m]).state.db, i, Run(start, steps).state.log[k])
  {
    hide Apply, Aims;
    var before, step := steps[..|steps| - 1], steps[|steps| - 1];
    var s := Run(start, before);
    if k < |s.state.log| {
      m, i := EffectOrigin(start, before, k);
      assert before[..m] == steps[..m] && before[..m + 1] == steps[..m + 1];
      LogGrows(s, step);
    } else {
      EffectIsNew(s, step, k);
      m, i := |before|, step.record;
      assert steps[..m + 1] == steps;
    }
  }

  /** The effect was logged in step `m`; the last restore before ended after `r` steps, and after `n` steps the write
      was backed. */
  lemma EffectBacked(start: System, steps: seq<Step>, k: nat) returns (r: nat, n: nat, m: nat, job: Id, a: Id)
    requires Initial(start) && k < |Run(start, steps).state.log|
    ensures r <= n <= m < |steps| && r == LastRestore(start, steps[..m])
    ensures Segment(Run(start, steps[..r]), steps[r..n])
    ensures |Run(start, steps[..m]).state.log| == k < |Run(start, steps[..m + 1]).state.log|
    ensures Backing(Run(start, steps[..n]).state, Run(start, steps).state.log[k], job, a)
  {
    hide Apply, Aims, Backing, Settled;
    var i: nat, late: nat;
    m, i := EffectOrigin(start, steps, k);
    var before := steps[..m];
    r := LastRestore(start, before);
    SinceRestore(start, before);
    RunOn(start, before, r);
    late, job, a := OpenCommandBacked(Run(start, before[..r]), before[r..], i, Run(start, steps).state.log[k]);
    n := r + late;
    RunOn(start, steps[..n], r);
    assert steps[..n][..r] == before[..r] == steps[..r] && before[r..][..late] == steps[..n][r..] == steps[r..n];
    CalmPrefix(Run(start, before[..r]), before[r..], late);
  }

  lemma CalmPrefix(start: System, steps: seq<Step>, n: nat)
    requires AllCalm(start, steps) && n <= |steps|
    ensures AllCalm(start, steps[..n])
  {
    hide Apply, Calm;
    forall m: nat | m < n ensures Calm(Run(start, steps[..n][..m]), steps[..n][m]) {
      assert steps[..n][..m] == steps[..m];
    }
  }

  /** In every run, restores of old backups included: every push and every pull request that took effect was authorised,
      before it took effect, under the lease of its job and with the whole chain of consent on the manifest of its
      snapshot. */
  lemma EveryEffectHadConsent(start: System, steps: seq<Step>, k: nat)
    requires Initial(start) && k < |Run(start, steps).state.log|
    ensures exists n: nat, job: Id, a: Id :: n <= |steps| && |Run(start, steps[..n]).state.log| <= k
              && Backing(Run(start, steps[..n]).state, Run(start, steps).state.log[k], job, a)
  {
    hide Apply, Backing, Segment;
    var r, n, m, job, a := EffectBacked(start, steps, k);
    assert steps[..m][..n] == steps[..n];
    RunLogs(start, steps[..m], n);
    assert Backing(Run(start, steps[..n]).state, Run(start, steps).state.log[k], job, a);
  }

  // ---- when an approval was given ----

  /** An administrator of now gives approval `a` to exactly this snapshot, and everything it rests on holds now. */
  ghost predicate Gives(s: System, step: Step, a: Id, p: Id, actor: Id) {
    && a !in s.state.db.approvals && a in Apply(s, step).state.db.approvals
    && p in s.state.db.publications
    && Conditions(s.state.db.world, actor, s.state.db.publications[p].run,
                  Some(s.state.db.publications[p].snapshot)).Ok?
  }

  lemma DecisionGives(db: Db, step: Step, a: Id)
    requires IsRequest(step) && a in Requested(db, step).approvals && a !in db.approvals
             && Requested(db, step).approvals[a].approve
    ensures var approval := Requested(db, step).approvals[a];
            && approval.publication in db.publications
            && Conditions(db.world, approval.actor, db.publications[approval.publication].run,
                          Some(db.publications[approval.publication].snapshot)).Ok?
  {
    hide Conditions, Collides, RecoveryReady, LiveJobs;
  }

  lemma ApprovalOrigin(s: System, step: Step, a: Id)
    requires Calm(s, step) && a in Apply(s, step).state.db.approvals && a !in s.state.db.approvals
    requires Apply(s, step).state.db.approvals[a].approve
    ensures var approval := Apply(s, step).state.db.approvals[a]; Gives(s, step, a, approval.publication,
              approval.actor)
  {
    hide Work, Conditions;
    if step.Advance? {
      WorkInert(s, step.input);
    } else if step.RecoverStale? {
      RecoverInert(s.state);
    } else if IsRequest(step) {
      DecisionGives(s.state.db, step, a);
    }
  }

  /** Every valid approval was given in an earlier step of the run, by a then-administrator, on the result as it was
      then. */
  lemma {:induction false} ApprovalWasGiven(start: System, steps: seq<Step>, a: Id) returns (m: nat)
    requires Segment(start, steps) && a in Run(start, steps).state.db.approvals
    requires Run(start, steps).state.db.approvals[a].approve && Run(start, steps).state.db.approvals[a].valid
    ensures var approval := Run(start, steps).state.db.approvals[a];
            m < |steps| && Gives(Run(start, steps[..m]), steps[m], a, approval.publication, approval.actor)
  {
    hide Apply, Gives, Sound, Calm;
    var before := steps[..|steps| - 1];
    var s := Run(start, before);
    SegmentBefore(start, steps);
    if a in s.state.db.approvals {
      StepCarries(s, steps[|steps| - 1], a);
      m := ApprovalWasGiven(start, before, a);
      assert before[..m] == steps[..m];
    } else {
      ApprovalOrigin(s, steps[|steps| - 1], a);
      m := |steps| - 1;
    }
  }

  lemma StepCarries(s: System, step: Step, a: Id)
    requires Sound(s) && Calm(s, step)
    ensures ApprovalCarried(s.state.db, Apply(s, step).state.db, a)
  {
    hide Apply, Calm;
    ApplyConsents(s, step);
  }
}
