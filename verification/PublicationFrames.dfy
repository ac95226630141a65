/** What each step leaves alone: the remote, the rows of the other components, identifiers, and the backups. */
module PublicationFrames {
  import opened Outcomes
  import opened PublicationRows
  import opened PublicationSteps
  import opened PublicationSystem

  /** The remote and its history are as before. */
  predicate Untouched(s: System, t: System) {
    t.state.remote == s.state.remote && t.state.log == s.state.log
  }

  /** A branch that exists never moves, and pull requests are only added. */
  predicate Grown(before: Remote, after: Remote) {
    (before.branch.Some? ==> after.branch == before.branch) && before.prs <= after.prs
  }

  /** Some result of this run is current. */
  predicate CurrentRun(w: World, run: Id) {
    exists b | b in w.bundles :: w.bundles[b].run == run && w.bundles[b].current
  }

  /** A row that was not there has an identifier that was never used, and belongs to a run with a current result. */
  predicate FreshRow(s: State, t: State, p: Id) {
    p in t.db.publications && p !in s.db.publications ==>
      Unused(s, p) && CurrentRun(s.db.world, t.db.publications[p].run)
  }

  ghost predicate NewRows(s: State, t: State) {
    forall p {:trigger FreshRow(s, t, p)} :: FreshRow(s, t, p)
  }

  /** A step of the worker alone: neither the remote nor the rows of the other components change, nobody decides, and
      the slot is kept or freed. */
  ghost predicate Inert(s: System, t: System) {
    && Untouched(s, t) && t.state.backups == s.state.backups
    && t.state.db.world == s.state.db.world && t.state.db.approvals.Keys == s.state.db.approvals.Keys
    && (t.state.slot == s.state.slot || t.state.slot.None?)
    && NewRows(s.state, t.state)
  }

  lemma RecoverInert(s: State)
    ensures Recover(s).db.world == s.db.world && Recover(s).db.approvals.Keys == s.db.approvals.Keys
    ensures Recover(s).db.publications.Keys == s.db.publications.Keys && Recover(s).backups == s.backups
  {
  }

  lemma TransitionInert(s: System, input: Input)
    requires Executes(s) && (s.thread.pc.Approve? || s.thread.pc.PublishStep? || s.thread.pc.SettleStep?
                             || s.thread.pc.DispatchWrite?)
    ensures Inert(s, WorkExecute(s, input))
  {
    hide Conditions, Collides;
  }

  lemma ObservationInert(s: System, input: Input)
    requires Executes(s)
    requires s.thread.pc.FirstLook? || s.thread.pc.LookBack? || s.thread.pc.PrLook? || s.thread.pc.FinalLook?
             || s.thread.pc.InnerLook?
             || s.thread.pc.FirstSaw? || s.thread.pc.SawBack? || s.thread.pc.PrSaw? || s.thread.pc.FinalSaw?
    ensures Inert(s, WorkExecute(s, input))
  {
    hide CheckObservation, Conditions, Complete;
  }

  lemma MoveInert(s: System, input: Input)
    requires Executes(s)
    requires s.thread.pc.Claimed? || s.thread.pc.Begin? || s.thread.pc.AuthorizeStep? || s.thread.pc.Launch?
             || s.thread.pc.Wait? || s.thread.pc.Confirm? || !InTry(s.thread.pc)
    requires !s.thread.pc.SettleStep?
    ensures Inert(s, WorkExecute(s, input))
  {
    hide Conditions, CurrentApproval, CheckObservation, Observe;
  }

  lemma ExecuteInert(s: System, input: Input)
    requires Executes(s)
    ensures Inert(s, WorkExecute(s, input))
  {
    var pc := s.thread.pc;
    if pc.Approve? || pc.PublishStep? || pc.SettleStep? || pc.DispatchWrite? {
      TransitionInert(s, input);
    } else if pc.AuthorizeStep? || pc.Launch? || pc.Wait? || pc.Confirm? || !InTry(pc) {
      MoveInert(s, input);
    } else {
      ObservationInert(s, input);
    }
  }

  lemma ReconciledInert(s: System, held: Publication, n: nat, seen: Observation, target: PublicationState)
    requires Reconciles(s) && n < |Seen(s).attempts|
    ensures Inert(s, ReconciledStep(s, held, n, seen, target)) && Inert(s, ReconcileFailedStep(s, held, n))
  {
  }

  lemma FinishInert(s: System, input: Input)
    requires s.thread.Working? && s.thread.job in s.state.db.jobs
    ensures Inert(s, WorkFinish(s, input))
  {
  }

  lemma ReconcileInert(s: System, input: Input)
    requires Reconciles(s)
    ensures Inert(s, WorkReconcile(s, input))
  {
    hide ReconciledStep, ReconcileFailedStep, WorkFinish, CheckObservation;
    FinishInert(s, input);
    match s.thread.pc
    case ReconcileSettle(held, n, seen, target) =>
      if n < |Seen(s).attempts| { ReconciledInert(s, held, n, seen, target); }
    case ReconcileFail(held, n) =>
      if n < |Seen(s).attempts| { ReconciledInert(s, held, n, Observation(0, None, None), FAILED); }
    case _ =>
  }

  /** The guard passes only while a result of the run is current. */
  lemma CreatedRow(db: Db, actor: Id, id: Id, snapshot: Snapshot, seen: Observation)
    requires id !in db.publications && CreatePublication(db, actor, id, snapshot, seen).Ok?
    ensures CurrentRun(db.world, snapshot.run)
    ensures var e := CreatePublication(db, actor, id, snapshot, seen).value;
            && e == db.(publications := e.publications) && e.publications.Keys == db.publications.Keys + {id}
            && e.publications[id].run == snapshot.run
  {
  }

  lemma SaveInert(s: System, t: Snapshot, seen: Observation, id: Id)
    requires Prepares(s) && Unused(s.state, id)
    ensures Inert(s, SaveStep(s, t, seen, id))
  {
    hide CreatePublication;
    var actor := s.state.db.jobs[s.thread.job].actor;
    if CreatePublication(s.state.db, actor, id, t, seen).Ok? {
      CreatedRow(s.state.db, actor, id, t, seen);
    }
  }

  lemma PrepareInert(s: System, input: Input)
    requires Prepares(s)
    ensures Inert(s, WorkPrepare(s, input))
  {
    hide SaveStep, WorkFinish, Conditions, CheckObservation;
    FinishInert(s, input);
    match s.thread.pc
    case PrepareSave(t, seen) => if input.NewRow? && Unused(s.state, input.id) { SaveInert(s, t, seen, input.id); }
    case _ =>
  }

  lemma WorkInert(s: System, input: Input)
    ensures Inert(s, Work(s, input))
  {
    if KnownJob(s) && !input.Raise? {
      match s.state.db.jobs[s.thread.job].kind
      case PREPARE => PrepareInert(s, input);
      case EXECUTE => ExecuteInert(s, input);
      case RECONCILE_JOB => ReconcileInert(s, input);
    }
  }

  /** Only a write command that lands changes the remote. */
  lemma OnlyLandingTouches(s: System, step: Step)
    requires !step.WriteLands?
    ensures Untouched(s, Apply(s, step))
  {
    if step.Advance? {
      WorkInert(s, step.input);
    }
  }

  lemma LandFrames(s: State, i: nat)
    ensures Land(s, i) == s.(remote := Land(s, i).remote, landed := Land(s, i).landed, log := Land(s, i).log)
  {
  }

  /** The rows of results and accounts change outside the publication services only. */
  lemma OthersStay(s: System, step: Step)
    requires !step.WorldChange? && !step.BackupRestored?
    ensures Apply(s, step).state.db.world == s.state.db.world.(projects := Apply(s, step).state.db.world.projects)
  {
    hide Work, Recover, Land, Requested;
    LandFrames(s.state, if step.WriteLands? then step.record else 0);
    if step.Advance? {
      WorkInert(s, step.input);
    } else if step.RecoverStale? {
      RecoverInert(s.state);
    } else if IsRequest(step) {
      RequestLeaves(s.state.db, step);
    }
  }

  lemma RequestLeaves(db: Db, step: Step)
    requires IsRequest(step) && !step.WorldChange?
    ensures Requested(db, step).world == db.world.(projects := Requested(db, step).world.projects)
    ensures Requested(db, step).publications.Keys == db.publications.Keys
  {
    hide Conditions;
  }

  /** No step but a restore changes which runs are retired or drops a backup, and rows are new only as said above. */
  lemma CalmFrames(s: System, step: Step)
    requires Calm(s, step)
    ensures var t := Apply(s, step);
            && t.state.db.world.retired == s.state.db.world.retired && NewRows(s.state, t.state)
            && (!step.BackupTaken? ==> t.state.backups == s.state.backups)
  {
    hide Work, Recover, Land, MayRestore;
    LandFrames(s.state, if step.WriteLands? then step.record else 0);
    if step.Advance? {
      WorkInert(s, step.input);
    } else if step.RecoverStale? {
      RecoverInert(s.state);
    } else if IsRequest(step) && !step.WorldChange? {
      RequestLeaves(s.state.db, step);
    }
  }
}
