/** Every step of a reconciliation and of a preparation keeps the protocol's invariant. A reconciliation only looks:
    it writes nothing to the remote, and so it must conclude from one observation what the execution before it did. */
module PublicationReconcile {
  import opened Outcomes
  import opened PublicationRows
  import opened PublicationSteps
  import opened PublicationSystem
  import opened PublicationInvariant
  import opened PublicationRequests
  import opened PublicationExecution

  ghost predicate Reconciling(s: System) {
    Core(s) && Reconciles(s)
  }

  ghost predicate ReconcileFacts(s: System)
    requires Reconciles(s)
  {
    && ThreadOwns(s.state, s.thread)
    && !Engaged(s.state, Subject(s)) && !Seen(s).abandoned
    && RowTruth(s.state, Subject(s), Seen(s))
    && RemoteFits(At(s.state.remote, PlaceOf(Seen(s))))
  }

  lemma ReconcilingFacts(s: System)
    requires Reconciling(s)
    ensures ReconcileFacts(s)
  {
    assert JobSlotted(s.state, s.thread.job) && JobWanted(s.state.db, s.thread.job);
    assert RowTruth(s.state, Subject(s), Seen(s));
  }

  lemma StartMoves(s: System)
    requires Reconciles(s) && ReconcileFacts(s) && s.thread.pc.ReconcileStart?
    ensures RowMoves(s.state, Subject(s), AddAttempt(Seen(s), RECONCILE, s.thread.job))
    ensures Continues(s, s.state.(db := StartReconcile(s.state.db, Subject(s), s.thread.job)),
                      ReconcileLook(Seen(s), |Seen(s).attempts|))
  {
  }

  lemma StartKeeps(s: System, input: Input)
    requires Reconciling(s) && s.thread.pc.ReconcileStart?
    ensures Core(WorkReconcile(s, input))
  {
    hide Conditions, RowTruth;
    ReconcilingFacts(s);
    ReconcileRaised(s, false);
    StartMoves(s);
    var db := StartReconcile(s.state.db, Subject(s), s.thread.job);
    SameApprovals(s.state, db);
    RowCommit(s.state, Subject(s), AddAttempt(Seen(s), RECONCILE, s.thread.job), db);
  }

  lemma LookContinues(s: System, held: Publication, n: nat, seen: Observation)
    requires Reconciles(s) && ReconcileFacts(s) && s.thread.pc == ReconcileLook(held, n)
    requires Matches(At(s.state.remote, PlaceOf(Seen(s))), seen)
    ensures Continues(s, s.state, ReconcileSaw(held, n, seen))
  {
  }

  lemma ReconcileLookKeeps(s: System, held: Publication, n: nat, input: Input)
    requires Reconciling(s) && s.thread.pc == ReconcileLook(held, n)
    ensures Core(WorkReconcile(s, input))
  {
    ReconcilingFacts(s);
    ReconcileRaised(s, false);
    if input.Look? {
      var r := At(s.state.remote, PlaceOf(Seen(s)));
      match Observe(r, input.base, input.draft) {
        case Err(_) =>
        case Ok(seen) =>
          Looked(r, input.base, input.draft);
          LookContinues(s, held, n, seen);
      }
    }
  }

  /** The verdict of a reconciliation agrees with the remote that was read. */
  lemma TargetAgrees(s: State, id: Id, seen: Observation, approval: Option<Id>)
    requires id in s.db.publications && RowTruth(s, id, s.db.publications[id])
    requires RemoteFits(At(s.remote, PlaceOf(s.db.publications[id])))
    requires Matches(At(s.remote, PlaceOf(s.db.publications[id])), seen)
    requires CheckObservation(s.db.publications[id].snapshot, seen, false).Ok?
    requires approval.Some? ==> approval.value in s.db.approvals
    ensures var db := Remember(s.db, id, seen);
            TargetHolds(s.(db := db), id, db.publications[id], ReconcileTarget(db, id, seen, approval))
  {
  }

  lemma VerdictContinues(s: System, held: Publication, n: nat, seen: Observation)
    requires Reconciles(s) && ReconcileFacts(s) && s.thread.pc == ReconcileSaw(held, n, seen)
    ensures Continues(s, s.state.(db := Remember(s.state.db, Subject(s), seen)), AfterReconcile(s, held, n, seen))
  {
    if CheckObservation(Seen(s).snapshot, seen, false).Ok? {
      TargetAgrees(s.state, Subject(s), seen, SomeCompletable(Remember(s.state.db, Subject(s), seen), Subject(s)));
    }
  }

  lemma ReconcileSawKeeps(s: System, held: Publication, n: nat, seen: Observation, input: Input)
    requires Reconciling(s) && s.thread.pc == ReconcileSaw(held, n, seen)
    ensures Core(WorkReconcile(s, input))
  {
    ReconcilingFacts(s);
    VerdictContinues(s, held, n, seen);
    RememberKeeps(s.state, Subject(s), seen);
  }

  lemma VerdictMoves(s: System, held: Publication, n: nat, seen: Observation, target: PublicationState, db: Db)
    requires Reconciles(s) && ReconcileFacts(s) && s.thread.pc == ReconcileSettle(held, n, seen, target)
    requires n < |Seen(s).attempts| && SettleReconcile(s.state.db, Subject(s), held, target, n, seen) == Ok(db)
    ensures RowMoves(s.state, Subject(s), db.publications[Subject(s)])
    ensures !Collides(s.state.db, Subject(s), db.publications[Subject(s)])
    ensures db == s.state.db.(publications := s.state.db.publications[Subject(s) := db.publications[Subject(s)]])
    ensures Continues(s, s.state.(db := db), Finish(false))
  {
  }

  lemma ReconciledStepKeeps(s: System, held: Publication, n: nat, seen: Observation, target: PublicationState)
    requires Reconciling(s) && s.thread.pc == ReconcileSettle(held, n, seen, target) && n < |Seen(s).attempts|
    ensures Core(ReconciledStep(s, held, n, seen, target))
  {
    ReconcilingFacts(s);
    ReconcileRaised(s, false);
    match SettleReconcile(s.state.db, Subject(s), held, target, n, seen) {
      case Err(_) =>
      case Ok(db) =>
        VerdictMoves(s, held, n, seen, target, db);
        SameApprovals(s.state, db);
        RowCommit(s.state, Subject(s), db.publications[Subject(s)], db);
    }
  }

  lemma ReconcileSettleKeeps(s: System, held: Publication, n: nat, seen: Observation, target: PublicationState,
                             input: Input)
    requires Reconciling(s) && s.thread.pc == ReconcileSettle(held, n, seen, target)
    ensures Core(WorkReconcile(s, input))
  {
    if n < |Seen(s).attempts| {
      ReconciledStepKeeps(s, held, n, seen, target);
    }
  }

  lemma FailureMoves(s: System, held: Publication, n: nat, db: Db)
    requires Reconciles(s) && ReconcileFacts(s) && s.thread.pc == ReconcileFail(held, n)
    requires n < |Seen(s).attempts| && FailReconcile(s.state.db, Subject(s), held, n) == Ok(db)
    ensures RowMoves(s.state, Subject(s), db.publications[Subject(s)])
    ensures !Collides(s.state.db, Subject(s), db.publications[Subject(s)])
    ensures db == s.state.db.(publications := s.state.db.publications[Subject(s) := db.publications[Subject(s)]])
    ensures Continues(s, s.state.(db := db), Finish(false))
  {
  }

  lemma FailedStepKeeps(s: System, held: Publication, n: nat)
    requires Reconciling(s) && s.thread.pc == ReconcileFail(held, n) && n < |Seen(s).attempts|
    ensures Core(ReconcileFailedStep(s, held, n))
  {
    ReconcilingFacts(s);
    match FailReconcile(s.state.db, Subject(s), held, n) {
      case Err(_) => assert Continues(s, s.state, Finish(true));
      case Ok(db) =>
        FailureMoves(s, held, n, db);
        SameApprovals(s.state, db);
        RowCommit(s.state, Subject(s), db.publications[Subject(s)], db);
    }
  }

  lemma ReconcileFailKeeps(s: System, held: Publication, n: nat, input: Input)
    requires Reconciling(s) && s.thread.pc == ReconcileFail(held, n)
    ensures Core(WorkReconcile(s, input))
  {
    if n < |Seen(s).attempts| {
      FailedStepKeeps(s, held, n);
    }
  }

  lemma ReconcileKeeps(s: System, input: Input)
    requires Reconciling(s)
    ensures Core(WorkReconcile(s, input))
  {
    var pc := s.thread.pc;
    if pc.Claimed? {
      ClaimedKeeps(s, input);
    } else if pc.ReconcileStart? {
      StartKeeps(s, input);
    } else if pc.ReconcileLook? {
      ReconcileLookKeeps(s, pc.held, pc.index, input);
    } else if pc.ReconcileSaw? {
      ReconcileSawKeeps(s, pc.held, pc.index, pc.seen, input);
    } else if pc.ReconcileSettle? {
      ReconcileSettleKeeps(s, pc.held, pc.index, pc.seen, pc.target, input);
    } else if pc.ReconcileFail? {
      ReconcileFailKeeps(s, pc.held, pc.index, input);
    } else {
      ReconcileEndKeeps(s, input);
    }
  }

  lemma ClaimedKeeps(s: System, input: Input)
    requires Reconciling(s) && s.thread.pc.Claimed?
    ensures Core(WorkReconcile(s, input))
  {
    assert Continues(s, s.state, ReconcileStart);
  }

  lemma ReconcileEndKeeps(s: System, input: Input)
    requires Reconciling(s) && (s.thread.pc.Finish? || s.thread.pc.Close?)
    ensures Core(WorkReconcile(s, input))
  {
    EndKeepsCore(s, input);
  }

  // ---- preparation ----

  ghost predicate Preparing(s: System) {
    Core(s) && Prepares(s)
  }

  lemma SnapshotKeeps(s: System, commit: Sha)
    requires Preparing(s) && s.thread.pc.PrepareStart?
    ensures Core(SnapshotStep(s, commit))
  {
    PrepareRaised(s, false);
    assert JobRefers(s.state.db, s.state.db.jobs[s.thread.job]);
  }

  lemma LookBeforeSaveKeeps(s: System, t: Snapshot, input: Input)
    requires Preparing(s) && s.thread.pc == PrepareLook(t)
    ensures Core(LookBeforeSave(s, t, input))
  {
    PrepareRaised(s, false);
  }

  /** The new row, its run and what that run wrote before. */
  ghost predicate Addable(s: State, id: Id, b: Publication) {
    && Unused(s, id) && !Collides(s.db, id, b)
    && b.state == PENDING_APPROVAL && !b.abandoned && !b.SeenRemotely()
    && RowRefers(s.db.world, b)
    && UsesCurrentPolicy(s.db.world, b.snapshot)
    && (forall p | p in s.db.publications && s.db.publications[p].run == b.run && Wrote(s.log, p) ::
          UsesCurrentPolicy(s.db.world, s.db.publications[p].snapshot))
  }

  lemma AddedRefers(s: State, id: Id, b: Publication)
    requires Refers(s.db) && LiveUnique(s.db.publications) && AbandonedIsIdle(s.db) && Addable(s, id, b)
    ensures var db := s.db.(publications := s.db.publications[id := b]);
            Refers(db) && LiveUnique(db.publications) && AbandonedIsIdle(db)
  {
    var db := s.db.(publications := s.db.publications[id := b]);
    forall p | p in db.publications ensures RowRefers(db.world, db.publications[p]) {
      if p != id {
        assert RowRefers(s.db.world, s.db.publications[p]);
      }
    }
    forall a ensures ApprovalRefers(db, a) {
      assert ApprovalRefers(s.db, a);
    }
    forall j | j in db.jobs ensures JobRefers(db, db.jobs[j]) && JobWanted(db, j) {
      assert JobRefers(s.db, s.db.jobs[j]) && JobWanted(s.db, j);
    }
    forall i: nat ensures RecordRefers(db, i) {
      assert RecordRefers(s.db, i);
    }
    forall p ensures OnlyLive(db.publications, p) {
      assert OnlyLive(s.db.publications, p);
    }
  }

  /** No effect names a publication that does not exist yet. */
  lemma NotYetWritten(s: State, id: Id)
    requires Unused(s, id)
    ensures !Wrote(s.log, id)
  {
  }

  lemma AddedPolicies(s: State, id: Id, b: Publication)
    requires Refers(s.db) && Logged(s) && NewestWrote(s) && PreparationsFit(s) && Addable(s, id, b)
    ensures var t := s.(db := s.db.(publications := s.db.publications[id := b])); NewestWrote(t) && PreparationsFit(t)
  {
    var t := s.(db := s.db.(publications := s.db.publications[id := b]));
    NotYetWritten(s, id);
    forall p ensures NewestPolicy(t, p) {
      assert NewestPolicy(s, p);
      if p in s.db.publications && Wrote(s.log, p) && s.db.publications[p].run == b.run {
        assert RowRefers(s.db.world, s.db.publications[p]);
        assert s.db.publications[p].snapshot.policy == b.snapshot.policy;
      }
    }
    forall j | j in t.db.jobs ensures PreparationFits(t, t.db.jobs[j]) {
      assert PreparationFits(s, s.db.jobs[j]);
    }
  }

  lemma AddedRow(s: State, id: Id, b: Publication)
    requires Base(s) && Addable(s, id, b)
    ensures Base(s.(db := s.db.(publications := s.db.publications[id := b])))
  {
    var t := s.(db := s.db.(publications := s.db.publications[id := b]));
    AddedRefers(s, id, b);
    NotYetWritten(s, id);
    AddedPolicies(s, id, b);
    forall p | p in t.db.publications ensures RowTruth(t, p, t.db.publications[p]) {
      if p != id {
        assert RowTruth(s, p, s.db.publications[p]);
      }
    }
    forall i: nat ensures RecordFits(t, i) {
      assert RecordFits(s, i);
    }
    forall j ensures JobSlotted(t, j) {
      assert JobSlotted(s, j);
    }
    forall p ensures PublishingHeld(t, p) {
      assert PublishingHeld(s, p);
    }
    forall i: nat | i < |s.log| ensures EffectFits(t, s.log[i]) {
      assert EffectFits(s, s.log[i]);
    }
  }

  lemma SavedIsAddable(s: System, t: Snapshot, seen: Observation, id: Id, db: Db)
    requires Preparing(s) && s.thread.pc == PrepareSave(t, seen) && Unused(s.state, id)
    requires CreatePublication(s.state.db, s.state.db.jobs[s.thread.job].actor, id, t, seen) == Ok(db)
    ensures Addable(s.state, id, db.publications[id])
    ensures db == s.state.db.(publications := s.state.db.publications[id := db.publications[id]])
    ensures Continues(s, s.state.(db := db), Finish(false))
  {
    var job := s.state.db.jobs[s.thread.job];
    assert JobSlotted(s.state, s.thread.job) && JobRefers(s.state.db, job) && PreparationFits(s.state, job);
    assert HistoryNumbered(s.state.db.world, t.project);
  }

  lemma SaveKeeps(s: System, t: Snapshot, seen: Observation, id: Id)
    requires Preparing(s) && s.thread.pc == PrepareSave(t, seen) && Unused(s.state, id)
    ensures Core(SaveStep(s, t, seen, id))
  {
    PrepareRaised(s, false);
    match CreatePublication(s.state.db, s.state.db.jobs[s.thread.job].actor, id, t, seen) {
      case Err(_) =>
      case Ok(db) =>
        SavedIsAddable(s, t, seen, id, db);
        AddedRow(s.state, id, db.publications[id]);
    }
  }

  lemma PrepareKeeps(s: System, input: Input)
    requires Preparing(s)
    ensures Core(WorkPrepare(s, input))
  {
    var pc := s.thread.pc;
    if pc.PrepareStart? {
      if input.Prepared? {
        SnapshotKeeps(s, input.commit);
      }
    } else if pc.PrepareLook? {
      LookBeforeSaveKeeps(s, pc.prepared, input);
    } else if pc.PrepareSave? {
      if input.NewRow? && Unused(s.state, input.id) {
        SaveKeeps(s, pc.prepared, pc.seen, input.id);
      }
    } else if pc.Claimed? {
    } else {
      PrepareEndKeeps(s, input);
    }
  }

  lemma PrepareEndKeeps(s: System, input: Input)
    requires Preparing(s) && (s.thread.pc.Finish? || s.thread.pc.Close?)
    ensures Core(WorkPrepare(s, input))
  {
    EndKeepsCore(s, input);
  }
}
