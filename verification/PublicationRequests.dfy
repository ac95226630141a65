/** Every web request, policy change, revocation and interruption keeps the protocol's invariant. These transactions
    may fall between any two steps of the worker, so each is shown to leave alone what the worker relies on, or to
    make the worker's next transaction fail. */
module PublicationRequests {
  import opened Outcomes
  import opened PublicationRows
  import opened PublicationSteps
  import opened PublicationSystem
  import opened PublicationInvariant

  lemma SameRows(s: State)
    requires Truthful(s)
    ensures RowsMove(s, s.db.publications) && Steady(s, s.db.publications)
  {
    forall p | p in s.db.publications ensures RowMoves(s, p, s.db.publications[p]) {
      assert RowTruth(s, p, s.db.publications[p]);
    }
  }

  /** One row moves. */
  lemma OneRow(s: State, id: Id, b: Publication)
    requires Truthful(s) && LiveUnique(s.db.publications)
    requires id in s.db.publications && RowMoves(s, id, b)
    requires b.Live() && !s.db.publications[id].Live() ==> !Collides(s.db, id, b)
    ensures RowsMove(s, s.db.publications[id := b])
    ensures LiveUnique(s.db.publications[id := b])
    ensures RowSteady(s, id, b) ==> Steady(s, s.db.publications[id := b])
  {
    var rows := s.db.publications[id := b];
    forall p | p in s.db.publications ensures RowMoves(s, p, rows[p]) {
      assert RowTruth(s, p, s.db.publications[p]);
    }
    forall p ensures OnlyLive(rows, p) {
      assert OnlyLive(s.db.publications, p) && OnlyLive(s.db.publications, id);
    }
  }

  lemma SameApprovals(s: State, db: Db)
    requires Refers(s.db) && db.approvals == s.db.approvals && db.publications.Keys == s.db.publications.Keys
    ensures ApprovalsGrow(s.db.approvals, db)
  {
    forall a ensures ApprovalKept(s.db.approvals, db, a) && ApprovalRefers(db, a) {
      assert ApprovalRefers(s.db, a);
    }
  }

  lemma Withdrawn(s: State, db: Db, ids: set<Id>)
    requires Refers(s.db)
    requires db.publications.Keys == s.db.publications.Keys && db.approvals == Withdraw(s.db.approvals, ids)
    ensures ApprovalsGrow(s.db.approvals, db)
  {
    forall a ensures ApprovalKept(s.db.approvals, db, a) && ApprovalRefers(db, a) {
      assert ApprovalRefers(s.db, a);
    }
  }

  lemma Decided(s: State, db: Db, id: Id, a: Id, approvals: map<Id, Approval>)
    requires Refers(s.db) && id in s.db.publications && a !in s.db.approvals
    requires db.publications.Keys == s.db.publications.Keys
    requires approvals == s.db.approvals || approvals == Withdraw(s.db.approvals, {id})
    requires a in db.approvals && db.approvals == approvals[a := db.approvals[a]] && db.approvals[a].publication == id
    ensures ApprovalsGrow(s.db.approvals, db)
  {
    forall b ensures ApprovalKept(s.db.approvals, db, b) && ApprovalRefers(db, b) {
      assert ApprovalRefers(s.db, b);
    }
  }

  lemma SameJobs(s: State, db: Db)
    requires db.jobs == s.db.jobs
    ensures JobsGrow(s, db)
  {
    forall j ensures JobKept(s, db, j) {
    }
  }

  lemma OneJob(s: State, db: Db, j: Id)
    requires j !in s.db.jobs && j in db.jobs && db.jobs == s.db.jobs[j := db.jobs[j]]
    requires Enqueues(s, db, db.jobs[j])
    ensures JobsGrow(s, db)
  {
    forall k ensures JobKept(s, db, k) {
    }
  }

  // ---- the requests ----

  /** The guard refuses retired runs. */
  lemma PreparedIsNew(w: World, actor: Id, run: Id)
    requires RetiredStale(w) && Conditions(w, actor, run, None).Ok?
    ensures run !in w.retired
  {
  }

  lemma PrepareRequested(s: State, actor: Id, run: Id, job: Id)
    requires Base(s) && job !in s.db.jobs && RequestPrepare(s.db, actor, run, job).Ok?
    ensures Request(s, RequestPrepare(s.db, actor, run, job).value)
  {
    var db := RequestPrepare(s.db, actor, run, job).value;
    SameRows(s);
    SameApprovals(s, db);
    PreparedIsNew(s.db.world, actor, run);
    forall p | p in s.db.publications && s.db.publications[p].run == run ensures !Wrote(s.log, p) {
      assert RowTruth(s, p, s.db.publications[p]);
    }
    OneJob(s, db, job);
  }

  lemma DecisionRequested(s: State, actor: Id, id: Id, hash: Digest, approve: bool, approval: Id, job: Id)
    requires Base(s) && job !in s.db.jobs && approval !in s.db.approvals
    requires Decide(s.db, actor, id, hash, approve, approval, job).Ok?
    ensures Request(s, Decide(s.db, actor, id, hash, approve, approval, job).value)
  {
    hide Conditions;
    var db := Decide(s.db, actor, id, hash, approve, approval, job).value;
    var row := s.db.publications[id];
    assert RowTruth(s, id, row);
    OneRow(s, id, row.(state := if approve then APPROVED else REJECTED, version := row.version + 1));
    Decided(s, db, id, approval, s.db.approvals);
    if approve {
      OneJob(s, db, job);
    } else {
      SameJobs(s, db);
    }
  }

  lemma ReconcileRequested(s: State, actor: Id, id: Id, job: Id)
    requires Base(s) && job !in s.db.jobs && RequestReconcile(s.db, actor, id, job).Ok?
    ensures Request(s, RequestReconcile(s.db, actor, id, job).value)
  {
    var db := RequestReconcile(s.db, actor, id, job).value;
    SameRows(s);
    SameApprovals(s, db);
    OneJob(s, db, job);
  }

  lemma RecoveryRequested(s: State, actor: Id, id: Id, hash: Digest, remaining: bool, approval: Id, job: Id)
    requires Base(s) && job !in s.db.jobs && approval !in s.db.approvals
    requires ApproveRecovery(s.db, actor, id, hash, remaining, approval, job).Ok?
    ensures Request(s, ApproveRecovery(s.db, actor, id, hash, remaining, approval, job).value)
  {
    hide Conditions;
    var db := ApproveRecovery(s.db, actor, id, hash, remaining, approval, job).value;
    var row := s.db.publications[id];
    assert RowTruth(s, id, row);
    OneRow(s, id, row.(state := APPROVED, version := row.version + 1));
    Decided(s, db, id, approval, Withdraw(s.db.approvals, {id}));
    OneJob(s, db, job);
  }

  lemma AbandonRequested(s: State, actor: Id, id: Id, hash: Digest)
    requires Base(s) && Abandon(s.db, actor, id, hash).Ok?
    ensures Request(s, Abandon(s.db, actor, id, hash).value)
  {
    var db := Abandon(s.db, actor, id, hash).value;
    var row := s.db.publications[id];
    assert RowTruth(s, id, row);
    OneRow(s, id, row.(abandoned := true, version := row.version + 1));
    Withdrawn(s, db, {id});
    SameJobs(s, db);
  }

  /** An invalidated row still tells the truth. */
  lemma InvalidatedMoves(s: State, p: Id)
    requires p in s.db.publications && RowTruth(s, p, s.db.publications[p])
    requires s.db.publications[p].state !in {PUBLISHED, PUBLISHING, REJECTED, INVALIDATED}
    ensures RowMoves(s, p, InvalidatedRow(s.db.publications[p]))
    ensures RowSteady(s, p, InvalidatedRow(s.db.publications[p]))
  {
  }

  lemma InterruptionRequested(s: State, job: Id)
    requires Refers(s.db) && Truthful(s) && LiveUnique(s.db.publications) && job in s.db.jobs
             && MarkInterrupted(s.db, job).Ok?
    ensures Request(s, MarkInterrupted(s.db, job).value)
  {
    var db := MarkInterrupted(s.db, job).value;
    SameJobs(s, db);
    if db == s.db {
      SameRows(s);
      SameApprovals(s, db);
    } else {
      InterruptedRows(s, job);
      Withdrawn(s, db, {s.db.jobs[job].subject});
    }
  }

  lemma InterruptedRows(s: State, job: Id)
    requires Truthful(s) && LiveUnique(s.db.publications) && job in s.db.jobs && MarkInterrupted(s.db, job).Ok?
    requires MarkInterrupted(s.db, job).value != s.db
    ensures var rows := MarkInterrupted(s.db, job).value.publications;
            RowsMove(s, rows) && LiveUnique(rows) && Steady(s, rows)
  {
    hide Wrote, Delivered;
    var id := s.db.jobs[job].subject;
    var row := s.db.publications[id];
    assert RowTruth(s, id, row);
    if row.state in {PUBLISHING, UNKNOWN} || Dispatched(row, job) {
      OneRow(s, id, row.(state := UNKNOWN, reconciled := false, version := row.version + 1));
    } else {
      InvalidatedMoves(s, id);
      OneRow(s, id, InvalidatedRow(row));
    }
  }

  /** After an interruption nothing is PUBLISHING under the interrupted job. */
  lemma InterruptionSettles(s: State, job: Id)
    requires Truthful(s) && job in s.db.jobs && MarkInterrupted(s.db, job).Ok?
    requires s.db.jobs[job].subject in s.db.publications && s.db.jobs[job].kind != PREPARE
    ensures s.db.jobs[job].subject in MarkInterrupted(s.db, job).value.publications
    ensures MarkInterrupted(s.db, job).value.publications[s.db.jobs[job].subject].state != PUBLISHING
    ensures MarkInterrupted(s.db, job).value.jobs == s.db.jobs
    ensures MarkInterrupted(s.db, job).value.records == s.db.records
  {
    var row := s.db.publications[s.db.jobs[job].subject];
    assert RowTruth(s, s.db.jobs[job].subject, row);
  }

  lemma RevokedMoves(s: State, p: Id)
    requires p in s.db.publications && RowTruth(s, p, s.db.publications[p])
    ensures RowMoves(s, p, RevokedRow(s.db.publications[p]))
    ensures RowSteady(s, p, RevokedRow(s.db.publications[p]))
    ensures RevokedRow(s.db.publications[p]).Live() ==> s.db.publications[p].Live()
  {
    if s.db.publications[p].state !in {PUBLISHED, PUBLISHING, REJECTED, INVALIDATED} {
      InvalidatedMoves(s, p);
    }
  }

  lemma RevokedRows(s: State, rows: map<Id, Publication>, ids: set<Id>)
    requires Truthful(s) && LiveUnique(s.db.publications)
    requires rows == map p | p in s.db.publications :: if p in ids then RevokedRow(s.db.publications[p])
             else s.db.publications[p]
    ensures RowsMove(s, rows) && LiveUnique(rows) && Steady(s, rows)
  {
    forall p | p in s.db.publications ensures RowMoves(s, p, rows[p]) && RowSteady(s, p, rows[p])
      && (rows[p].Live() ==> s.db.publications[p].Live()) {
      assert RowTruth(s, p, s.db.publications[p]);
      RevokedMoves(s, p);
    }
    forall p ensures OnlyLive(rows, p) {
      assert OnlyLive(s.db.publications, p);
    }
  }

  lemma RevocationRequested(s: State, user: Id, within: Option<Id>)
    requires Base(s)
    ensures Request(s, RevokePublications(s.db, user, within))
  {
    var db := RevokePublications(s.db, user, within);
    RevokedRows(s, db.publications, RevokedPublications(s.db, user, within));
    forall a ensures ApprovalKept(s.db.approvals, db, a) && ApprovalRefers(db, a) {
      assert ApprovalRefers(s.db, a);
    }
    SameJobs(s, db);
  }

  // ---- changes of the world and of a queued job ----

  /** The world may change where no pending preparation or execution depends on a policy. */
  ghost predicate WorldMoves(db: Db, after: World) {
    && after.retired == db.world.retired && RetiredStale(after)
    && (forall r | r in db.world.runs :: r in after.runs && after.runs[r].project == db.world.runs[r].project)
    && (forall p :: HistoryExtends(db, after, p))
  }

  ghost predicate HistoryExtends(db: Db, after: World, p: Id) {
    && (p in db.world.projects ==> p in after.projects)
    && Policies(db.world, p) <= Policies(after, p)
    && HistoryNumbered(after, p)
    && (ProjectBusy(db, p) ==> Policies(after, p) == Policies(db.world, p))
  }

  lemma WorldKeeps(s: System, after: World)
    requires Core(s) && WorldMoves(s.state.db, after)
    ensures Core(s.(state := s.state.(db := s.state.db.(world := after))))
  {
    WorldBase(s.state, after);
    WorldThread(s.state, s.thread, after);
  }

  lemma WorldBase(s: State, after: World)
    requires Base(s) && WorldMoves(s.db, after)
    ensures Base(s.(db := s.db.(world := after)))
  {
    var db := s.db.(world := after);
    var t := s.(db := db);
    WorldRefers(s, after);
    forall p | p in db.publications ensures RowTruth(t, p, db.publications[p]) {
      assert RowTruth(s, p, s.db.publications[p]);
    }
    WorldRecords(s, after);
    forall p ensures PublishingHeld(t, p) {
      assert PublishingHeld(s, p);
    }
    forall j ensures JobWanted(db, j) && JobSlotted(t, j) {
      assert JobWanted(s.db, j) && JobSlotted(s, j);
    }
    forall i: nat | i < |s.log| ensures EffectFits(t, s.log[i]) {
      assert EffectFits(s, s.log[i]);
    }
    forall p ensures NewestPolicy(t, p) {
      assert NewestPolicy(s, p);
    }
    WorldPreparations(s, after);
  }

  lemma WorldRefers(s: State, after: World)
    requires Refers(s.db) && WorldMoves(s.db, after)
    ensures Refers(s.db.(world := after))
  {
    var db := s.db.(world := after);
    forall w ensures HistoryNumbered(after, w) {
      assert HistoryExtends(s.db, after, w);
    }
    forall p | p in db.publications ensures RowRefers(after, db.publications[p]) {
      assert RowRefers(s.db.world, s.db.publications[p]);
      assert HistoryExtends(s.db, after, db.publications[p].project);
    }
    forall a ensures ApprovalRefers(db, a) {
      assert ApprovalRefers(s.db, a);
    }
    forall j | j in db.jobs ensures JobRefers(db, db.jobs[j]) {
      assert JobRefers(s.db, s.db.jobs[j]);
    }
    forall i: nat ensures RecordRefers(db, i) {
      assert RecordRefers(s.db, i);
    }
  }

  /** A pending job fixes the policies of its project. */
  lemma PolicyFixed(s: State, after: World, j: Id)
    requires Refers(s.db) && SlotHolds(s) && WorldMoves(s.db, after)
    requires j in s.db.jobs && s.db.jobs[j].Pending() && s.db.jobs[j].kind != RECONCILE_JOB
    ensures Policies(after, s.db.jobs[j].project) == Policies(s.db.world, s.db.jobs[j].project)
  {
    assert HistoryExtends(s.db, after, s.db.jobs[j].project);
  }

  lemma WorldThread(s: State, thread: Thread, after: World)
    requires Refers(s.db) && SlotHolds(s) && ThreadOwns(s, thread) && WorldMoves(s.db, after)
    ensures ThreadOwns(s.(db := s.db.(world := after)), thread)
  {
    if thread.Working? {
      var j := thread.job;
      assert JobSlotted(s, j) && JobRefers(s.db, s.db.jobs[j]);
      if s.db.jobs[j].kind != RECONCILE_JOB {
        PolicyFixed(s, after, j);
      }
      if s.db.jobs[j].kind == EXECUTE {
        assert RowRefers(s.db.world, s.db.publications[s.db.jobs[j].subject]);
      }
    }
  }

  lemma WorldRecords(s: State, after: World)
    requires Refers(s.db) && SlotHolds(s) && RecordsFit(s) && WorldMoves(s.db, after)
    ensures RecordsFit(s.(db := s.db.(world := after)))
  {
    forall i: nat ensures RecordFits(s.(db := s.db.(world := after)), i) && OnlyUnended(s.db.records, i) {
      assert RecordFits(s, i) && OnlyUnended(s.db.records, i);
      if i < |s.db.records| && !s.db.records[i].ended {
        var j := s.db.records[i].job;
        assert RecordRefers(s.db, i) && JobSlotted(s, j) && JobRefers(s.db, s.db.jobs[j]);
        assert RowRefers(s.db.world, s.db.publications[s.db.records[i].publication]);
        PolicyFixed(s, after, j);
      }
    }
  }

  lemma WorldPreparations(s: State, after: World)
    requires Refers(s.db) && SlotHolds(s) && PreparationsFit(s) && WorldMoves(s.db, after)
    ensures PreparationsFit(s.(db := s.db.(world := after)))
  {
    var t := s.(db := s.db.(world := after));
    forall j | j in s.db.jobs ensures PreparationFits(t, s.db.jobs[j]) {
      assert PreparationFits(s, s.db.jobs[j]) && JobRefers(s.db, s.db.jobs[j]);
      if s.db.jobs[j].kind == PREPARE && s.db.jobs[j].Pending() {
        PolicyFixed(s, after, j);
        forall p | p in s.db.publications && s.db.publications[p].run == s.db.jobs[j].subject && Wrote(s.log, p)
          ensures UsesCurrentPolicy(after, s.db.publications[p].snapshot)
        {
          assert RowRefers(s.db.world, s.db.publications[p]);
        }
      }
    }
  }

  lemma WorldEvolves(s: State, after: World)
    requires Refers(s.db) && Evolves(s.db.world, after)
    ensures WorldMoves(s.db, after)
  {
    forall p ensures HistoryExtends(s.db, after, p) {
      assert HistoryNumbered(s.db.world, p);
    }
  }

  lemma PolicyKeeps(s: System, actor: Id, project: Id, expected: nat, enabled: bool, repository: Id, mode: Mode)
    requires Core(s) && ConfigurePolicy(s.state.db, actor, project, expected, enabled, repository, mode).Ok?
    ensures Core(s.(state := s.state.(db := ConfigurePolicy(s.state.db, actor, project, expected, enabled, repository,
                                                            mode).value)))
  {
    var db := ConfigurePolicy(s.state.db, actor, project, expected, enabled, repository, mode).value;
    var rows := db.(world := s.state.db.world);
    SupersededIsRequest(s.state, project, rows);
    RequestKeeps(s, rows);
    forall p ensures HistoryExtends(rows, db.world, p) {
      assert HistoryNumbered(s.state.db.world, p);
    }
    WorldKeeps(s.(state := s.state.(db := rows)), db.world);
  }

  /** A project with a publication in progress is busy. */
  lemma PublishingIsBusy(s: State, p: Id)
    requires Refers(s.db) && SlotHolds(s) && PublishingIsHeld(s) && p in s.db.publications
    ensures s.db.publications[p].state == PUBLISHING ==> ProjectBusy(s.db, s.db.publications[p].project)
  {
    assert PublishingHeld(s, p);
    if s.db.publications[p].state == PUBLISHING {
      var j := s.slot.value;
      assert JobSlotted(s, j) && JobRefers(s.db, s.db.jobs[j]);
    }
  }

  lemma SupersededRow(s: State, p: Id)
    requires Refers(s.db) && SlotHolds(s) && PublishingIsHeld(s) && Truthful(s) && p in s.db.publications
    requires !ProjectBusy(s.db, s.db.publications[p].project)
    requires s.db.publications[p].state !in {PUBLISHED, REJECTED, INVALIDATED}
    ensures RowMoves(s, p, InvalidatedRow(s.db.publications[p]))
            && RowSteady(s, p, InvalidatedRow(s.db.publications[p]))
  {
    PublishingIsBusy(s, p);
    assert RowTruth(s, p, s.db.publications[p]);
    InvalidatedMoves(s, p);
  }

  lemma SupersededIsRequest(s: State, project: Id, db: Db)
    requires Refers(s.db) && SlotHolds(s) && PublishingIsHeld(s) && Truthful(s) && LiveUnique(s.db.publications)
    requires !ProjectBusy(s.db, project)
    requires db == s.db.(approvals := Withdraw(s.db.approvals, Superseded(s.db, project)),
                         publications := db.publications)
    requires db.publications == map p | p in s.db.publications ::
      if p in Superseded(s.db, project) then InvalidatedRow(s.db.publications[p]) else s.db.publications[p]
    ensures Request(s, db)
  {
    forall p | p in s.db.publications ensures RowMoves(s, p, db.publications[p])
      && RowSteady(s, p, db.publications[p]) {
      assert RowTruth(s, p, s.db.publications[p]);
      if p in Superseded(s.db, project) {
        SupersededRow(s, p);
      }
    }
    forall p ensures OnlyLive(db.publications, p) {
      assert OnlyLive(s.db.publications, p);
    }
    Withdrawn(s, db, Superseded(s.db, project));
    SameJobs(s, db);
  }

  /** A job ends; `free` says that it leaves the slot with it. */
  ghost predicate Ends(s: State, t: State, job: Id, free: bool) {
    && job in s.db.jobs && job in t.db.jobs && !t.db.jobs[job].Pending()
    && t.db.jobs[job] == s.db.jobs[job].(state := t.db.jobs[job].state)
    && t == s.(db := s.db.(jobs := s.db.jobs[job := t.db.jobs[job]]), slot := t.slot)
    && (if free then s.slot == Some(job) && t.slot.None? && Quiet(s.db.records)
        else s.slot != Some(job) && t.slot == s.slot)
    && (free && s.db.jobs[job].kind == EXECUTE && s.db.jobs[job].subject in s.db.publications ==>
          s.db.publications[s.db.jobs[job].subject].state != PUBLISHING)
  }

  lemma EndRefers(s: State, t: State, job: Id, free: bool)
    requires Refers(s.db) && PreparationsFit(s) && Ends(s, t, job, free)
    ensures Refers(t.db) && PreparationsFit(t)
  {
    forall w ensures HistoryNumbered(t.db.world, w) {
      assert HistoryNumbered(s.db.world, w);
    }
    forall a ensures ApprovalRefers(t.db, a) {
      assert ApprovalRefers(s.db, a);
    }
    forall j | j in t.db.jobs ensures JobRefers(t.db, t.db.jobs[j]) && PreparationFits(t, t.db.jobs[j]) {
      assert JobRefers(s.db, s.db.jobs[j]) && PreparationFits(s, s.db.jobs[j]);
    }
    forall i: nat ensures RecordRefers(t.db, i) {
      assert RecordRefers(s.db, i);
    }
  }

  lemma EndSlot(s: State, t: State, job: Id, free: bool)
    requires SlotHolds(s) && RecordsFit(s) && PublishingIsHeld(s) && AbandonedIsIdle(s.db) && Ends(s, t, job, free)
    ensures SlotHolds(t) && RecordsFit(t) && PublishingIsHeld(t) && AbandonedIsIdle(t.db)
  {
    forall i: nat ensures RecordFits(t, i) {
      assert RecordFits(s, i);
    }
    forall j ensures JobSlotted(t, j) && JobWanted(t.db, j) {
      assert JobSlotted(s, j) && JobWanted(s.db, j);
    }
    forall p ensures PublishingHeld(t, p) {
      assert PublishingHeld(s, p);
    }
  }

  lemma EndKeeps(s: State, t: State, job: Id, free: bool)
    requires Base(s) && Ends(s, t, job, free)
    ensures Base(t)
  {
    EndRefers(s, t, job, free);
    EndSlot(s, t, job, free);
    forall p | p in t.db.publications ensures RowTruth(t, p, t.db.publications[p]) {
      assert RowTruth(s, p, s.db.publications[p]);
    }
    forall p ensures NewestPolicy(t, p) {
      assert NewestPolicy(s, p);
    }
    forall i: nat | i < |s.log| ensures EffectFits(t, s.log[i]) {
      assert EffectFits(s, s.log[i]);
    }
  }

  lemma CancelKeeps(s: System, job: Id)
    requires Core(s)
    ensures Core(s.(state := s.state.(db := CancelJob(s.state.db, job))))
  {
    if job in s.state.db.jobs && s.state.db.jobs[job].state == QUEUED {
      assert JobSlotted(s.state, job);
      var t := s.state.(db := CancelJob(s.state.db, job));
      EndKeeps(s.state, t, job, false);
      CancelThread(s, t, job);
    }
  }

  lemma CancelThread(s: System, t: State, job: Id)
    requires ThreadOwns(s.state, s.thread) && Ends(s.state, t, job, false)
    ensures ThreadOwns(t, s.thread)
  {
  }

  // ---- all of them ----

  lemma RequestedKeeps(s: System, step: Step)
    requires Core(s) && IsRequest(step)
    ensures Core(s.(state := s.state.(db := Requested(s.state.db, step))))
  {
    var db := Requested(s.state.db, step);
    if db == s.state.db {
    } else if step.PolicyRequest? {
      PolicyKeeps(s, step.actor, step.project, step.expected, step.enabled, step.repository, step.mode);
    } else if step.JobCancelled? {
      CancelKeeps(s, step.job);
    } else if step.WorldChange? {
      WorldEvolves(s.state, step.world);
      WorldKeeps(s, step.world);
    } else {
      RowsRequested(s.state, step);
      RequestKeeps(s, db);
    }
  }

  lemma RowsRequested(s: State, step: Step)
    requires Base(s) && IsRequest(step) && Requested(s.db, step) != s.db
    requires !step.PolicyRequest? && !step.JobCancelled? && !step.WorldChange?
    ensures Request(s, Requested(s.db, step))
  {
    match step
    case PrepareRequest(actor, run, job) => PrepareRequested(s, actor, run, job);
    case DecideRequest(actor, id, hash, approve, approval, job) =>
      DecisionRequested(s, actor, id, hash, approve, approval, job);
    case ReconcileRequest(actor, id, job) => ReconcileRequested(s, actor, id, job);
    case RecoveryRequest(actor, id, hash, remaining, approval, job) =>
      RecoveryRequested(s, actor, id, hash, remaining, approval, job);
    case AbandonRequest(actor, id, hash) => AbandonRequested(s, actor, id, hash);
    case Revocation(user, within) => RevocationRequested(s, user, within);
  }
}
