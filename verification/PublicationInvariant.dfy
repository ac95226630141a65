/** What every step of the publication protocol keeps. */
module PublicationInvariant {
  import opened Outcomes
  import opened PublicationRows
  import opened PublicationSteps
  import opened PublicationSystem

  // ---- vocabulary ----

  /** A write of this publication took effect on the remote. */
  ghost predicate Wrote(log: seq<Effect>, p: Id) {
    exists i | 0 <= i < |log| :: log[i].publication == p
  }

  ghost predicate Quiet(records: seq<Record>) {
    forall i | 0 <= i < |records| :: records[i].ended
  }

  predicate Matches(r: Remote, seen: Observation) {
    && seen.branch == r.branch
    && (seen.pr.Some? <==> r.prs != [])
    && (seen.pr.Some? ==> seen.pr.value.head == r.prs[0].head)
  }

  /** The remote holds everything the snapshot promises. */
  predicate Delivered(r: Remote, snapshot: Snapshot) {
    && r.branch == Some(snapshot.commit)
    && (snapshot.policy.mode == PUSH_AND_PR ==> r.prs != [] && r.prs[0].head == snapshot.commit)
  }

  /** The remote still accepts this write. */
  predicate Open(r: Remote, write: Write, commit: Sha) {
    match write
    case PushWrite => r.branch.None?
    case PrWrite => r.branch == Some(commit) && r.prs == []
  }

  function Policies(w: World, project: Id): seq<Policy> {
    if project in w.projects then w.projects[project].policies else []
  }

  predicate UsesCurrentPolicy(w: World, snapshot: Snapshot) {
    && |Policies(w, snapshot.project)| > 0
    && snapshot.policy == Current(Policies(w, snapshot.project))
  }

  // ---- references ----

  predicate RowRefers(w: World, row: Publication) {
    && row.run in w.runs && w.runs[row.run].project == row.project && row.project in w.projects
    && row.snapshot.run == row.run && row.snapshot.project == row.project && row.hash == Digest(row.snapshot)
    && 1 <= row.snapshot.policy.version <= |Policies(w, row.project)|
    && Policies(w, row.project)[row.snapshot.policy.version - 1] == row.snapshot.policy
  }

  predicate JobRefers(db: Db, job: Job) {
    match job.kind
    case PREPARE => job.subject in db.world.runs && job.project == db.world.runs[job.subject].project
    case EXECUTE =>
      && job.subject in db.publications && job.project == db.publications[job.subject].project
      && job.approval.Some? && job.approval.value in db.approvals
      && db.approvals[job.approval.value].publication == job.subject && db.approvals[job.approval.value].approve
    case RECONCILE_JOB => job.subject in db.publications && job.project == db.publications[job.subject].project
  }

  predicate ApprovalRefers(db: Db, a: Id) {
    a in db.approvals ==> db.approvals[a].publication in db.publications
  }

  predicate RecordRefers(db: Db, i: nat) {
    i < |db.records| ==>
      && db.records[i].job in db.jobs && db.jobs[db.records[i].job].kind == EXECUTE
      && db.jobs[db.records[i].job].subject == db.records[i].publication
      && db.records[i].publication in db.publications
  }

  predicate HistoryNumbered(w: World, project: Id) {
    Numbered(Policies(w, project))
  }

  ghost predicate Refers(db: Db) {
    && (forall w {:trigger HistoryNumbered(db.world, w)} :: HistoryNumbered(db.world, w))
    && (forall p {:trigger RowRefers(db.world, db.publications[p])} | p in db.publications ::
        RowRefers(db.world, db.publications[p]))
    && (forall a {:trigger ApprovalRefers(db, a)} :: ApprovalRefers(db, a))
    && (forall j {:trigger JobRefers(db, db.jobs[j])} | j in db.jobs :: JobRefers(db, db.jobs[j]))
    && (forall i: nat {:trigger RecordRefers(db, i)} :: RecordRefers(db, i))
  }

  /** No other live publication shares the run of `p`. */
  ghost predicate OnlyLive(publications: map<Id, Publication>, p: Id) {
    p in publications && publications[p].Live() ==>
      forall q | q in publications && q != p && publications[q].Live() :: publications[q].run != publications[p].run
  }

  ghost predicate LiveUnique(publications: map<Id, Publication>) {
    forall p {:trigger OnlyLive(publications, p)} :: OnlyLive(publications, p)
  }

  // ---- rows tell the truth about the remote ----

  /** The row came back from a backup in a state that may be older than a write of its publication. */
  predicate Outdated(s: State, row: Publication) {
    row.state in {REJECTED, INVALIDATED} && row.run in s.db.world.retired
  }

  ghost predicate RowTruth(s: State, p: Id, row: Publication) {
    var r := At(s.remote, PlaceOf(row));
    && (Wrote(s.log, p) ==> r.branch == Some(row.snapshot.commit))
    && (Wrote(s.log, p) ==> row.state in {UNKNOWN, PUBLISHING} || row.remoteBranch.Some? || Outdated(s, row))
    && (row.remoteBranch.Some? || row.remotePr.Some? ==> row.effects)
    && (row.state in {PENDING_APPROVAL, FAILED} ==> !Wrote(s.log, p))
    && (row.state in {REJECTED, INVALIDATED} ==> !Wrote(s.log, p) || Outdated(s, row))
    && (row.state == PUBLISHED ==> Delivered(r, row.snapshot) && row.remoteBranch.Some?)
    && (row.state == PARTIAL ==> row.effects)
    && (row.abandoned ==> row.state in {PARTIAL, FAILED, INVALIDATED})
  }

  // ---- the worker ----

  predicate InPhase(pc: Pc) {
    InTry(pc) && !pc.Approve?
  }

  ghost predicate ExecuteFits(s: State, job: Id, pc: Pc)
    requires job in s.db.jobs && s.db.jobs[job].subject in s.db.publications
  {
    var id := s.db.jobs[job].subject;
    var row := s.db.publications[id];
    var r := At(s.remote, PlaceOf(row));
    && (pc.Claimed? || pc.Begin? || pc.SettleStep? || pc.Finish? || pc.Close? || InTry(pc))
    && (!pc.Wait? && !pc.SettleStep? && !pc.Finish? ==> Quiet(s.db.records))
    && (pc.Claimed? || pc.Begin? || pc.Approve? || pc.Close? ==> row.state != PUBLISHING)
    && (pc.Finish? && row.state == PUBLISHING ==> pc.error)
    && (InPhase(pc) ==> row.state in {PUBLISHING, UNKNOWN} && !row.abandoned)
    && (InTry(pc) && !DispatchedAt(pc) && Wrote(s.log, id) ==> row.remoteBranch.Some?)
    && (pc.SettleStep? && !pc.dispatched ==> Quiet(s.db.records) && (Wrote(s.log, id) ==> row.remoteBranch.Some?))
    && (pc.FirstSaw? || pc.SawBack? || pc.Confirm? || pc.PrSaw? || pc.FinalSaw? || pc.PublishStep? ==>
        Matches(r, pc.seen))
    && (pc.AuthorizeStep? || pc.Launch? ==> Open(r, pc.write, row.snapshot.commit))
    && (pc.Launch? ==> UsesCurrentPolicy(s.db.world, row.snapshot) && row.run !in s.db.world.retired)
    && (pc.PublishStep? ==> Delivered(r, row.snapshot) && row.remoteBranch.Some?)
    && (pc.Wait? ==>
          && pc.record < |s.db.records| && s.db.records[pc.record].job == job
          && (forall i | 0 <= i < |s.db.records| && !s.db.records[i].ended :: i == pc.record))
  }

  ghost predicate TargetHolds(s: State, id: Id, row: Publication, target: PublicationState) {
    && target in {PARTIAL, FAILED, PUBLISHED, UNKNOWN}
    && (target == FAILED ==> !Wrote(s.log, id))
    && (target in {PARTIAL, PUBLISHED} ==> row.effects && (Wrote(s.log, id) ==> row.remoteBranch.Some?))
    && (target == PUBLISHED ==> Delivered(At(s.remote, PlaceOf(row)), row.snapshot) && row.remoteBranch.Some?)
  }

  ghost predicate ReconcileFits(s: State, job: Id, pc: Pc)
    requires job in s.db.jobs && s.db.jobs[job].subject in s.db.publications
  {
    var id := s.db.jobs[job].subject;
    var row := s.db.publications[id];
    var r := At(s.remote, PlaceOf(row));
    && (pc.Claimed? || pc.ReconcileStart? || pc.ReconcileLook? || pc.ReconcileSaw? || pc.ReconcileSettle?
        || pc.ReconcileFail? || pc.Finish? || pc.Close?)
    && (pc.ReconcileLook? || pc.ReconcileSaw? || pc.ReconcileSettle? || pc.ReconcileFail? ==> pc.index < |row.attempts|)
    && (pc.ReconcileSaw? || pc.ReconcileSettle? ==> Matches(r, pc.seen))
    && (pc.ReconcileSettle? ==> TargetHolds(s, id, row, pc.target))
  }

  ghost predicate PrepareFits(s: State, job: Id, pc: Pc)
    requires job in s.db.jobs
  {
    && (pc.Claimed? || pc.PrepareStart? || pc.PrepareLook? || pc.PrepareSave? || pc.Finish? || pc.Close?)
    && (pc.PrepareLook? || pc.PrepareSave? ==>
          && pc.prepared.run == s.db.jobs[job].subject && pc.prepared.project == s.db.jobs[job].project
          && UsesCurrentPolicy(s.db.world, pc.prepared))
    && (pc.PrepareSave? ==> pc.seen.branch.None? && pc.seen.pr.None?)
  }

  ghost predicate ThreadFits(s: State, job: Id, pc: Pc) {
    && job in s.db.jobs
    && match s.db.jobs[job].kind
       case PREPARE => PrepareFits(s, job, pc)
       case EXECUTE => s.db.jobs[job].subject in s.db.publications && ExecuteFits(s, job, pc)
       case RECONCILE_JOB => s.db.jobs[job].subject in s.db.publications && ReconcileFits(s, job, pc)
  }

  /** What holds of a write command that has not ended. */
  ghost predicate RecordFits(s: State, i: nat) {
    i < |s.db.records| && !s.db.records[i].ended ==>
      && s.slot == Some(s.db.records[i].job)
      && s.db.records[i].publication in s.db.publications
      && var row := s.db.publications[s.db.records[i].publication];
         && row.state in {PUBLISHING, UNKNOWN} && !row.abandoned && row.run !in s.db.world.retired
         && UsesCurrentPolicy(s.db.world, row.snapshot)
         && (i !in s.landed ==> Open(At(s.remote, PlaceOf(row)), s.db.records[i].write, row.snapshot.commit))
  }

  ghost predicate OnlyUnended(records: seq<Record>, i: nat) {
    i < |records| && !records[i].ended ==> forall k | 0 <= k < |records| && k != i :: records[k].ended
  }

  /** At most one write command is open, and it belongs to the job in the slot. */
  ghost predicate RecordsFit(s: State) {
    && (forall i: nat {:trigger OnlyUnended(s.db.records, i)} :: OnlyUnended(s.db.records, i))
    && (forall i: nat {:trigger RecordFits(s, i)} :: RecordFits(s, i))
    && (forall i | i in s.landed :: i < |s.db.records|)
  }

  predicate JobSlotted(s: State, j: Id) {
    j in s.db.jobs ==> (s.db.jobs[j].state == RUNNING <==> s.slot == Some(j))
  }

  /** Exactly the job in the slot is RUNNING. */
  ghost predicate SlotHolds(s: State) {
    && (s.slot.Some? ==> s.slot.value in s.db.jobs)
    && (forall j {:trigger JobSlotted(s, j)} :: JobSlotted(s, j))
  }

  ghost predicate ThreadOwns(s: State, thread: Thread) {
    thread.Working? ==> s.slot == Some(thread.job) && ThreadFits(s, thread.job, thread.pc)
  }

  /** An execution of `p` is the job in the slot. */
  predicate Engaged(s: State, p: Id) {
    && s.slot.Some? && s.slot.value in s.db.jobs
    && s.db.jobs[s.slot.value].kind == EXECUTE && s.db.jobs[s.slot.value].subject == p
  }

  predicate PublishingHeld(s: State, p: Id) {
    p in s.db.publications && s.db.publications[p].state == PUBLISHING ==> Engaged(s, p)
  }

  ghost predicate PublishingIsHeld(s: State) {
    forall p {:trigger PublishingHeld(s, p)} :: PublishingHeld(s, p)
  }

  /** A pending execution or reconciliation is never of an abandoned publication. */
  predicate JobWanted(db: Db, j: Id) {
    j in db.jobs && db.jobs[j].kind != PREPARE && db.jobs[j].Pending() && db.jobs[j].subject in db.publications ==>
      !db.publications[db.jobs[j].subject].abandoned
  }

  ghost predicate AbandonedIsIdle(db: Db) {
    forall j {:trigger JobWanted(db, j)} :: JobWanted(db, j)
  }

  ghost predicate Truthful(s: State) {
    forall p {:trigger RowTruth(s, p, s.db.publications[p])} | p in s.db.publications ::
      RowTruth(s, p, s.db.publications[p])
  }

  // ---- the remote and its history ----

  predicate RemoteFits(r: Remote) {
    |r.prs| <= 1 && (r.prs != [] ==> r.branch == Some(r.prs[0].head))
  }

  ghost predicate RemoteWell(remote: map<Place, Remote>) {
    forall place {:trigger At(remote, place)} :: RemoteFits(At(remote, place))
  }

  /** The effect is of this row's publication: same run, same place, same commit. */
  predicate EffectOf(e: Effect, row: Publication) {
    e.place == PlaceOf(row) && e.run == row.run && e.commit == row.snapshot.commit
  }

  /** Only a restore loses a publication that wrote, and it retires its run. */
  ghost predicate EffectFits(s: State, e: Effect) {
    && (e.publication in s.db.publications ==> EffectOf(e, s.db.publications[e.publication]))
    && (e.publication in s.db.publications || e.run in s.db.world.retired)
    && (e.write == PushWrite ==> At(s.remote, e.place).branch == Some(e.commit))
    && (e.write == PrWrite ==> At(s.remote, e.place).prs != [])
  }

  /** The i-th effect is the first of its kind at its place. */
  ghost predicate FirstOfKind(log: seq<Effect>, i: nat) {
    i < |log| ==> forall k | 0 <= k < i && log[k].write == log[i].write :: log[k].place != log[i].place
  }

  /** The i-th effect is at the same place as every earlier one of its run. */
  ghost predicate OnePlace(log: seq<Effect>, i: nat) {
    i < |log| ==> forall k | 0 <= k < i && log[k].run == log[i].run :: log[k].place == log[i].place
  }

  ghost predicate PushLogged(log: seq<Effect>, remote: map<Place, Remote>, place: Place) {
    At(remote, place).branch.Some? ==>
      exists i | 0 <= i < |log| :: log[i].write == PushWrite && log[i].place == place
        && Some(log[i].commit) == At(remote, place).branch
  }

  ghost predicate Logged(s: State) {
    && (forall i: nat {:trigger EffectFits(s, s.log[i])} | i < |s.log| :: EffectFits(s, s.log[i]))
    && (forall i: nat {:trigger FirstOfKind(s.log, i)} :: FirstOfKind(s.log, i))
    && (forall i: nat {:trigger OnePlace(s.log, i)} :: OnePlace(s.log, i))
    && (forall place {:trigger PushLogged(s.log, s.remote, place)} :: PushLogged(s.log, s.remote, place))
  }

  // ---- policies: only the newest one of a run ever wrote ----

  /** Unless the run is retired, none of its publications uses a newer policy than one that wrote. */
  ghost predicate NewestPolicy(s: State, p: Id) {
    p in s.db.publications && Wrote(s.log, p) && s.db.publications[p].run !in s.db.world.retired ==>
      forall q | q in s.db.publications && s.db.publications[q].run == s.db.publications[p].run ::
        s.db.publications[q].snapshot.policy.version <= s.db.publications[p].snapshot.policy.version
  }

  ghost predicate NewestWrote(s: State) {
    forall p {:trigger NewestPolicy(s, p)} :: NewestPolicy(s, p)
  }

  /** While a preparation of this run is pending, what the run wrote was written under the current policy. */
  ghost predicate PreparationFits(s: State, job: Job) {
    job.kind == PREPARE && job.Pending() ==>
      forall p | p in s.db.publications && s.db.publications[p].run == job.subject && Wrote(s.log, p) ::
        UsesCurrentPolicy(s.db.world, s.db.publications[p].snapshot)
  }

  ghost predicate PreparationsFit(s: State) {
    forall j {:trigger PreparationFits(s, s.db.jobs[j])} | j in s.db.jobs :: PreparationFits(s, s.db.jobs[j])
  }

  /** The part of the invariant that does not speak of the thread. */
  ghost predicate Base(s: State) {
    && Refers(s.db)
    && RetiredStale(s.db.world)
    && LiveUnique(s.db.publications)
    && Truthful(s)
    && SlotHolds(s)
    && RecordsFit(s)
    && PublishingIsHeld(s)
    && AbandonedIsIdle(s.db)
    && RemoteWell(s.remote)
    && Logged(s)
    && NewestWrote(s)
    && PreparationsFit(s)
  }

  ghost predicate Core(s: System) {
    Base(s.state) && ThreadOwns(s.state, s.thread)
  }

  // ---- transactions: rows move, jobs are queued, the slot and the remote stay ----

  ghost predicate NoPendingJob(db: Db, p: Id) {
    forall j | j in db.jobs && db.jobs[j].kind != PREPARE && db.jobs[j].subject == p :: !db.jobs[j].Pending()
  }

  /** Row `p` may become `b` without disturbing anything else. */
  ghost predicate RowMoves(s: State, p: Id, b: Publication)
    requires p in s.db.publications
  {
    var a := s.db.publications[p];
    && a.SameTarget(b)
    && (a.effects ==> b.effects) && (a.remoteBranch.Some? ==> b.remoteBranch.Some?)
    && |a.attempts| <= |b.attempts|
    && RowTruth(s, p, b)
    && (b.state == PUBLISHING ==> a.state == PUBLISHING || Engaged(s, p))
    && (Engaged(s, p) && a.state in {PUBLISHING, UNKNOWN} ==> b.state in {PUBLISHING, UNKNOWN} || Quiet(s.db.records))
    && (b.abandoned && !a.abandoned ==> NoPendingJob(s.db, p))
  }

  /** The row keeps what an execution in progress relies on. */
  predicate RowSteady(s: State, p: Id, b: Publication)
    requires p in s.db.publications
  {
    var a := s.db.publications[p];
    && (b.state == PUBLISHING ==> a.state == PUBLISHING)
    && (Engaged(s, p) && a.state in {PUBLISHING, UNKNOWN} ==> b.state in {PUBLISHING, UNKNOWN})
  }

  /** A job added to the queue. */
  ghost predicate Enqueues(s: State, db: Db, job: Job) {
    && JobRefers(db, job) && job.state == QUEUED
    && (job.kind != PREPARE ==> !db.publications[job.subject].abandoned)
    && (job.kind == PREPARE ==> forall p | p in db.publications && db.publications[p].run == job.subject ::
        !Wrote(s.log, p))
  }

  ghost predicate JobKept(s: State, db: Db, j: Id) {
    && (j in s.db.jobs ==> j in db.jobs && db.jobs[j] == s.db.jobs[j])
    && (j in db.jobs ==> j in s.db.jobs || Enqueues(s, db, db.jobs[j]))
  }

  ghost predicate JobsGrow(s: State, db: Db) {
    forall j {:trigger JobKept(s, db, j)} :: JobKept(s, db, j)
  }

  ghost predicate RowsMove(s: State, publications: map<Id, Publication>) {
    && publications.Keys == s.db.publications.Keys
    && (forall p {:trigger RowMoves(s, p, publications[p])} | p in s.db.publications :: RowMoves(s, p, publications[p]))
  }

  predicate ApprovalKept(before: map<Id, Approval>, db: Db, a: Id) {
    a in before ==>
      a in db.approvals && db.approvals[a].publication == before[a].publication
        && db.approvals[a].approve == before[a].approve
  }

  ghost predicate ApprovalsGrow(before: map<Id, Approval>, db: Db) {
    && (forall a {:trigger ApprovalKept(before, db, a)} :: ApprovalKept(before, db, a))
    && (forall a {:trigger ApprovalRefers(db, a)} :: ApprovalRefers(db, a))
  }

  /** A transaction of the worker on its own rows, or any request. */
  ghost predicate Commits(s: State, db: Db) {
    && db.world == s.db.world && db.records == s.db.records
    && RowsMove(s, db.publications)
    && LiveUnique(db.publications)
    && JobsGrow(s, db)
    && ApprovalsGrow(s.db.approvals, db)
  }

  ghost predicate Steady(s: State, publications: map<Id, Publication>) {
    && publications.Keys == s.db.publications.Keys
    && (forall p {:trigger RowSteady(s, p, publications[p])} | p in s.db.publications ::
        RowSteady(s, p, publications[p]))
  }

  /** A request also leaves an execution in progress alone. */
  ghost predicate Request(s: State, db: Db) {
    Commits(s, db) && Steady(s, db.publications)
  }

  lemma CommitRefers(s: State, db: Db)
    requires Refers(s.db) && Commits(s, db)
    ensures Refers(db)
  {
    forall w ensures HistoryNumbered(db.world, w) {
      assert HistoryNumbered(s.db.world, w);
    }
    forall p | p in db.publications ensures RowRefers(db.world, db.publications[p]) {
      assert RowMoves(s, p, db.publications[p]);
      assert RowRefers(s.db.world, s.db.publications[p]);
    }
    forall j | j in db.jobs ensures JobRefers(db, db.jobs[j]) {
      assert JobKept(s, db, j);
      if j in s.db.jobs {
        var job := s.db.jobs[j];
        assert JobRefers(s.db, job);
        if job.kind != PREPARE {
          assert RowMoves(s, job.subject, db.publications[job.subject]);
        }
        if job.approval.Some? {
          assert ApprovalKept(s.db.approvals, db, job.approval.value);
        }
      }
    }
    forall i: nat ensures RecordRefers(db, i) {
      assert RecordRefers(s.db, i);
      if i < |db.records| {
        assert JobKept(s, db, db.records[i].job);
      }
    }
  }

  lemma CommitTruthful(s: State, db: Db)
    requires Commits(s, db)
    ensures Truthful(s.(db := db))
  {
    forall p | p in db.publications ensures RowTruth(s.(db := db), p, db.publications[p]) {
      assert RowMoves(s, p, db.publications[p]);
    }
  }

  lemma CommitRecords(s: State, db: Db)
    requires Refers(s.db) && RecordsFit(s) && Commits(s, db)
    ensures RecordsFit(s.(db := db))
  {
    forall i: nat ensures OnlyUnended(db.records, i) {
      assert OnlyUnended(s.db.records, i);
    }
    forall i: nat ensures RecordFits(s.(db := db), i) {
      assert RecordFits(s, i);
      if i < |db.records| && !db.records[i].ended {
        assert RecordRefers(s.db, i);
        var p := db.records[i].publication;
        assert Engaged(s, p);
        assert RowMoves(s, p, db.publications[p]);
      }
    }
  }

  lemma CommitPublishing(s: State, db: Db)
    requires PublishingIsHeld(s) && Commits(s, db)
    ensures PublishingIsHeld(s.(db := db))
  {
    forall p ensures PublishingHeld(s.(db := db), p) {
      assert PublishingHeld(s, p);
      if p in db.publications {
        assert RowMoves(s, p, db.publications[p]);
      }
      if s.slot.Some? {
        assert JobKept(s, db, s.slot.value);
      }
    }
  }

  lemma CommitAbandoned(s: State, db: Db)
    requires Refers(s.db) && AbandonedIsIdle(s.db) && Commits(s, db)
    ensures AbandonedIsIdle(db)
  {
    forall j ensures JobWanted(db, j) {
      assert JobKept(s, db, j);
      assert JobWanted(s.db, j);
      if j in s.db.jobs && db.jobs[j].subject in s.db.publications {
        assert RowMoves(s, db.jobs[j].subject, db.publications[db.jobs[j].subject]);
      }
    }
  }

  lemma CommitLog(s: State, db: Db)
    requires Logged(s) && Commits(s, db)
    ensures Logged(s.(db := db))
  {
    var t := s.(db := db);
    forall i: nat | i < |s.log| ensures EffectFits(t, s.log[i]) {
      assert EffectFits(s, s.log[i]);
      if s.log[i].publication in s.db.publications {
        assert RowMoves(s, s.log[i].publication, db.publications[s.log[i].publication]);
      }
    }
  }

  lemma CommitPolicies(s: State, db: Db)
    requires NewestWrote(s) && PreparationsFit(s) && Commits(s, db)
    ensures NewestWrote(s.(db := db)) && PreparationsFit(s.(db := db))
  {
    var t := s.(db := db);
    forall p ensures NewestPolicy(t, p) {
      assert NewestPolicy(s, p);
      forall q | q in db.publications ensures s.db.publications[q].SameTarget(db.publications[q]) {
        assert RowMoves(s, q, db.publications[q]);
      }
    }
    forall j | j in db.jobs ensures PreparationFits(t, db.jobs[j]) {
      assert JobKept(s, db, j);
      if j in s.db.jobs {
        assert PreparationFits(s, s.db.jobs[j]);
      }
      forall q | q in db.publications ensures s.db.publications[q].SameTarget(db.publications[q]) {
        assert RowMoves(s, q, db.publications[q]);
      }
    }
  }

  lemma CommitSlot(s: State, db: Db)
    requires SlotHolds(s) && Commits(s, db)
    ensures SlotHolds(s.(db := db))
  {
    forall j ensures JobSlotted(s.(db := db), j) {
      assert JobKept(s, db, j);
      assert JobSlotted(s, j);
    }
    if s.slot.Some? {
      assert JobKept(s, db, s.slot.value);
    }
  }

  lemma RequestThread(s: State, thread: Thread, db: Db)
    requires SlotHolds(s) && AbandonedIsIdle(s.db) && ThreadOwns(s, thread) && Request(s, db)
    requires Refers(s.db)
    ensures ThreadOwns(s.(db := db), thread)
  {
    if thread.Working? {
      var j := thread.job;
      assert JobKept(s, db, j);
      assert JobWanted(s.db, j) && JobSlotted(s, j);
      var job := s.db.jobs[j];
      if job.kind != PREPARE {
        assert RowMoves(s, job.subject, db.publications[job.subject]);
        assert RowSteady(s, job.subject, db.publications[job.subject]);
      }
    }
  }

  lemma CommitKeeps(s: State, db: Db)
    requires Base(s) && Commits(s, db)
    ensures Base(s.(db := db))
  {
    CommitRefers(s, db);
    CommitTruthful(s, db);
    CommitRecords(s, db);
    CommitPublishing(s, db);
    CommitAbandoned(s, db);
    CommitLog(s, db);
    CommitPolicies(s, db);
    CommitSlot(s, db);
  }

  lemma RequestKeeps(s: System, db: Db)
    requires Core(s) && Request(s.state, db)
    ensures Core(s.(state := s.state.(db := db)))
  {
    CommitKeeps(s.state, db);
    RequestThread(s.state, s.thread, db);
  }
}
