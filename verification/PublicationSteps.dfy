/** What each publication transaction does to the database, as functions on its value. */
module PublicationSteps {
  import opened Outcomes
  import opened PublicationRows

  datatype Db = Db(
    world: World,
    publications: map<Id, Publication>,
    approvals: map<Id, Approval>,
    jobs: map<Id, Job>,
    records: seq<Record>)

  // ---- constraints and shared helpers ----

  /** The row would break "one live publication per run". */
  predicate Collides(db: Db, id: Id, row: Publication) {
    row.Live() && exists q | q in db.publications && q != id ::
      db.publications[q].Live() && db.publications[q].run == row.run
  }

  /** The conditional update of a publication row: `seen` is the copy the caller holds. */
  function Transition(db: Db, id: Id, seen: Publication, row: Publication): Result<Db>
    requires id in db.publications
  {
    var now := db.publications[id];
    if now.state != seen.state || now.version != seen.version || Collides(db, id, row)
    then Err(STATE_CONFLICT)
    else Ok(db.(publications := db.publications[id := row.(version := now.version + 1)]))
  }

  /** The row after an invalidation that found the row as it is. */
  function InvalidatedState(row: Publication): PublicationState {
    if row.state == UNKNOWN then UNKNOWN
    else if row.SeenRemotely() then PARTIAL
    else INVALIDATED
  }

  /** Withdraws every valid decision on the given publications. */
  function Withdraw(approvals: map<Id, Approval>, ids: set<Id>): map<Id, Approval> {
    map a | a in approvals ::
      if approvals[a].publication in ids then approvals[a].(valid := false) else approvals[a]
  }

  function Invalidate(db: Db, id: Id): Result<Db>
    requires id in db.publications
  {
    var row := db.publications[id];
    Transition(db.(approvals := Withdraw(db.approvals, {id})), id, row, row.(state := InvalidatedState(row)))
  }

  predicate LiveJobs(db: Db, id: Id) {
    || (exists j | j in db.jobs :: db.jobs[j].kind != PREPARE && db.jobs[j].subject == id && db.jobs[j].Pending())
    || (exists i | 0 <= i < |db.records| :: db.records[i].publication == id && !db.records[i].ended)
  }

  /** The approval still authorises exactly this publication. */
  function CurrentApproval(db: Db, id: Id, a: Id): Result<()>
    requires id in db.publications && a in db.approvals
  {
    var row, approval := db.publications[id], db.approvals[a];
    var _ :- Require(
      && row.state in {APPROVED, PUBLISHING, PARTIAL, UNKNOWN, PUBLISHED} && !row.abandoned
      && approval.valid && approval.approve && approval.hash == row.hash && Digest(row.snapshot) == row.hash,
      APPROVAL_INVALID);
    var _ :- Conditions(db.world, approval.actor, row.run, Some(row.snapshot));
    Ok(())
  }

  // ---- requests ----

  function RequestPrepare(db: Db, actor: Id, run: Id, job: Id): Result<Db>
    requires job !in db.jobs
  {
    var _ :- Conditions(db.world, actor, run, None);
    var _ :- Require(
      forall p | p in db.publications && db.publications[p].run == run ::
        !db.publications[p].Live() && db.publications[p].remoteBranch.None?,
      PUBLICATION_EXISTS);
    Ok(db.(jobs := db.jobs[job := Job(PREPARE, run, db.world.runs[run].project, actor, None, QUEUED)]))
  }

  function Decide(db: Db, actor: Id, id: Id, hash: Digest, approve: bool, approval: Id, job: Id): Result<Db>
    requires approval !in db.approvals && job !in db.jobs
  {
    var _ :- Require(actor in db.world.admins, ACCESS_DENIED);
    var _ :- Require(id in db.publications, NOT_FOUND);
    var row := db.publications[id];
    var _ :- Require(row.hash == hash && Digest(row.snapshot) == hash, SNAPSHOT_CHANGED);
    var _ :- Require(row.state == PENDING_APPROVAL && !row.abandoned, STATE_CONFLICT);
    var _ :- if approve then CheckedOk(Conditions(db.world, actor, row.run, Some(row.snapshot))) else Ok(());
    var moved :- Transition(db, id, row, row.(state := if approve then APPROVED else REJECTED));
    var decided := moved.(approvals := moved.approvals[approval := Approval(id, actor, approve, hash, FULL, true, 0)]);
    Ok(if approve
       then decided.(jobs := decided.jobs[job := Job(EXECUTE, id, row.project, actor, Some(approval), QUEUED)])
       else decided)
  }

  function CheckedOk<T>(r: Result<T>): Result<()> {
    match r
    case Ok(_) => Ok(())
    case Err(e) => Err(e)
  }

  function RequestReconcile(db: Db, actor: Id, id: Id, job: Id): Result<Db>
    requires job !in db.jobs
  {
    var _ :- Require(actor in db.world.admins, ACCESS_DENIED);
    var _ :- Require(id in db.publications, NOT_FOUND);
    var row := db.publications[id];
    var _ :- Require(!row.abandoned && row.state !in {PENDING_APPROVAL, APPROVED, PUBLISHING}, STATE_CONFLICT);
    var _ :- Require(!LiveJobs(db, id), PROCESS_STATE_UNKNOWN);
    Ok(db.(jobs := db.jobs[job := Job(RECONCILE_JOB, id, row.project, actor, None, QUEUED)]))
  }

  /** The finished reconciliation attempt with the highest number. */
  function LastReconcile(attempts: seq<Attempt>): Option<Attempt> {
    if attempts == [] then None
    else
      var last := attempts[|attempts| - 1];
      if last.stage == RECONCILE && last.finished then Some(last) else LastReconcile(attempts[..|attempts| - 1])
  }

  predicate Evidence(row: Publication, last: Attempt, remaining: bool) {
    && !last.failed && last.base == Some(row.snapshot.baseline)
    && last.confirmed == (if remaining then Some(row.snapshot.commit) else None)
  }

  predicate RecoveryReady(row: Publication, hash: Digest, remaining: bool) {
    && row.state == (if remaining then PARTIAL else FAILED)
    && row.reconciled && !row.abandoned && row.hash == hash && Digest(row.snapshot) == hash
    && LastReconcile(row.attempts).Some?
    && Evidence(row, LastReconcile(row.attempts).value, remaining)
    && (remaining ==>
          && row.snapshot.policy.mode == PUSH_AND_PR
          && row.remoteBranch == Some(row.snapshot.commit) && row.remotePr.None?)
  }

  /** Retry of a FAILED publication, or approval of the pull request missing from a PARTIAL one. */
  function ApproveRecovery(db: Db, actor: Id, id: Id, hash: Digest, remaining: bool, approval: Id, job: Id): Result<Db>
    requires approval !in db.approvals && job !in db.jobs
  {
    var _ :- Require(actor in db.world.admins, ACCESS_DENIED);
    var _ :- Require(id in db.publications, NOT_FOUND);
    var row := db.publications[id];
    var _ :- Require(!LiveJobs(db, id), PROCESS_STATE_UNKNOWN);
    var _ :- Require(RecoveryReady(row, hash, remaining), RECOVERY_NOT_READY);
    var _ :- Conditions(db.world, actor, row.run, Some(row.snapshot));
    var moved :- Transition(db, id, row, row.(state := APPROVED));
    var scope := if remaining then REMAINING_PR else FULL;
    Ok(moved.(
       approvals := Withdraw(moved.approvals, {id})[approval := Approval(id, actor, true, hash, scope, true, 0)],
       jobs := moved.jobs[job := Job(EXECUTE, id, row.project, actor, Some(approval), QUEUED)]))
  }

  function Abandon(db: Db, actor: Id, id: Id, hash: Digest): Result<Db> {
    var _ :- Require(actor in db.world.admins, ACCESS_DENIED);
    var _ :- Require(id in db.publications, NOT_FOUND);
    var row := db.publications[id];
    var _ :- Require(!LiveJobs(db, id), PROCESS_STATE_UNKNOWN);
    var _ :- Require(
      row.state in {PARTIAL, FAILED, INVALIDATED} && row.reconciled && row.hash == hash && !row.abandoned,
      RECOVERY_NOT_READY);
    var moved :- Transition(db, id, row, row.(abandoned := true));
    Ok(moved.(approvals := Withdraw(moved.approvals, {id})))
  }

  predicate ProjectBusy(db: Db, project: Id) {
    exists j | j in db.jobs :: db.jobs[j].project == project && db.jobs[j].kind != RECONCILE_JOB && db.jobs[j].Pending()
  }

  /** The publications a policy change invalidates. */
  function Superseded(db: Db, project: Id): set<Id> {
    set p | p in db.publications && db.publications[p].project == project && !db.publications[p].abandoned
            && db.publications[p].state !in {PUBLISHED, REJECTED, INVALIDATED}
  }

  function InvalidatedRow(row: Publication): Publication {
    row.(state := InvalidatedState(row), version := row.version + 1)
  }

  function ConfigurePolicy(db: Db, actor: Id, project: Id, expected: nat, enabled: bool, repository: Id,
                           mode: Mode): Result<Db> {
    var _ :- Require(actor in db.world.admins, ACCESS_DENIED);
    var _ :- Require(project in db.world.projects, NOT_FOUND);
    var row := db.world.projects[project];
    var _ :- Require(row.active, PROJECT_ARCHIVED);
    var _ :- Require(!ProjectBusy(db, project), PROJECT_BUSY);
    var _ :- Require(|row.policies| == expected, STATE_CONFLICT);
    var changed := row.(enabled := enabled, policies := row.policies + [Policy(expected + 1, repository, mode)]);
    var ids := Superseded(db, project);
    Ok(db.(
       world := db.world.(projects := db.world.projects[project := changed]),
       approvals := Withdraw(db.approvals, ids),
       publications := map p | p in db.publications ::
         if p in ids then InvalidatedRow(db.publications[p]) else db.publications[p]))
  }

  // ---- revocation and interruption ----

  predicate Revoked(db: Db, user: Id, project: Option<Id>, a: Id)
    requires a in db.approvals
  {
    && db.approvals[a].actor == user && db.approvals[a].valid && db.approvals[a].approve
    && (project.Some? ==>
          && db.approvals[a].publication in db.publications
          && db.publications[db.approvals[a].publication].project == project.value)
  }

  function RevokedPublications(db: Db, user: Id, project: Option<Id>): set<Id> {
    set a | a in db.approvals && Revoked(db, user, project, a) :: db.approvals[a].publication
  }

  function RevokedRow(row: Publication): Publication {
    if row.state in {PUBLISHED, REJECTED, INVALIDATED} then row
    else if row.state in {PUBLISHING, UNKNOWN} then
      row.(state := UNKNOWN, reconciled := false, version := row.version + 1)
    else InvalidatedRow(row)
  }

  /** After `_invalidate` every decision on a touched publication is withdrawn, not only the revoked user's. */
  predicate RevocationWithdraws(db: Db, user: Id, project: Option<Id>, a: Id)
    requires a in db.approvals
  {
    || Revoked(db, user, project, a)
    || (var p := db.approvals[a].publication;
        && p in RevokedPublications(db, user, project) && p in db.publications
        && db.publications[p].state in {PENDING_APPROVAL, APPROVED, FAILED, PARTIAL})
  }

  function RevokePublications(db: Db, user: Id, project: Option<Id>): Db {
    var ids := RevokedPublications(db, user, project);
    db.(
      approvals := map a | a in db.approvals ::
        if RevocationWithdraws(db, user, project, a) then db.approvals[a].(valid := false) else db.approvals[a],
      publications := map p | p in db.publications ::
        if p in ids then RevokedRow(db.publications[p]) else db.publications[p])
  }

  /** A queued job is cancelled before any worker claims it. */
  function CancelJob(db: Db, job: Id): Db {
    if job in db.jobs && db.jobs[job].state == QUEUED
    then db.(jobs := db.jobs[job := db.jobs[job].(state := CANCELLED)])
    else db
  }

  predicate Dispatched(row: Publication, job: Id) {
    exists i | 0 <= i < |row.attempts| :: row.attempts[i].job == job && row.attempts[i].stage != RECONCILE
  }

  /** The worker of this job was lost, or it ended with an error. */
  function MarkInterrupted(db: Db, job: Id): Result<Db>
    requires job in db.jobs
  {
    var id := db.jobs[job].subject;
    if db.jobs[job].kind == PREPARE || id !in db.publications then Ok(db)
    else
      var row := db.publications[id];
      if row.abandoned || row.state in {PUBLISHED, REJECTED, INVALIDATED} then Ok(db)
      else if row.state in {PUBLISHING, UNKNOWN} || Dispatched(row, job) then
        Transition(db.(approvals := Withdraw(db.approvals, {id})), id, row, row.(state := UNKNOWN, reconciled := false))
      else Invalidate(db, id)
  }

  // ---- pieces of the worker procedures, cut at their commit points ----

  function AddAttempt(row: Publication, stage: Stage, job: Id): Publication {
    row.(attempts := row.attempts + [Attempt(stage, job, false, false, None, None)])
  }

  function Remembered(row: Publication, seen: Observation): Publication {
    row.(
      remoteBranch := if seen.branch.Some? then seen.branch else row.remoteBranch,
      remotePr := if seen.pr.Some? then Some(seen.pr.value.number) else row.remotePr,
      effects := row.effects || seen.branch.Some? || seen.pr.Some?)
  }

  function Remember(db: Db, id: Id, seen: Observation): Db
    requires id in db.publications
  {
    db.(publications := db.publications[id := Remembered(db.publications[id], seen)])
  }

  function CheckObservation(snapshot: Snapshot, seen: Observation, requireBase: bool): Result<()> {
    var _ :- Require(requireBase ==> seen.base == snapshot.baseline, BASE_CHANGED);
    var _ :- Require(seen.branch.Some? ==> seen.branch.value == snapshot.commit, REMOTE_REF_CONFLICT);
    Require(seen.pr.Some? ==> seen.pr.value.head == snapshot.commit && seen.pr.value.draft, REMOTE_PR_CONFLICT)
  }

  /** The observed remote holds everything the snapshot promises. */
  predicate Complete(snapshot: Snapshot, seen: Observation) {
    && seen.branch == Some(snapshot.commit)
    && (snapshot.policy.mode == PUSH_AND_PR ==> seen.pr.Some?)
  }

  function CreatePublication(db: Db, actor: Id, id: Id, snapshot: Snapshot, seen: Observation): Result<Db>
    requires id !in db.publications
  {
    var _ :- Conditions(db.world, actor, snapshot.run, Some(snapshot));
    var created := Publication(snapshot.run, snapshot.project, snapshot, Digest(snapshot), PENDING_APPROVAL, 1,
                             None, None, false, false, false, []);
    if Collides(db, id, created) then Err(STATE_CONFLICT)
    else Ok(db.(publications := db.publications[id := Remembered(created, seen)]))
  }

  function StartPublishing(db: Db, id: Id, a: Id): Result<Db>
    requires id in db.publications && a in db.approvals
  {
    var _ :- CurrentApproval(db, id, a);
    var row := db.publications[id];
    var moved :- Transition(db, id, row, row.(state := PUBLISHING, reconciled := false));
    Ok(moved.(approvals := moved.approvals[a := moved.approvals[a].(starts := moved.approvals[a].starts + 1)]))
  }

  function Dispatch(db: Db, id: Id, a: Id, job: Id, stage: Stage): Result<Db>
    requires id in db.publications && a in db.approvals
  {
    var _ :- CurrentApproval(db, id, a);
    Ok(db.(publications := db.publications[id := AddAttempt(db.publications[id], stage, job)]))
  }

  /** The last check before a command that writes to the remote is launched. */
  function AuthorizeWrite(db: Db, id: Id, a: Id, job: Id): Result<()>
    requires id in db.publications && a in db.approvals
  {
    var _ :- Require(job in db.jobs && db.jobs[job].state == RUNNING, WORKER_LEASE_REQUIRED);
    var _ :- Require(db.publications[id].state == PUBLISHING && db.approvals[a].publication == id, APPROVAL_INVALID);
    CurrentApproval(db, id, a)
  }

  function Publish(db: Db, id: Id, a: Id): Result<Db>
    requires id in db.publications && a in db.approvals
  {
    var _ :- CurrentApproval(db, id, a);
    var row := db.publications[id];
    Transition(db, id, row, row.(state := PUBLISHED))
  }

  /** The failure handler of an execution. */
  function Settle(db: Db, id: Id, unknown: bool, dispatched: bool): Result<Db>
    requires id in db.publications
  {
    var row := db.publications[id];
    if dispatched || unknown then Transition(db, id, row, row.(state := UNKNOWN))
    else if row.SeenRemotely() then
      var moved :- Transition(db, id, row, row.(state := PARTIAL));
      Ok(moved.(approvals := Withdraw(moved.approvals, {id})))
    else Invalidate(db, id)
  }

  function StartReconcile(db: Db, id: Id, job: Id): Db
    requires id in db.publications
  {
    db.(publications := db.publications[id := AddAttempt(db.publications[id], RECONCILE, job)])
  }

  /** The newest valid approval, which a reconciliation may still complete. */
  function ReconcileTarget(db: Db, id: Id, seen: Observation, approval: Option<Id>): PublicationState
    requires id in db.publications && (approval.Some? ==> approval.value in db.approvals)
  {
    var row := db.publications[id];
    if seen.branch.Some? then
      if Complete(row.snapshot, seen) && approval.Some? && CurrentApproval(db, id, approval.value).Ok?
         && CheckObservation(row.snapshot, seen, true).Ok?
      then PUBLISHED else PARTIAL
    else if seen.pr.Some? then UNKNOWN
    else if row.effects then PARTIAL
    else FAILED
  }

  function FinishAttempt(row: Publication, index: nat, failed: bool, confirmed: Option<Sha>,
                         base: Option<Sha>): Publication
    requires index < |row.attempts|
  {
    var finished := row.attempts[index].(finished := true, failed := failed, confirmed := confirmed, base := base);
    row.(attempts := row.attempts[index := finished])
  }

  function SettleReconcile(db: Db, id: Id, seen: Publication, target: PublicationState, index: nat,
                           observed: Observation): Result<Db>
    requires id in db.publications && index < |db.publications[id].attempts|
  {
    var row := db.publications[id];
    var finished := FinishAttempt(row, index, false, observed.branch, Some(observed.base));
    Transition(db, id, seen, finished.(state := target, reconciled := target != UNKNOWN))
  }

  function FailReconcile(db: Db, id: Id, seen: Publication, index: nat): Result<Db>
    requires id in db.publications && index < |db.publications[id].attempts|
  {
    var row := db.publications[id];
    Transition(db, id, seen, FinishAttempt(row, index, true, None, None).(state := UNKNOWN, reconciled := false))
  }
}
