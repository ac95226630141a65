/** The publication tables and the services that update them in place. */
module PublicationStore {
  // Each service is tied to the function that specifies it, so what is proved about those functions holds of the
  // tables.

  import opened Outcomes
  import opened PublicationRows
  import opened PublicationSteps
  import opened PublicationInvariant

  lemma WithdrawMore(approvals: map<Id, Approval>, done: set<Id>, p: Id)
    ensures Withdraw(Withdraw(approvals, done), {p}) == Withdraw(approvals, done + {p})
  {
  }

  function InvalidatedRows(rows: map<Id, Publication>, done: set<Id>): map<Id, Publication> {
    map p | p in rows :: if p in done then InvalidatedRow(rows[p]) else rows[p]
  }

  function RevokedRows(rows: map<Id, Publication>, done: set<Id>): map<Id, Publication> {
    map p | p in rows :: if p in done then RevokedRow(rows[p]) else rows[p]
  }

  lemma InvalidatedMore(rows: map<Id, Publication>, done: set<Id>, p: Id)
    requires p in rows && p !in done
    ensures InvalidatedRows(rows, done)[p] == rows[p]
    ensures InvalidatedRows(rows, done)[p := InvalidatedRow(rows[p])] == InvalidatedRows(rows, done + {p})
  {
  }

  lemma RevokedMore(rows: map<Id, Publication>, done: set<Id>, p: Id)
    requires p in rows && p !in done
    ensures RevokedRows(rows, done)[p] == rows[p]
    ensures RevokedRows(rows, done)[p := RevokedRow(rows[p])] == RevokedRows(rows, done + {p})
  {
  }

  class Store {
    var world: World
    var publications: map<Id, Publication>
    var approvals: map<Id, Approval>
    var jobs: map<Id, Job>
    var records: seq<Record>

    function Tables(): Db
      reads this
    {
      Db(world, publications, approvals, jobs, records)
    }

    /** The unique constraint of the publication table. */
    ghost predicate Valid()
      reads this
    {
      LiveUnique(publications)
    }

    constructor (world: World)
      ensures Valid() && Tables() == Db(world, map[], map[], map[], [])
    {
      this.world, publications, approvals, jobs, records := world, map[], map[], map[], [];
    }

    /** The conditional update of one row, by state and version. */
    method Move(id: Id, seen: Publication, row: Publication) returns (r: Result<()>)
      requires Valid() && id in publications
      modifies this`publications
      ensures Valid() && Agrees(r, old(Tables()), Tables(), Transition(old(Tables()), id, seen, row))
    {
      var now := publications[id];
      if now.state != seen.state || now.version != seen.version || Collides(Tables(), id, row) {
        return Err(STATE_CONFLICT);
      }
      Uncollided(id, row);
      publications := publications[id := row.(version := now.version + 1)];
      return Ok(());
    }

    lemma Uncollided(id: Id, row: Publication)
      requires Valid() && id in publications && !Collides(Tables(), id, row)
      ensures LiveUnique(publications[id := row.(version := publications[id].version + 1)])
    {
      var rows := publications[id := row.(version := publications[id].version + 1)];
      forall p ensures OnlyLive(rows, p) {
        assert OnlyLive(publications, p);
      }
    }

    method InvalidateRow(id: Id) returns (r: Result<()>)
      requires Valid() && id in publications
      modifies this`publications, this`approvals
      ensures Valid() && (old(publications)[id].Live() || old(publications)[id].abandoned ==> r.Ok?)
      ensures r.Err? ==> Invalidate(old(Tables()), id) == Err(r.error)
      ensures r.Ok? ==>
                && Invalidate(old(Tables()), id) == Ok(Tables())
                && approvals == Withdraw(old(approvals), {id})
                && publications == old(publications)[id := InvalidatedRow(old(publications)[id])]
    {
      var row := publications[id];
      assert OnlyLive(publications, id);
      approvals := Withdraw(approvals, {id});
      if row.state == UNKNOWN {
        r := Move(id, row, row);
      } else if row.effects || row.remoteBranch.Some? || row.remotePr.Some? {
        r := Move(id, row, row.(state := PARTIAL));
      } else {
        r := Move(id, row, row.(state := INVALIDATED));
      }
    }

    method PreparePublication(actor: Id, run: Id, job: Id) returns (r: Result<()>)
      requires Valid() && job !in jobs
      modifies this`jobs
      ensures Valid() && Agrees(r, old(Tables()), Tables(), RequestPrepare(old(Tables()), actor, run, job))
    {
      var allowed := Conditions(world, actor, run, None);
      if allowed.Err? {
        return Err(allowed.error);
      }
      if exists p | p in publications ::
          publications[p].run == run && (publications[p].Live() || publications[p].remoteBranch.Some?) {
        return Err(PUBLICATION_EXISTS);
      }
      jobs := jobs[job := Job(PREPARE, run, world.runs[run].project, actor, None, QUEUED)];
      return Ok(());
    }

    method DecidePublication(actor: Id, id: Id, hash: Digest, approve: bool, approval: Id, job: Id)
      returns (r: Result<()>)
      requires Valid() && approval !in approvals && job !in jobs
      modifies this
      ensures Valid()
              && Agrees(r, old(Tables()), Tables(), Decide(old(Tables()), actor, id, hash, approve, approval, job))
    {
      if actor !in world.admins {
        return Err(ACCESS_DENIED);
      }
      if id !in publications {
        return Err(NOT_FOUND);
      }
      var row := publications[id];
      if row.hash != hash || Digest(row.snapshot) != hash {
        return Err(SNAPSHOT_CHANGED);
      }
      if row.state != PENDING_APPROVAL || row.abandoned {
        return Err(STATE_CONFLICT);
      }
      if approve {
        var allowed := Conditions(world, actor, row.run, Some(row.snapshot));
        if allowed.Err? {
          return Err(allowed.error);
        }
      }
      r := Move(id, row, row.(state := if approve then APPROVED else REJECTED));
      if r.Err? {
        return;
      }
      approvals := approvals[approval := Approval(id, actor, approve, hash, FULL, true, 0)];
      if approve {
        jobs := jobs[job := Job(EXECUTE, id, row.project, actor, Some(approval), QUEUED)];
      }
    }

    method ReconcilePublication(actor: Id, id: Id, job: Id) returns (r: Result<()>)
      requires Valid() && job !in jobs
      modifies this`jobs
      ensures Valid() && Agrees(r, old(Tables()), Tables(), RequestReconcile(old(Tables()), actor, id, job))
    {
      if actor !in world.admins {
        return Err(ACCESS_DENIED);
      }
      if id !in publications {
        return Err(NOT_FOUND);
      }
      var row := publications[id];
      if row.abandoned || row.state == PENDING_APPROVAL || row.state == APPROVED || row.state == PUBLISHING {
        return Err(STATE_CONFLICT);
      }
      if LiveJobs(Tables(), id) {
        return Err(PROCESS_STATE_UNKNOWN);
      }
      jobs := jobs[job := Job(RECONCILE_JOB, id, row.project, actor, None, QUEUED)];
      return Ok(());
    }

    /** Finds the finished reconciliation with the highest number. */
    method FindLastReconcile(attempts: seq<Attempt>) returns (found: Option<Attempt>)
      ensures found == LastReconcile(attempts)
    {
      var i := |attempts|;
      assert attempts[..i] == attempts;
      while i > 0
        invariant 0 <= i <= |attempts|
        invariant LastReconcile(attempts[..i]) == LastReconcile(attempts)
      {
        if attempts[i - 1].stage == RECONCILE && attempts[i - 1].finished {
          return Some(attempts[i - 1]);
        }
        assert attempts[..i][..i - 1] == attempts[..i - 1];
        i := i - 1;
      }
      return None;
    }

    method ApproveRecoveryOf(actor: Id, id: Id, hash: Digest, remaining: bool, approval: Id, job: Id)
      returns (r: Result<()>)
      requires Valid() && approval !in approvals && job !in jobs
      modifies this
      ensures Valid()
      ensures Agrees(r, old(Tables()), Tables(),
                     ApproveRecovery(old(Tables()), actor, id, hash, remaining, approval, job))
    {
      hide Conditions;
      if actor !in world.admins {
        return Err(ACCESS_DENIED);
      }
      if id !in publications {
        return Err(NOT_FOUND);
      }
      if LiveJobs(Tables(), id) {
        return Err(PROCESS_STATE_UNKNOWN);
      }
      var row := publications[id];
      var last := FindLastReconcile(row.attempts);
      if row.state != (if remaining then PARTIAL else FAILED) || !row.reconciled || row.abandoned
         || row.hash != hash || Digest(row.snapshot) != hash
      {
        return Err(RECOVERY_NOT_READY);
      }
      if last.None? || last.value.failed || last.value.base != Some(row.snapshot.baseline) {
        return Err(RECOVERY_NOT_READY);
      }
      if remaining && (row.snapshot.policy.mode != PUSH_AND_PR || row.remoteBranch != Some(row.snapshot.commit)
                       || row.remotePr.Some?) {
        return Err(RECOVERY_NOT_READY);
      }
      if last.value.confirmed != (if remaining then Some(row.snapshot.commit) else None) {
        return Err(RECOVERY_NOT_READY);
      }
      var allowed := Conditions(world, actor, row.run, Some(row.snapshot));
      if allowed.Err? {
        return Err(allowed.error);
      }
      r := Move(id, row, row.(state := APPROVED));
      if r.Err? {
        return;
      }
      approvals := Withdraw(approvals, {id});
      var scope := if remaining then REMAINING_PR else FULL;
      approvals := approvals[approval := Approval(id, actor, true, hash, scope, true, 0)];
      jobs := jobs[job := Job(EXECUTE, id, row.project, actor, Some(approval), QUEUED)];
    }

    method AbandonRemaining(actor: Id, id: Id, hash: Digest) returns (r: Result<()>)
      requires Valid()
      modifies this`publications, this`approvals
      ensures Valid() && Agrees(r, old(Tables()), Tables(), Abandon(old(Tables()), actor, id, hash))
    {
      if actor !in world.admins {
        return Err(ACCESS_DENIED);
      }
      if id !in publications {
        return Err(NOT_FOUND);
      }
      if LiveJobs(Tables(), id) {
        return Err(PROCESS_STATE_UNKNOWN);
      }
      var row := publications[id];
      if !(row.state == PARTIAL || row.state == FAILED || row.state == INVALIDATED) || !row.reconciled
         || row.hash != hash || row.abandoned
      {
        return Err(RECOVERY_NOT_READY);
      }
      r := Move(id, row, row.(abandoned := true));
      if r.Err? {
        return;
      }
      approvals := Withdraw(approvals, {id});
    }

    /** Invalidates live publications one after the other. */
    method InvalidateAll(ids: set<Id>)
      requires Valid() && forall p | p in ids :: p in publications && publications[p].Live()
      modifies this`publications, this`approvals
      ensures Valid() && approvals == Withdraw(old(approvals), ids)
      ensures publications == InvalidatedRows(old(publications), ids)
    {
      ghost var rows, decisions := publications, approvals;
      var todo := ids;
      assert ids - todo == {};
      while todo != {}
        invariant Valid() && todo <= ids && approvals == Withdraw(decisions, ids - todo)
        invariant publications == InvalidatedRows(rows, ids - todo)
        decreases |todo|
      {
        var p :| p in todo;
        WithdrawMore(decisions, ids - todo, p);
        InvalidatedMore(rows, ids - todo, p);
        assert ids - todo + {p} == ids - (todo - {p});
        var moved := InvalidateRow(p);
        todo := todo - {p};
      }
      assert ids - todo == ids;
    }

    /** A new policy version; every open publication of the project is invalidated. */
    method ConfigureProject(actor: Id, project: Id, expected: nat, enabled: bool, repository: Id, mode: Mode)
      returns (r: Result<()>)
      requires Valid()
      modifies this
      ensures Valid()
      ensures Agrees(r, old(Tables()), Tables(),
                     ConfigurePolicy(old(Tables()), actor, project, expected, enabled, repository, mode))
    {
      if actor !in world.admins {
        return Err(ACCESS_DENIED);
      }
      if project !in world.projects {
        return Err(NOT_FOUND);
      }
      var row := world.projects[project];
      if !row.active {
        return Err(PROJECT_ARCHIVED);
      }
      if ProjectBusy(Tables(), project) {
        return Err(PROJECT_BUSY);
      }
      if |row.policies| != expected {
        return Err(STATE_CONFLICT);
      }
      var changed := row.(enabled := enabled, policies := row.policies + [Policy(expected + 1, repository, mode)]);
      InvalidateAll(Superseded(Tables(), project));
      world := world.(projects := world.projects[project := changed]);
      assert publications == map p | p in old(publications) ::
        if p in Superseded(old(Tables()), project) then InvalidatedRow(old(publications)[p]) else old(publications)[p];
      return Ok(());
    }

    /** The worker of this job was lost, or it ended with an error. */
    method MarkJobInterrupted(job: Id) returns (r: Result<()>)
      requires Valid() && job in jobs
      modifies this`publications, this`approvals
      ensures Valid()
      ensures r.Ok? ==> MarkInterrupted(old(Tables()), job) == Ok(Tables())
      ensures r.Err? ==> MarkInterrupted(old(Tables()), job) == Err(r.error)
    {
      var id := jobs[job].subject;
      if jobs[job].kind == PREPARE || id !in publications {
        return Ok(());
      }
      var row := publications[id];
      if row.abandoned || row.state == PUBLISHED || row.state == REJECTED || row.state == INVALIDATED {
        return Ok(());
      }
      approvals := Withdraw(approvals, {id});
      if row.state == PUBLISHING || row.state == UNKNOWN || Dispatched(row, job) {
        r := Move(id, row, row.(state := UNKNOWN, reconciled := false));
      } else {
        WithdrawMore(old(approvals), {id}, id);
        assert {id} + {id} == {id};
        r := InvalidateRow(id);
      }
    }

    method RevokeRow(p: Id)
      requires Valid() && p in publications
      modifies this`publications, this`approvals
      ensures Valid() && publications == old(publications)[p := RevokedRow(old(publications)[p])]
      ensures approvals == if Voids(old(publications)[p]) then Withdraw(old(approvals), {p}) else old(approvals)
    {
      var row := publications[p];
      assert OnlyLive(publications, p);
      if row.state == PUBLISHING || row.state == UNKNOWN {
        var moved := Move(p, row, row.(state := UNKNOWN, reconciled := false));
      } else if row.state != PUBLISHED && row.state != REJECTED && row.state != INVALIDATED {
        var moved := InvalidateRow(p);
      }
    }

    method RevokeAll(ids: set<Id>)
      requires Valid() && ids <= publications.Keys
      modifies this`publications, this`approvals
      ensures Valid() && approvals == Withdraw(old(approvals), Voided(old(publications), ids))
      ensures publications == RevokedRows(old(publications), ids)
    {
      ghost var rows, decisions := publications, approvals;
      var todo := ids;
      assert ids - todo == {};
      while todo != {}
        invariant Valid() && todo <= ids && approvals == Withdraw(decisions, Voided(rows, ids - todo))
        invariant publications == RevokedRows(rows, ids - todo)
        decreases |todo|
      {
        var p :| p in todo;
        WithdrawMore(decisions, Voided(rows, ids - todo), p);
        VoidedMore(rows, ids - todo, p);
        RevokedMore(rows, ids - todo, p);
        assert ids - todo + {p} == ids - (todo - {p});
        RevokeRow(p);
        todo := todo - {p};
      }
      assert ids - todo == ids;
    }

    /** Access was revoked: the user's approvals are withdrawn and what rested on them is invalidated. */
    method RevokeActorPublications(user: Id, within: Option<Id>)
      requires Valid()
      modifies this`publications, this`approvals
      ensures Valid() && Tables() == RevokePublications(old(Tables()), user, within)
    {
      var ids := RevokedPublications(Tables(), user, within) * publications.Keys;
      approvals := map a | a in approvals ::
        if Revoked(Tables(), user, within, a) then approvals[a].(valid := false) else approvals[a];
      RevokedApprovals(old(Tables()), approvals, user, within);
      RevokeAll(ids);
    }

    // ---- the worker's own updates ----

    /** The prepared publication is inserted, if the guard still holds and no live one of its run exists. */
    method SavePublication(actor: Id, id: Id, snapshot: Snapshot, seen: Observation) returns (r: Result<()>)
      requires Valid() && id !in publications
      modifies this`publications
      ensures Valid() && Agrees(r, old(Tables()), Tables(), CreatePublication(old(Tables()), actor, id, snapshot, seen))
    {
      var allowed := Conditions(world, actor, snapshot.run, Some(snapshot));
      if allowed.Err? {
        return Err(allowed.error);
      }
      var created := Publication(snapshot.run, snapshot.project, snapshot, Digest(snapshot), PENDING_APPROVAL, 1,
                                 None, None, false, false, false, []);
      if Collides(Tables(), id, created) {
        return Err(STATE_CONFLICT);
      }
      Inserting(id, Remembered(created, seen));
      publications := publications[id := Remembered(created, seen)];
      return Ok(());
    }

    lemma Inserting(id: Id, row: Publication)
      requires Valid() && id !in publications && !Collides(Tables(), id, row)
      ensures LiveUnique(publications[id := row])
    {
      var rows := publications[id := row];
      forall p ensures OnlyLive(rows, p) {
        assert OnlyLive(publications, p);
      }
    }

    /** The attempt is recorded under the guard, before the command that writes is launched. */
    method RecordDispatch(id: Id, a: Id, job: Id, stage: Stage) returns (r: Result<()>)
      requires Valid() && id in publications && a in approvals
      modifies this`publications
      ensures Valid() && Agrees(r, old(Tables()), Tables(), Dispatch(old(Tables()), id, a, job, stage))
    {
      r := CurrentApproval(Tables(), id, a);
      if r.Err? {
        return;
      }
      var row := AddAttempt(publications[id], stage, job);
      Remembering(id, row);
      publications := publications[id := row];
    }

    method RememberObservation(id: Id, seen: Observation)
      requires Valid() && id in publications
      modifies this`publications
      ensures Valid() && Tables() == Remember(old(Tables()), id, seen)
    {
      var row := publications[id];
      if seen.branch.Some? {
        row := row.(remoteBranch := seen.branch, effects := true);
      }
      if seen.pr.Some? {
        row := row.(remotePr := Some(seen.pr.value.number), effects := true);
      }
      Remembering(id, row);
      publications := publications[id := row];
    }

    lemma Remembering(id: Id, row: Publication)
      requires Valid() && id in publications
      requires row.Live() == publications[id].Live() && row.run == publications[id].run
      ensures LiveUnique(publications[id := row])
    {
      var rows := publications[id := row];
      forall p ensures OnlyLive(rows, p) {
        assert OnlyLive(publications, p) && OnlyLive(publications, id);
      }
    }

    method StartPublishingOf(id: Id, a: Id) returns (r: Result<()>)
      requires Valid() && id in publications && a in approvals
      modifies this`publications, this`approvals
      ensures Valid() && Agrees(r, old(Tables()), Tables(), StartPublishing(old(Tables()), id, a))
    {
      r := CurrentApproval(Tables(), id, a);
      if r.Err? {
        return;
      }
      r := Move(id, publications[id], publications[id].(state := PUBLISHING, reconciled := false));
      if r.Err? {
        return;
      }
      approvals := approvals[a := approvals[a].(starts := approvals[a].starts + 1)];
    }

    method PublishExecution(id: Id, a: Id) returns (r: Result<()>)
      requires Valid() && id in publications && a in approvals
      modifies this`publications
      ensures Valid() && Agrees(r, old(Tables()), Tables(), Publish(old(Tables()), id, a))
    {
      r := CurrentApproval(Tables(), id, a);
      if r.Err? {
        return;
      }
      r := Move(id, publications[id], publications[id].(state := PUBLISHED));
    }

    /** The failure handler of an execution. */
    method SettleExecution(id: Id, unknown: bool, dispatched: bool) returns (r: Result<()>)
      requires Valid() && id in publications
      modifies this`publications, this`approvals
      ensures Valid() && Agrees(r, old(Tables()), Tables(), Settle(old(Tables()), id, unknown, dispatched))
    {
      var row := publications[id];
      if dispatched || unknown {
        r := Move(id, row, row.(state := UNKNOWN));
      } else if row.effects || row.remoteBranch.Some? || row.remotePr.Some? {
        r := Move(id, row, row.(state := PARTIAL));
        if r.Ok? {
          approvals := Withdraw(approvals, {id});
        }
      } else {
        r := InvalidateRow(id);
      }
    }

    method SettleReconciliation(id: Id, held: Publication, target: PublicationState, index: nat,
                                observed: Observation) returns (r: Result<()>)
      requires Valid() && id in publications && index < |publications[id].attempts|
      modifies this`publications
      ensures Valid()
              && Agrees(r, old(Tables()), Tables(), SettleReconcile(old(Tables()), id, held, target, index, observed))
    {
      var row := publications[id];
      var attempt := row.attempts[index].(finished := true, failed := false, confirmed := observed.branch,
                                          base := Some(observed.base));
      row := row.(attempts := row.attempts[index := attempt], state := target, reconciled := target != UNKNOWN);
      r := Move(id, held, row);
    }
  }

  /** A revocation withdraws every decision on such a row, not only the revoked user's. */
  predicate Voids(row: Publication) {
    row.state in {PENDING_APPROVAL, APPROVED, FAILED, PARTIAL}
  }

  function Voided(publications: map<Id, Publication>, done: set<Id>): set<Id> {
    set p | p in done && p in publications && Voids(publications[p])
  }

  lemma VoidedMore(publications: map<Id, Publication>, done: set<Id>, p: Id)
    requires p in publications
    ensures Voided(publications, done + {p}) ==
            if Voids(publications[p]) then Voided(publications, done) + {p} else Voided(publications, done)
  {
  }

  lemma RevokedApprovals(d: Db, withdrawn: map<Id, Approval>, user: Id, within: Option<Id>)
    requires withdrawn == map a | a in d.approvals ::
               if Revoked(d, user, within, a) then d.approvals[a].(valid := false) else d.approvals[a]
    ensures Withdraw(withdrawn, Voided(d.publications, RevokedPublications(d, user, within) * d.publications.Keys))
            == RevokePublications(d, user, within).approvals
  {
  }
}
