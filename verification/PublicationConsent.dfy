/** What every step keeps about approvals: who consented, to what, and how often that consent is used. Most steps only
    let consent fade, and one lemma covers all of those; the few that grant or use consent are shown one by one. */
module PublicationConsent {
  import opened Outcomes
  import opened PublicationRows
  import opened PublicationSteps
  import opened PublicationSystem
  import opened PublicationInvariant
  import opened PublicationRequests

  // ---- the invariant ----

  predicate ValidOn(db: Db, a: Id, p: Id) {
    a in db.approvals && db.approvals[a].valid && db.approvals[a].publication == p
  }

  /** No other valid decision is on the same publication. */
  ghost predicate OnlyValid(db: Db, a: Id) {
    a in db.approvals && db.approvals[a].valid ==>
      forall b | b in db.approvals && db.approvals[b].valid
        && db.approvals[b].publication == db.approvals[a].publication :: b == a
  }

  predicate Backs(db: Db, a: Id, p: Id) {
    ValidOn(db, a, p) && db.approvals[a].approve && p in db.publications
      && db.approvals[a].hash == db.publications[p].hash
  }

  /** An approved publication, or one in progress, has a valid approval of its snapshot. */
  ghost predicate Backed(db: Db, p: Id) {
    p in db.publications && db.publications[p].state in {APPROVED, PUBLISHING} ==> exists a :: Backs(db, a, p)
  }

  ghost predicate Undecided(db: Db, p: Id) {
    p in db.publications && db.publications[p].state == PENDING_APPROVAL ==>
      forall a | a in db.approvals :: db.approvals[a].publication != p
  }

  ghost predicate AbandonedVoid(db: Db, p: Id) {
    p in db.publications && db.publications[p].abandoned ==> forall a :: !ValidOn(db, a, p)
  }

  predicate OnSnapshot(db: Db, a: Id) {
    a in db.approvals ==>
      && db.approvals[a].publication in db.publications
      && db.approvals[a].hash == db.publications[db.approvals[a].publication].hash
  }

  predicate ExecutesApproval(db: Db, j: Id, a: Id) {
    j in db.jobs && db.jobs[j].kind == EXECUTE && db.jobs[j].approval == Some(a)
  }

  /** One approval gives rise to one execution. */
  ghost predicate OneExecution(db: Db, a: Id) {
    && (forall j, k | ExecutesApproval(db, j, a) && ExecutesApproval(db, k, a) :: j == k)
    && (a !in db.approvals ==> forall j :: !ExecutesApproval(db, j, a))
  }

  predicate Early(thread: Thread, j: Id) {
    thread.Working? && thread.job == j && (thread.pc.Claimed? || thread.pc.Begin? || thread.pc.Approve?)
  }

  /** An execution that can still start publishing. */
  predicate MayStart(s: System, j: Id) {
    j in s.state.db.jobs && (s.state.db.jobs[j].state == QUEUED || Early(s.thread, j))
  }

  /** An approval that started publishing has no execution that can start again. */
  ghost predicate Starts(s: System, a: Id) {
    a in s.state.db.approvals ==>
      && s.state.db.approvals[a].starts <= 1
      && (s.state.db.approvals[a].starts == 1 ==> forall j | ExecutesApproval(s.state.db, j, a) :: !MayStart(s, j))
  }

  ghost predicate Consented(s: System) {
    && (forall a {:trigger OnlyValid(s.state.db, a)} :: OnlyValid(s.state.db, a))
    && (forall p {:trigger Backed(s.state.db, p)} :: Backed(s.state.db, p))
    && (forall p {:trigger Undecided(s.state.db, p)} :: Undecided(s.state.db, p))
    && (forall p {:trigger AbandonedVoid(s.state.db, p)} :: AbandonedVoid(s.state.db, p))
    && (forall a {:trigger OnSnapshot(s.state.db, a)} :: OnSnapshot(s.state.db, a))
    && (forall a {:trigger OneExecution(s.state.db, a)} :: OneExecution(s.state.db, a))
    && (forall a {:trigger Starts(s, a)} :: Starts(s, a))
  }

  // ---- what stays as it was recorded ----

  /** A decision keeps its content; a withdrawn one stays withdrawn; a fresh one is by an administrator. */
  predicate ApprovalCarried(d: Db, e: Db, a: Id) {
    && (a in d.approvals ==>
          && a in e.approvals && d.approvals[a].starts <= e.approvals[a].starts
          && e.approvals[a] == d.approvals[a].(valid := e.approvals[a].valid, starts := e.approvals[a].starts)
          && (e.approvals[a].valid ==> d.approvals[a].valid))
    && (a in e.approvals && a !in d.approvals ==> e.approvals[a].actor in d.world.admins)
  }

  predicate RowCarried(d: Db, e: Db, p: Id) {
    p in d.publications ==>
      && p in e.publications && d.publications[p].SameTarget(e.publications[p])
      && (d.publications[p].abandoned ==> e.publications[p].abandoned)
  }

  predicate JobCarried(d: Db, e: Db, j: Id) {
    j in d.jobs ==>
      && j in e.jobs && e.jobs[j] == d.jobs[j].(state := e.jobs[j].state)
      && (e.jobs[j].state == QUEUED ==> d.jobs[j].state == QUEUED)
  }

  ghost predicate Carries(d: Db, e: Db) {
    && (forall a {:trigger ApprovalCarried(d, e, a)} :: ApprovalCarried(d, e, a))
    && (forall p {:trigger RowCarried(d, e, p)} :: RowCarried(d, e, p))
    && (forall j {:trigger JobCarried(d, e, j)} :: JobCarried(d, e, j))
  }

  // ---- steps that only take consent away ----

  /** The decision is the same, except that it may have become invalid. */
  predicate Faded(before: Db, after: Db, a: Id) {
    && (a in before.approvals <==> a in after.approvals)
    && (a in before.approvals ==>
          && after.approvals[a] == before.approvals[a].(valid := after.approvals[a].valid)
          && (after.approvals[a].valid ==> before.approvals[a].valid))
  }

  /** The row gains no consent, and loses its approved states with its approval. */
  ghost predicate RowFaded(before: Db, after: Db, p: Id) {
    && (p in before.publications <==> p in after.publications)
    && (p in before.publications ==>
          var a, b := before.publications[p], after.publications[p];
          && a.SameTarget(b)
          && (b.state == PENDING_APPROVAL ==> a.state == PENDING_APPROVAL)
          && (a.abandoned ==> b.abandoned)
          && (b.abandoned ==> a.abandoned || forall x :: !ValidOn(after, x, p))
          && (b.state in {APPROVED, PUBLISHING} ==>
                a.state in {APPROVED, PUBLISHING} && forall x | ValidOn(before, x, p) :: ValidOn(after, x, p)))
  }

  predicate JobFaded(before: Db, after: Db, j: Id) {
    && (j in before.jobs ==>
          && j in after.jobs && after.jobs[j] == before.jobs[j].(state := after.jobs[j].state)
          && (after.jobs[j].state == QUEUED ==> before.jobs[j].state == QUEUED))
    && (j in after.jobs && j !in before.jobs ==> after.jobs[j].kind != EXECUTE)
  }

  ghost predicate Fades(before: Db, after: Db) {
    && (forall a {:trigger Faded(before, after, a)} :: Faded(before, after, a))
    && (forall p {:trigger RowFaded(before, after, p)} :: RowFaded(before, after, p))
    && (forall j {:trigger JobFaded(before, after, j)} :: JobFaded(before, after, j))
  }

  /** The thread is no nearer to a start than it was, except by claiming a queued job. */
  predicate Later(s: System, t: System) {
    t.thread.Working? && Early(t.thread, t.thread.job) ==> MayStart(s, t.thread.job)
  }

  lemma FadeKeeps(s: System, t: System)
    requires Consented(s) && Fades(s.state.db, t.state.db) && Later(s, t)
    ensures Consented(t) && Carries(s.state.db, t.state.db)
  {
    var d, e := s.state.db, t.state.db;
    FadeCarries(d, e);
    forall a ensures OnlyValid(e, a) && OnSnapshot(e, a) {
      assert OnlyValid(d, a) && OnSnapshot(d, a) && Faded(d, e, a);
      if a in d.approvals {
        assert RowFaded(d, e, d.approvals[a].publication);
      }
      forall b | b in e.approvals ensures Faded(d, e, b) {
      }
    }
    forall p ensures Backed(e, p) && Undecided(e, p) && AbandonedVoid(e, p) {
      assert Backed(d, p) && Undecided(d, p) && AbandonedVoid(d, p) && RowFaded(d, e, p);
      FadedRow(d, e, p);
    }
    forall a ensures OneExecution(e, a) && Starts(t, a) {
      assert OneExecution(d, a) && Starts(s, a) && Faded(d, e, a);
      FadedExecution(s, t, a);
    }
  }

  lemma FadeCarries(d: Db, e: Db)
    requires Fades(d, e)
    ensures Carries(d, e)
  {
    forall a ensures ApprovalCarried(d, e, a) {
      assert Faded(d, e, a);
    }
    forall p ensures RowCarried(d, e, p) {
      assert RowFaded(d, e, p);
    }
    forall j ensures JobCarried(d, e, j) {
      assert JobFaded(d, e, j);
    }
  }

  lemma FadedRow(d: Db, e: Db, p: Id)
    requires Fades(d, e) && RowFaded(d, e, p) && Backed(d, p) && Undecided(d, p) && AbandonedVoid(d, p)
    ensures Backed(e, p) && Undecided(e, p) && AbandonedVoid(e, p)
  {
    forall a ensures ValidOn(e, a, p) ==> ValidOn(d, a, p) {
      assert Faded(d, e, a);
    }
    forall a | a in e.approvals ensures a in d.approvals && d.approvals[a].publication == e.approvals[a].publication {
      assert Faded(d, e, a);
    }
    if p in e.publications && e.publications[p].state in {APPROVED, PUBLISHING} {
      var a :| Backs(d, a, p);
      assert Faded(d, e, a);
      assert Backs(e, a, p);
    }
  }

  lemma FadedExecution(s: System, t: System, a: Id)
    requires Fades(s.state.db, t.state.db) && Later(s, t) && Faded(s.state.db, t.state.db, a)
    requires OneExecution(s.state.db, a) && Starts(s, a)
    ensures OneExecution(t.state.db, a) && Starts(t, a)
  {
    forall j | ExecutesApproval(t.state.db, j, a) ensures ExecutesApproval(s.state.db, j, a)
      && (MayStart(t, j) ==> MayStart(s, j)) {
      assert JobFaded(s.state.db, t.state.db, j);
    }
  }

  /** Nothing about consent differs. */
  lemma SameFades(d: Db, e: Db)
    requires e.approvals == d.approvals && e.publications == d.publications && e.jobs == d.jobs
    ensures Fades(d, e)
  {
    forall a ensures Faded(d, e, a) {
    }
    forall p ensures RowFaded(d, e, p) {
    }
    forall j ensures JobFaded(d, e, j) {
    }
  }

  /** One row changes and decisions on it may be withdrawn. */
  lemma RowFades(d: Db, e: Db, p: Id)
    requires p in d.publications && p in e.publications && e.publications == d.publications[p := e.publications[p]]
    requires e.jobs == d.jobs && (e.approvals == d.approvals || e.approvals == Withdraw(d.approvals, {p}))
    requires d.publications[p].SameTarget(e.publications[p])
    requires e.publications[p].state == PENDING_APPROVAL ==> d.publications[p].state == PENDING_APPROVAL
    requires d.publications[p].abandoned ==> e.publications[p].abandoned
    requires e.publications[p].abandoned ==> d.publications[p].abandoned || e.approvals == Withdraw(d.approvals, {p})
    requires e.publications[p].state in {APPROVED, PUBLISHING} ==>
               d.publications[p].state in {APPROVED, PUBLISHING} && e.approvals == d.approvals
    ensures Fades(d, e)
  {
    forall a ensures Faded(d, e, a) {
    }
    forall q ensures RowFaded(d, e, q) {
    }
    forall j ensures JobFaded(d, e, j) {
    }
  }

  // ---- requests that give consent ----

  /** Row `p` takes the fresh decision `a`; other decisions on it were withdrawn or never existed. */
  ghost predicate Granted(d: Db, e: Db, a: Id, p: Id) {
    && a !in d.approvals && a in e.approvals && p in d.publications && p in e.publications
    && e.approvals[a].publication == p && e.approvals[a].valid && e.approvals[a].starts == 0
    && d.publications[p].SameTarget(e.publications[p]) && e.approvals[a].hash == e.publications[p].hash
    && e.approvals[a].actor in d.world.admins
    && e.publications == d.publications[p := e.publications[p]]
    && !d.publications[p].abandoned && !e.publications[p].abandoned
       && e.publications[p].state !in {PENDING_APPROVAL, PUBLISHING}
    && (e.publications[p].state == APPROVED ==> e.approvals[a].approve)
    && (e.approvals == Withdraw(d.approvals, {p})[a := e.approvals[a]]
        || (e.approvals == d.approvals[a := e.approvals[a]] && d.publications[p].state == PENDING_APPROVAL))
  }

  ghost predicate Grants(d: Db, e: Db, a: Id, j: Id) {
    && a in e.approvals && Granted(d, e, a, e.approvals[a].publication)
    && (e.jobs == d.jobs
        || (j !in d.jobs && j in e.jobs && e.jobs == d.jobs[j := e.jobs[j]] && e.jobs[j].kind == EXECUTE
            && e.jobs[j].approval == Some(a)))
  }

  lemma GrantDecisions(s: System, t: System, a: Id, j: Id)
    requires Consented(s) && Grants(s.state.db, t.state.db, a, j)
    ensures forall x :: OnlyValid(t.state.db, x) && OnSnapshot(t.state.db, x)
    ensures forall p :: Undecided(t.state.db, p) && AbandonedVoid(t.state.db, p)
  {
    var d, e := s.state.db, t.state.db;
    var p := e.approvals[a].publication;
    assert Undecided(d, p);
    forall x ensures OnlyValid(e, x) && OnSnapshot(e, x) {
      assert OnlyValid(d, x) && OnSnapshot(d, x);
    }
    forall q ensures Undecided(e, q) && AbandonedVoid(e, q) {
      assert Undecided(d, q) && AbandonedVoid(d, q);
      forall x ensures ValidOn(e, x, q) && x != a ==> ValidOn(d, x, q) {
      }
    }
  }

  lemma GrantBacks(s: System, t: System, a: Id, j: Id, p: Id)
    requires Consented(s) && Grants(s.state.db, t.state.db, a, j)
    ensures Backed(t.state.db, p)
  {
    var d, e := s.state.db, t.state.db;
    assert Backed(d, p);
    if p in e.publications && e.publications[p].state in {APPROVED, PUBLISHING} {
      if p == e.approvals[a].publication {
        assert Backs(e, a, p);
      } else {
        var b :| Backs(d, b, p);
        assert Backs(e, b, p);
      }
    }
  }

  lemma GrantExecutes(s: System, t: System, a: Id, j: Id, x: Id)
    requires Consented(s) && Grants(s.state.db, t.state.db, a, j) && t.thread == s.thread
    requires s.thread.Working? ==> s.thread.job in s.state.db.jobs
    ensures OneExecution(t.state.db, x) && Starts(t, x)
  {
    var d, e := s.state.db, t.state.db;
    assert OneExecution(d, x) && Starts(s, x) && OneExecution(d, a);
    forall k ensures ExecutesApproval(e, k, x) ==> ExecutesApproval(d, k, x) || (k == j && x == a) {
    }
  }

  lemma GrantCarries(d: Db, e: Db, a: Id, j: Id)
    requires Grants(d, e, a, j)
    ensures Carries(d, e)
  {
    forall x ensures ApprovalCarried(d, e, x) {
    }
    forall p ensures RowCarried(d, e, p) {
    }
    forall k ensures JobCarried(d, e, k) {
    }
  }

  lemma GrantKeeps(s: System, t: System, a: Id, j: Id)
    requires Consented(s) && Grants(s.state.db, t.state.db, a, j) && t.thread == s.thread
    requires s.thread.Working? ==> s.thread.job in s.state.db.jobs
    ensures Consented(t) && Carries(s.state.db, t.state.db)
  {
    GrantCarries(s.state.db, t.state.db, a, j);
    GrantDecisions(s, t, a, j);
    forall p ensures Backed(t.state.db, p) {
      GrantBacks(s, t, a, j, p);
    }
    forall x ensures OneExecution(t.state.db, x) && Starts(t, x) {
      GrantExecutes(s, t, a, j, x);
    }
  }

  // ---- each request ----

  lemma DecideConsents(s: System, actor: Id, id: Id, hash: Digest, approve: bool, approval: Id, job: Id)
    requires Core(s) && Consented(s) && job !in s.state.db.jobs && approval !in s.state.db.approvals
    requires Decide(s.state.db, actor, id, hash, approve, approval, job).Ok?
    ensures var t := s.(state := s.state.(db := Decide(s.state.db, actor, id, hash, approve, approval, job).value));
            Consented(t) && Carries(s.state.db, t.state.db)
  {
    var t := s.(state := s.state.(db := Decide(s.state.db, actor, id, hash, approve, approval, job).value));
    GrantKeeps(s, t, approval, job);
  }

  lemma RecoveryConsents(s: System, actor: Id, id: Id, hash: Digest, remaining: bool, approval: Id, job: Id)
    requires Core(s) && Consented(s) && job !in s.state.db.jobs && approval !in s.state.db.approvals
    requires ApproveRecovery(s.state.db, actor, id, hash, remaining, approval, job).Ok?
    ensures var t :=
            s.(state := s.state.(db := ApproveRecovery(s.state.db, actor, id, hash, remaining, approval, job).value));
            Consented(t) && Carries(s.state.db, t.state.db)
  {
    var t := s.(state := s.state.(db := ApproveRecovery(s.state.db, actor, id, hash, remaining, approval, job).value));
    GrantKeeps(s, t, approval, job);
  }

  lemma QueueFades(d: Db, e: Db, j: Id)
    requires j !in d.jobs && j in e.jobs && e == d.(jobs := d.jobs[j := e.jobs[j]]) && e.jobs[j].kind != EXECUTE
    ensures Fades(d, e)
  {
    SameFades(d, e.(jobs := d.jobs));
    forall a ensures Faded(d, e, a) {
      assert Faded(d, e.(jobs := d.jobs), a);
    }
    forall p ensures RowFaded(d, e, p) {
      assert RowFaded(d, e.(jobs := d.jobs), p);
    }
    forall k ensures JobFaded(d, e, k) {
    }
  }

  lemma AbandonFades(d: Db, actor: Id, id: Id, hash: Digest)
    requires Abandon(d, actor, id, hash).Ok?
    ensures Fades(d, Abandon(d, actor, id, hash).value)
  {
    RowFades(d, Abandon(d, actor, id, hash).value, id);
  }

  /** A policy change withdraws every decision on the publications it invalidates. */
  lemma PolicyFades(d: Db, actor: Id, project: Id, expected: nat, enabled: bool, repository: Id, mode: Mode)
    requires ConfigurePolicy(d, actor, project, expected, enabled, repository, mode).Ok?
    ensures Fades(d, ConfigurePolicy(d, actor, project, expected, enabled, repository, mode).value)
  {
    var e := ConfigurePolicy(d, actor, project, expected, enabled, repository, mode).value;
    forall a ensures Faded(d, e, a) {
    }
    forall p ensures RowFaded(d, e, p) {
    }
    forall j ensures JobFaded(d, e, j) {
    }
  }

  lemma RevokedRowFades(d: Db, user: Id, within: Option<Id>, p: Id)
    requires forall a :: OnlyValid(d, a)
    ensures RowFaded(d, RevokePublications(d, user, within), p)
  {
    var e := RevokePublications(d, user, within);
    if p in d.publications && e.publications[p].state in {APPROVED, PUBLISHING} {
      assert p !in RevokedPublications(d, user, within);
    }
  }

  lemma RevocationFades(d: Db, user: Id, within: Option<Id>)
    requires forall a :: OnlyValid(d, a)
    ensures Fades(d, RevokePublications(d, user, within))
  {
    var e := RevokePublications(d, user, within);
    forall a ensures Faded(d, e, a) {
    }
    forall p ensures RowFaded(d, e, p) {
      RevokedRowFades(d, user, within, p);
    }
    forall j ensures JobFaded(d, e, j) {
    }
  }

  lemma EndFades(d: Db, e: Db, j: Id)
    requires j in d.jobs && j in e.jobs && e.approvals == d.approvals && e.publications == d.publications
    requires e.jobs == d.jobs[j := e.jobs[j]] && e.jobs[j] == d.jobs[j].(state := e.jobs[j].state)
             && e.jobs[j].state != QUEUED
    ensures Fades(d, e)
  {
    forall a ensures Faded(d, e, a) {
    }
    forall p ensures RowFaded(d, e, p) {
    }
    forall k ensures JobFaded(d, e, k) {
    }
  }

  lemma RequestFades(s: System, step: Step)
    requires Consented(s) && IsRequest(step) && !step.DecideRequest? && !step.RecoveryRequest?
    ensures Fades(s.state.db, Requested(s.state.db, step))
  {
    var d, e := s.state.db, Requested(s.state.db, step);
    if d == e {
      SameFades(d, e);
    } else {
      match step
      case PrepareRequest(_, _, job) => QueueFades(d, e, job);
      case ReconcileRequest(_, _, job) => QueueFades(d, e, job);
      case AbandonRequest(actor, id, hash) => AbandonFades(d, actor, id, hash);
      case PolicyRequest(actor, project, expected, enabled, repository, mode) =>
        PolicyFades(d, actor, project, expected, enabled, repository, mode);
      case Revocation(user, within) =>
        forall a ensures OnlyValid(d, a) {
        }
        RevocationFades(d, user, within);
      case JobCancelled(job) => EndFades(d, e, job);
      case WorldChange(_) => SameFades(d, e);
    }
  }

  lemma RequestConsents(s: System, step: Step)
    requires Core(s) && Consented(s) && IsRequest(step)
    ensures Consented(s.(state := s.state.(db := Requested(s.state.db, step))))
            && Carries(s.state.db, Requested(s.state.db, step))
  {
    var t := s.(state := s.state.(db := Requested(s.state.db, step)));
    if t == s {
      SameFades(s.state.db, t.state.db);
      FadeCarries(s.state.db, t.state.db);
    } else if step.DecideRequest? {
      DecideConsents(s, step.actor, step.id, step.hash, step.approve, step.approval, step.job);
    } else if step.RecoveryRequest? {
      RecoveryConsents(s, step.actor, step.id, step.hash, step.remaining, step.approval, step.job);
    } else {
      RequestFades(s, step);
      FadeKeeps(s, t);
    }
  }

  // ---- the worker ----

  /** What one step of the worker does to consent. */
  ghost predicate WorkFades(s: System, t: System) {
    Fades(s.state.db, t.state.db) && Later(s, t)
  }

  /** The thread moved, and nothing else did. */
  lemma MoveFades(s: System, t: System)
    requires t.state.db.approvals == s.state.db.approvals && t.state.db.publications == s.state.db.publications
    requires t.state.db.jobs == s.state.db.jobs && Later(s, t)
    ensures WorkFades(s, t)
  {
    SameFades(s.state.db, t.state.db);
  }

  lemma RaisedFades(s: System, unknown: bool)
    requires s.thread.Working? && s.thread.job in s.state.db.jobs
    ensures WorkFades(s, Raised(s, unknown))
  {
    MoveFades(s, Raised(s, unknown));
  }

  lemma LookFades(s: System, id: Id, input: Input, next: Observation -> Pc)
    requires KnownJob(s) && id in s.state.db.publications
    requires forall seen :: !next(seen).Claimed? && !next(seen).Begin? && !next(seen).Approve?
    ensures WorkFades(s, LookFrom(s, id, input, next))
  {
    RaisedFades(s, false);
    MoveFades(s, LookFrom(s, id, input, next));
  }

  lemma RememberFades(s: System, id: Id, seen: Observation, pc: Pc)
    requires KnownJob(s) && id in s.state.db.publications && !pc.Claimed? && !pc.Begin? && !pc.Approve?
    ensures WorkFades(s, Commit(s, Remember(s.state.db, id, seen), pc))
  {
    RowFades(s.state.db, Remember(s.state.db, id, seen), id);
  }

  lemma InterruptionFades(d: Db, job: Id)
    requires job in d.jobs && MarkInterrupted(d, job).Ok?
    ensures Fades(d, MarkInterrupted(d, job).value)
  {
    var e := MarkInterrupted(d, job).value;
    if e == d {
      SameFades(d, e);
    } else {
      RowFades(d, e, d.jobs[job].subject);
    }
  }

  lemma FinishFades(s: System, input: Input)
    requires KnownJob(s) && (s.thread.pc.Finish? || s.thread.pc.Close?)
    ensures WorkFades(s, WorkFinish(s, input))
  {
    var t := WorkFinish(s, input);
    if s.thread.pc.Close? {
      EndFades(s.state.db, t.state.db, s.thread.job);
    } else if t.state.db == s.state.db {
      MoveFades(s, t);
    } else {
      InterruptionFades(s.state.db, s.thread.job);
    }
  }

  lemma DispatchFades(s: System, write: Write)
    requires Executes(s)
    ensures WorkFades(s, DispatchStep(s, write))
  {
    RaisedFades(s, false);
    var stage := if write == PushWrite then PUSH_DISPATCH else PR_DISPATCH;
    match Dispatch(s.state.db, Subject(s), Consent(s), s.thread.job, stage)
    case Err(_) =>
    case Ok(db) => RowFades(s.state.db, db, Subject(s));
  }

  lemma PublishFades(s: System)
    requires Executes(s)
    ensures WorkFades(s, PublishedStep(s))
  {
    RaisedFades(s, false);
    match Publish(s.state.db, Subject(s), Consent(s))
    case Err(_) =>
    case Ok(db) => RowFades(s.state.db, db, Subject(s));
  }

  lemma SettleFades(s: System, unknown: bool, dispatched: bool)
    requires Executes(s)
    ensures WorkFades(s, SettledStep(s, unknown, dispatched))
  {
    match Settle(s.state.db, Subject(s), unknown, dispatched)
    case Err(_) => MoveFades(s, Goto(s, Finish(true)));
    case Ok(db) => RowFades(s.state.db, db, Subject(s));
  }

  lemma LooksFade(s: System, input: Input)
    requires Executes(s) && (s.thread.pc.FirstLook? || s.thread.pc.LookBack? || s.thread.pc.PrLook?
                             || s.thread.pc.FinalLook?)
    ensures WorkFades(s, WorkExecute(s, input))
  {
    hide WorkFades, LookFrom;
    match s.thread.pc
    case FirstLook => LookFades(s, Subject(s), input, seen => FirstSaw(seen));
    case LookBack => LookFades(s, Subject(s), input, seen => SawBack(seen));
    case PrLook => LookFades(s, Subject(s), input, seen => PrSaw(seen));
    case FinalLook(d) => LookFades(s, Subject(s), input, seen => FinalSaw(d, seen));
  }

  lemma SawsFade(s: System, input: Input)
    requires Executes(s) && (s.thread.pc.FirstSaw? || s.thread.pc.SawBack? || s.thread.pc.PrSaw?
                             || s.thread.pc.FinalSaw?)
    ensures WorkFades(s, WorkExecute(s, input))
  {
    hide WorkFades, CheckObservation, Complete;
    match s.thread.pc
    case FirstSaw(seen) => RememberFades(s, Subject(s), seen, AfterFirst(s, seen));
    case SawBack(seen) => RememberFades(s, Subject(s), seen, AfterPush(s, seen));
    case PrSaw(seen) => RememberFades(s, Subject(s), seen, BeforePr(s, seen));
    case FinalSaw(d, seen) => RememberFades(s, Subject(s), seen, AfterAll(s, d, seen));
  }

  lemma MovesFade(s: System, input: Input)
    requires Executes(s)
    requires s.thread.pc.Claimed? || s.thread.pc.Begin? || s.thread.pc.InnerLook? || s.thread.pc.AuthorizeStep?
             || s.thread.pc.Launch? || s.thread.pc.Wait? || s.thread.pc.Confirm?
    ensures WorkFades(s, WorkExecute(s, input))
  {
    hide WorkFades, Conditions, CurrentApproval, AuthorizeWrite, Observe, CheckObservation;
    MoveFades(s, WorkExecute(s, input));
  }

  lemma WritesFade(s: System, input: Input)
    requires Executes(s) && (s.thread.pc.DispatchWrite? || s.thread.pc.PublishStep? || s.thread.pc.SettleStep?)
    ensures WorkFades(s, WorkExecute(s, input))
  {
    hide WorkFades, DispatchStep, PublishedStep, SettledStep;
    match s.thread.pc
    case DispatchWrite(w) => DispatchFades(s, w);
    case PublishStep(_) => PublishFades(s);
    case SettleStep(unknown, dispatched) => SettleFades(s, unknown, dispatched);
  }

  lemma EndsFade(s: System, input: Input)
    requires Executes(s) && (s.thread.pc.Finish? || s.thread.pc.Close?)
    ensures WorkFades(s, WorkExecute(s, input))
  {
    FinishFades(s, input);
  }

  /** Every step of an execution but its start. */
  lemma ExecuteFades(s: System, input: Input)
    requires Executes(s) && ThreadOwns(s.state, s.thread) && !s.thread.pc.Approve?
    ensures WorkFades(s, WorkExecute(s, input))
  {
    var pc := s.thread.pc;
    if pc.FirstLook? || pc.LookBack? || pc.PrLook? || pc.FinalLook? {
      LooksFade(s, input);
    } else if pc.FirstSaw? || pc.SawBack? || pc.PrSaw? || pc.FinalSaw? {
      SawsFade(s, input);
    } else if pc.DispatchWrite? || pc.PublishStep? || pc.SettleStep? {
      WritesFade(s, input);
    } else if pc.Finish? || pc.Close? {
      EndsFade(s, input);
    } else {
      MovesFade(s, input);
    }
  }

  lemma ReconcileFades(s: System, input: Input)
    requires Reconciles(s) && ThreadOwns(s.state, s.thread)
    ensures WorkFades(s, WorkReconcile(s, input))
  {
    var pc := s.thread.pc;
    if pc.ReconcileSettle? {
      ReconcileSettleFades(s, pc.held, pc.index, pc.seen, pc.target, input);
    } else if pc.ReconcileFail? {
      ReconcileFailFades(s, pc.held, pc.index, input);
    } else if pc.ReconcileStart? || pc.ReconcileLook? || pc.ReconcileSaw? {
      ReconcileMovesFade(s, input);
    } else {
      ReconcileEndFades(s, input);
    }
  }

  lemma ReconcileMovesFade(s: System, input: Input)
    requires Reconciles(s) && (s.thread.pc.ReconcileStart? || s.thread.pc.ReconcileLook? || s.thread.pc.ReconcileSaw?)
    ensures WorkFades(s, WorkReconcile(s, input))
  {
    RaisedFades(s, false);
    match s.thread.pc
    case ReconcileStart => ReconcileStartFades(s);
    case ReconcileLook(held, n) => LookFades(s, Subject(s), input, seen => ReconcileSaw(held, n, seen));
    case ReconcileSaw(held, n, seen) => RememberFades(s, Subject(s), seen, AfterReconcile(s, held, n, seen));
  }

  lemma ReconcileEndFades(s: System, input: Input)
    requires Reconciles(s) && (s.thread.pc.Claimed? || s.thread.pc.Finish? || s.thread.pc.Close?)
    ensures WorkFades(s, WorkReconcile(s, input))
  {
    if s.thread.pc.Claimed? {
      MoveFades(s, Goto(s, ReconcileStart));
    } else {
      FinishFades(s, input);
    }
  }

  lemma ReconcileStartFades(s: System)
    requires Reconciles(s)
    ensures Fades(s.state.db, StartReconcile(s.state.db, Subject(s), s.thread.job))
  {
    RowFades(s.state.db, StartReconcile(s.state.db, Subject(s), s.thread.job), Subject(s));
  }

  lemma SettledRowFades(db: Db, id: Id, held: Publication, target: PublicationState, n: nat, seen: Observation)
    requires id in db.publications && n < |db.publications[id].attempts|
             && target in {PARTIAL, FAILED, PUBLISHED, UNKNOWN}
    requires SettleReconcile(db, id, held, target, n, seen).Ok?
    ensures Fades(db, SettleReconcile(db, id, held, target, n, seen).value)
  {
    RowFades(db, SettleReconcile(db, id, held, target, n, seen).value, id);
  }

  lemma FailedRowFades(db: Db, id: Id, held: Publication, n: nat)
    requires id in db.publications && n < |db.publications[id].attempts| && FailReconcile(db, id, held, n).Ok?
    ensures Fades(db, FailReconcile(db, id, held, n).value)
  {
    RowFades(db, FailReconcile(db, id, held, n).value, id);
  }

  lemma ReconcileSettleFades(s: System, held: Publication, n: nat, seen: Observation, target: PublicationState,
                             input: Input)
    requires Reconciles(s) && s.thread.pc == ReconcileSettle(held, n, seen, target) && ThreadOwns(s.state, s.thread)
    ensures WorkFades(s, WorkReconcile(s, input))
  {
    hide SettleReconcile, Fades;
    RaisedFades(s, false);
    if SettleReconcile(s.state.db, Subject(s), held, target, n, seen).Ok? {
      SettledRowFades(s.state.db, Subject(s), held, target, n, seen);
    }
  }

  lemma ReconcileFailFades(s: System, held: Publication, n: nat, input: Input)
    requires Reconciles(s) && s.thread.pc == ReconcileFail(held, n) && ThreadOwns(s.state, s.thread)
    ensures WorkFades(s, WorkReconcile(s, input))
  {
    hide FailReconcile, Fades;
    MoveFades(s, Goto(s, Finish(true)));
    if FailReconcile(s.state.db, Subject(s), held, n).Ok? {
      FailedRowFades(s.state.db, Subject(s), held, n);
    }
  }

  /** The approval is used: it starts publishing. */
  lemma StartConsents(s: System)
    requires Core(s) && Consented(s) && Executes(s) && s.thread.pc.Approve?
    ensures Consented(StartStep(s)) && Carries(s.state.db, StartStep(s).state.db)
  {
    hide Conditions;
    var d, p, a := s.state.db, Subject(s), Consent(s);
    match StartPublishing(d, p, a) {
      case Err(_) =>
        RaisedFades(s, false);
        FadeKeeps(s, Raised(s, false));
      case Ok(e) =>
        assert JobRefers(d, d.jobs[s.thread.job]) && JobSlotted(s.state, s.thread.job);
        StartedConsents(s, Commit(s, e, FirstLook), a, p);
    }
  }

  ghost predicate StartedBy(s: System, t: System, a: Id, p: Id) {
    && s.thread.Working? && ExecutesApproval(s.state.db, s.thread.job, a)
       && s.state.db.jobs[s.thread.job].state == RUNNING
    && s.thread.pc.Approve? && t.thread == s.thread.(pc := FirstLook)
    && Backs(s.state.db, a, p) && !s.state.db.publications[p].abandoned
    && p in t.state.db.publications && t.state.db.publications ==
       s.state.db.publications[p := t.state.db.publications[p]]
    && s.state.db.publications[p].SameTarget(t.state.db.publications[p])
    && t.state.db.publications[p].state == PUBLISHING && !t.state.db.publications[p].abandoned
    && t.state.db.approvals == s.state.db.approvals[a :=
                                                    s.state.db.approvals[a].(starts := s.state.db.approvals[a].starts
                                                        + 1)]
    && t.state.db.jobs == s.state.db.jobs
  }

  lemma StartedConsents(s: System, t: System, a: Id, p: Id)
    requires Consented(s) && StartedBy(s, t, a, p)
    ensures Consented(t) && Carries(s.state.db, t.state.db)
  {
    var d, e := s.state.db, t.state.db;
    StartCarries(s, t, a, p);
    forall x ensures OnlyValid(e, x) && OnSnapshot(e, x) {
      assert OnlyValid(d, x) && OnSnapshot(d, x);
    }
    forall q ensures Backed(e, q) && Undecided(e, q) && AbandonedVoid(e, q) {
      assert Backed(d, q) && Undecided(d, q) && AbandonedVoid(d, q);
      forall x ensures ValidOn(e, x, q) <==> ValidOn(d, x, q) {
      }
      forall x | Backs(d, x, q) ensures Backs(e, x, q) {
      }
      assert Backs(e, a, p);
    }
    forall x ensures OneExecution(e, x) && Starts(t, x) {
      assert OneExecution(d, x) && Starts(s, x) && OneExecution(d, a) && Starts(s, a);
      forall j ensures ExecutesApproval(e, j, x) <==> ExecutesApproval(d, j, x) {
      }
      assert MayStart(s, s.thread.job);
    }
  }

  lemma StartCarries(s: System, t: System, a: Id, p: Id)
    requires StartedBy(s, t, a, p)
    ensures Carries(s.state.db, t.state.db)
  {
    forall x ensures ApprovalCarried(s.state.db, t.state.db, x) {
    }
    forall q ensures RowCarried(s.state.db, t.state.db, q) {
    }
    forall k ensures JobCarried(s.state.db, t.state.db, k) {
    }
  }

  lemma SaveConsents(s: System, t: Snapshot, seen: Observation, id: Id)
    requires Consented(s) && Prepares(s) && s.thread.pc == PrepareSave(t, seen) && Unused(s.state, id)
    ensures Consented(SaveStep(s, t, seen, id)) && Carries(s.state.db, SaveStep(s, t, seen, id).state.db)
  {
    match CreatePublication(s.state.db, s.state.db.jobs[s.thread.job].actor, id, t, seen) {
      case Err(_) =>
        RaisedFades(s, false);
        FadeKeeps(s, Raised(s, false));
      case Ok(db) => CreatedConsents(s, Commit(s, db, Finish(false)), id);
    }
  }

  lemma CreatedConsents(s: System, t: System, id: Id)
    requires Consented(s) && s.thread.Working? && t.thread == s.thread.(pc := Finish(false))
             && id !in s.state.db.publications
    requires id in t.state.db.publications
    requires t.state.db == s.state.db.(publications := s.state.db.publications[id := t.state.db.publications[id]])
    requires t.state.db.publications[id].state == PENDING_APPROVAL && !t.state.db.publications[id].abandoned
    ensures Consented(t) && Carries(s.state.db, t.state.db)
  {
    var d, e := s.state.db, t.state.db;
    forall a ensures ApprovalCarried(d, e, a) {
    }
    forall p ensures RowCarried(d, e, p) {
    }
    forall k ensures JobCarried(d, e, k) {
    }
    forall x ensures OnlyValid(e, x) && OnSnapshot(e, x) {
      assert OnlyValid(d, x) && OnSnapshot(d, x);
    }
    forall q ensures Backed(e, q) && Undecided(e, q) && AbandonedVoid(e, q) {
      assert Backed(d, q) && Undecided(d, q) && AbandonedVoid(d, q);
      forall x ensures ValidOn(e, x, q) <==> ValidOn(d, x, q) {
      }
      forall x | Backs(d, x, q) ensures Backs(e, x, q) {
      }
      forall x | x in e.approvals ensures e.approvals[x].publication != id {
        assert OnSnapshot(d, x);
      }
    }
    forall x ensures OneExecution(e, x) && Starts(t, x) {
      assert OneExecution(d, x) && Starts(s, x);
      forall j ensures ExecutesApproval(e, j, x) <==> ExecutesApproval(d, j, x) {
      }
    }
  }

  lemma PrepareConsents(s: System, input: Input)
    requires Core(s) && Consented(s) && Prepares(s)
    ensures Consented(WorkPrepare(s, input)) && Carries(s.state.db, WorkPrepare(s, input).state.db)
  {
    var pc := s.thread.pc;
    if pc.PrepareSave? {
      if input.NewRow? && Unused(s.state, input.id) {
        SaveConsents(s, pc.prepared, pc.seen, input.id);
      } else {
        MoveFades(s, s);
        FadeKeeps(s, s);
      }
    } else {
      PrepareFades(s, input);
      FadeKeeps(s, WorkPrepare(s, input));
    }
  }

  lemma PrepareFades(s: System, input: Input)
    requires Prepares(s) && !s.thread.pc.PrepareSave?
    ensures WorkFades(s, WorkPrepare(s, input))
  {
    if s.thread.pc.Finish? || s.thread.pc.Close? {
      FinishFades(s, input);
    } else {
      MoveFades(s, WorkPrepare(s, input));
    }
  }

  lemma WorkConsents(s: System, input: Input)
    requires Core(s) && Consented(s)
    ensures Consented(Work(s, input)) && Carries(s.state.db, Work(s, input).state.db)
  {
    if !KnownJob(s) {
      SameFades(s.state.db, s.state.db);
      FadeCarries(s.state.db, s.state.db);
    } else {
      if input.Raise? {
        RaisedFades(s, input.unknown);
        FadeKeeps(s, Raised(s, input.unknown));
      } else if Prepares(s) {
        PrepareConsents(s, input);
      } else if Reconciles(s) {
        ReconcileFades(s, input);
        FadeKeeps(s, WorkReconcile(s, input));
      } else {
        ExecuteConsents(s, input);
      }
    }
  }

  lemma ExecuteConsents(s: System, input: Input)
    requires Core(s) && Consented(s) && Executes(s)
    ensures Consented(WorkExecute(s, input)) && Carries(s.state.db, WorkExecute(s, input).state.db)
  {
    hide Consented, Carries, ExecuteFits, Fades;
    if s.thread.pc.Approve? {
      StartConsents(s);
    } else {
      ExecuteFades(s, input);
      FadeKeeps(s, WorkExecute(s, input));
    }
  }

  // ---- everything else ----

  lemma RecoveryFades(s: State)
    ensures Fades(s.db, Recover(s).db)
  {
    var d, e := s.db, Recover(s).db;
    if d == e {
      SameFades(d, e);
    } else {
      var job := s.slot.value;
      var m := MarkInterrupted(d, job).value;
      InterruptionFades(d, job);
      forall a ensures Faded(d, e, a) {
        assert Faded(d, m, a);
      }
      forall p ensures RowFaded(d, e, p) {
        assert RowFaded(d, m, p);
        forall x ensures ValidOn(e, x, p) <==> ValidOn(m, x, p) {
        }
      }
      forall j ensures JobFaded(d, e, j) {
        assert JobFaded(d, m, j);
      }
    }
  }

  lemma ClaimFades(s: System, job: Id)
    requires job in s.state.db.jobs && s.state.db.jobs[job].state == QUEUED && s.thread.Idle?
    ensures WorkFades(s, Apply(s, Claim(job)))
  {
    var t := Apply(s, Claim(job));
    if t.state.db == s.state.db {
      MoveFades(s, t);
    } else {
      EndFades(s.state.db, t.state.db, job);
    }
  }

  lemma ApplyConsents(s: System, step: Step)
    requires Core(s) && Consented(s) && Calm(s, step)
    ensures Consented(Apply(s, step)) && Carries(s.state.db, Apply(s, step).state.db)
  {
    hide Base, Consented, Carries, Requested, Work, ExecuteFits, ReconcileFits, Fades;
    if IsRequest(step) {
      RequestConsents(s, step);
    } else if step.Advance? {
      WorkConsents(s, step.input);
    } else {
      SurroundingsFade(s, step);
      FadeKeeps(s, Apply(s, step));
    }
  }

  lemma SurroundingsFade(s: System, step: Step)
    requires !IsRequest(step) && !step.Advance? && Calm(s, step)
    requires s.thread.Working? ==> s.thread.job in s.state.db.jobs
    ensures WorkFades(s, Apply(s, step))
  {
    if step.RecoverStale? && s.thread.Idle? {
      RecoveryFades(s.state);
    } else if step.Claim? && Apply(s, step) != s {
      ClaimFades(s, step.job);
    } else {
      SurroundingsMove(s, step);
    }
  }

  lemma SurroundingsMove(s: System, step: Step)
    requires step.Crash? || step.BackupTaken? || step.WriteLands? || step.ProcessEnds? || Apply(s, step) == s
    requires s.thread.Working? ==> s.thread.job in s.state.db.jobs
    ensures WorkFades(s, Apply(s, step))
  {
    MoveFades(s, Apply(s, step));
  }
}
