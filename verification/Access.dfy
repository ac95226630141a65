/** Accounts and memberships: whoever loses access leaves no work and no approval behind. */
module Access {
  import opened Outcomes
  import Runs = RunSteps
  import Publications = PublicationSteps
  import Rows = PublicationRows

  type Id = nat

  datatype Role = ADMIN | MANAGER

  datatype User = User(role: Role, active: bool, mustChange: bool, version: nat)

  type Users = map<Id, User>

  /** A membership is a pair of a user and a project. */
  type Members = set<(Id, Id)>

  predicate IsAdmin(users: Users, u: Id) {
    u in users && users[u].active && !users[u].mustChange && users[u].role == ADMIN
  }

  predicate MayWork(users: Users, members: Members, u: Id, project: Id) {
    u in users && users[u].active && !users[u].mustChange && (users[u].role == ADMIN || (u, project) in members)
  }

  predicate InProgress(status: Runs.Status) {
    status in {Runs.QUEUED, Runs.PREPARING, Runs.RUNNING, Runs.VERIFYING}
  }

  /** The services whose rows belong to users: runs with their jobs, and publications with their approvals. */
  datatype Work = Work(book: Runs.Book, db: Publications.Db)

  predicate RunOf(w: Work, r: Id, u: Id, project: Id) {
    r in w.book.runs && w.book.runs[r].actor == u && w.book.runs[r].project == project
      && InProgress(w.book.runs[r].status)
  }

  predicate JobOf(w: Work, j: Id, u: Id, project: Id) {
    j in w.book.jobs && w.book.jobs[j].actor == u && w.book.jobs[j].project == project
      && w.book.jobs[j].state == Runs.WAITING
  }

  predicate ApprovalOf(w: Work, a: Id, u: Id) {
    a in w.db.approvals && w.db.approvals[a].actor == u && w.db.approvals[a].valid && w.db.approvals[a].approve
  }

  /** The user has a run in progress or a waiting job in the project. */
  ghost predicate Works(w: Work, u: Id, project: Id) {
    (exists r :: RunOf(w, r, u, project)) || (exists j :: JobOf(w, j, u, project))
  }

  ghost predicate Approves(w: Work, u: Id) {
    exists a :: ApprovalOf(w, a, u)
  }

  /** Every run in progress, waiting job and valid approval belongs to somebody who may have it now. */
  ghost predicate Backed(users: Users, members: Members, projects: set<Id>, w: Work, u: Id) {
    && (forall p | p in projects :: Works(w, u, p) ==> MayWork(users, members, u, p))
    && (Approves(w, u) ==> IsAdmin(users, u))
  }

  ghost predicate NoOrphans(users: Users, members: Members, projects: set<Id>, w: Work) {
    forall u {:trigger Backed(users, members, projects, w, u)} :: Backed(users, members, projects, w, u)
  }

  /** The runs and jobs of everybody else are as they were. */
  predicate OthersKept(before: Runs.Book, after: Runs.Book, u: Id) {
    && (forall r | r in before.runs && before.runs[r].actor != u :: r in after.runs && after.runs[r] == before.runs[r])
    && (forall j | j in before.jobs && before.jobs[j].actor != u :: j in after.jobs && after.jobs[j] == before.jobs[j])
    && (forall r | r in after.runs :: r in before.runs && after.runs[r].actor == before.runs[r].actor)
    && (forall j | j in after.jobs :: j in before.jobs && after.jobs[j].actor == before.jobs[j].actor)
  }

  function Revoked(w: Work, u: Id, scope: Option<Id>): Work {
    Work(Runs.Revoke(w.book, u, scope), Publications.RevokePublications(w.db, u, scope))
  }

  /** A revocation ends the user's work in its scope, the user's approvals if it is everywhere, and starts nobody's. */
  lemma RevokedWork(w: Work, u: Id, scope: Option<Id>, v: Id, project: Id)
    ensures Works(Revoked(w, u, scope), v, project) ==>
            Works(w, v, project) && (v == u ==> !Runs.Within(project, scope))
  {
    var after := Revoked(w, u, scope);
    if exists r :: RunOf(after, r, v, project) {
      var r :| RunOf(after, r, v, project);
      assert RunOf(w, r, v, project);
    } else if exists j :: JobOf(after, j, v, project) {
      var j :| JobOf(after, j, v, project);
      assert JobOf(w, j, v, project);
    }
  }

  lemma RevokedApprovals(w: Work, u: Id, scope: Option<Id>, v: Id)
    ensures Approves(Revoked(w, u, scope), v) ==> Approves(w, v) && (v == u ==> scope.Some?)
  {
    var after := Revoked(w, u, scope);
    if Approves(after, v) {
      var a :| ApprovalOf(after, a, v);
      assert ApprovalOf(w, a, v);
      assert !Publications.RevocationWithdraws(w.db, u, scope, a);
    }
  }

  /** The same over several projects at once, for the runs and jobs. */
  function RevokedIn(b: Runs.Book, u: Id, scopes: set<Id>): Runs.Book {
    b.(
    runs := map r | r in b.runs ::
      if b.runs[r].actor == u && b.runs[r].project in scopes then Runs.RevokedRun(b.runs[r]) else b.runs[r],
    jobs := map j | j in b.jobs ::
      if b.jobs[j].actor == u && b.jobs[j].project in scopes then Runs.RevokedJob(b.jobs[j]) else b.jobs[j])
  }

  lemma RevokedRunsOnce(b: Runs.Book, u: Id, done: set<Id>, p: Id)
    requires p !in done
    ensures Runs.Revoke(RevokedIn(b, u, done), u, Some(p)).runs == RevokedIn(b, u, done + {p}).runs
  {
    hide Runs.RevokedRun, Runs.RevokedJob;
    forall r | r in b.runs ensures Runs.RevokedRun(b.runs[r]).project == b.runs[r].project {
      RevokedRunSame(b.runs[r]);
    }
  }

  lemma RevokedRunSame(run: Runs.Run)
    ensures Runs.RevokedRun(run).project == run.project && Runs.RevokedRun(run).actor == run.actor
  {
  }

  lemma RevokedJobsOnce(b: Runs.Book, u: Id, done: set<Id>, p: Id)
    requires p !in done
    ensures Runs.Revoke(RevokedIn(b, u, done), u, Some(p)).jobs == RevokedIn(b, u, done + {p}).jobs
  {
  }

  lemma RevokedOnce(b: Runs.Book, u: Id, done: set<Id>, p: Id)
    requires p !in done
    ensures Runs.Revoke(RevokedIn(b, u, done), u, Some(p)) == RevokedIn(b, u, done + {p})
  {
    RevokedRunsOnce(b, u, done, p);
    RevokedJobsOnce(b, u, done, p);
  }

  /** Nothing is left to withdraw from a user without approvals. */
  lemma NothingToWithdraw(db: Publications.Db, u: Id, scope: Option<Id>)
    requires forall a | a in db.approvals :: !Publications.Revoked(db, u, None, a)
    ensures Publications.RevokePublications(db, u, scope) == db
  {
    assert Publications.RevokedPublications(db, u, scope) == {};
    var e := Publications.RevokePublications(db, u, scope);
    assert e.approvals == db.approvals;
    assert e.publications == db.publications;
  }

  // ---- how work comes about and moves on ----

  /** The user and the project a step starts work for. */
  function StartsFor(b: Runs.Book, step: Runs.Step): Option<(Id, Id)> {
    match step
    case CreateStep(o, _, _) => Some((o.actor, o.project))
    case RetryStep(previous, actor, _, _, _) =>
      if previous in b.runs then Some((actor, b.runs[previous].project)) else None
    case EnqueueStep(_, _, _, actor, project, _) => Some((actor, project))
    case _ => None
  }

  /** Other runs and jobs of the book are as little in progress as before. */
  predicate NotMore(b: Runs.Book, e: Runs.Book) {
    && (forall r | r in e.runs && InProgress(e.runs[r].status) ::
          && r in b.runs && InProgress(b.runs[r].status)
          && e.runs[r].actor == b.runs[r].actor && e.runs[r].project == b.runs[r].project)
    && (forall j | j in e.jobs && e.jobs[j].state == Runs.WAITING ::
          && j in b.jobs && b.jobs[j].state == Runs.WAITING
          && e.jobs[j].actor == b.jobs[j].actor && e.jobs[j].project == b.jobs[j].project)
  }

  lemma CancelNotMore(b: Runs.Book, step: Runs.Step)
    requires step.CancelStep?
    ensures NotMore(b, Runs.Apply(b, step))
  {
  }

  lemma RequestNotMore(b: Runs.Book, step: Runs.Step)
    requires step.RevokeStep? || step.RestoreStep? || step.AbandonStep?
    ensures NotMore(b, Runs.Apply(b, step))
  {
  }

  /** A status change never begins progress. */
  lemma TransitionNotMore(b: Runs.Book, r: Id, to: Runs.Status, epoch: Option<nat>, reason: Option<Runs.Reason>)
    ensures Runs.Transition(b, r, to, epoch, reason).Ok? ==>
              NotMore(b, Runs.Transition(b, r, to, epoch, reason).value)
                && Runs.Transition(b, r, to, epoch, reason).value.jobs == b.jobs
  {
  }

  /** The runs move from `b` to `m`, one job stops waiting, and no other job changes. */
  lemma JobNotMore(b: Runs.Book, m: Runs.Book, e: Runs.Book, j: Id)
    requires NotMore(b, m) && e.runs == m.runs && j in e.jobs && e.jobs == m.jobs[j := e.jobs[j]]
             && e.jobs[j].state != Runs.WAITING
    ensures NotMore(b, e)
  {
  }

  lemma RunNotMore(b: Runs.Book, m: Runs.Book, e: Runs.Book)
    requires NotMore(b, m) && e.jobs == m.jobs && e.runs.Keys == m.runs.Keys
    requires forall r | r in m.runs :: e.runs[r].status == m.runs[r].status && e.runs[r].actor == m.runs[r].actor
                                       && e.runs[r].project == m.runs[r].project
    ensures NotMore(b, e)
  {
  }

  lemma ClaimNotMore(b: Runs.Book, name: Runs.SlotName, owner: Id, now: nat)
    ensures NotMore(b, Runs.Apply(b, Runs.ClaimStep(name, owner, now)))
  {
    hide NotMore;
    var e := Runs.Apply(b, Runs.ClaimStep(name, owner, now));
    SameNotMore(b);
    if e != b {
      ClaimedNotMore(b, name, owner, now);
    }
  }

  lemma SameNotMore(b: Runs.Book)
    ensures NotMore(b, b)
  {
  }

  lemma ClaimedNotMore(b: Runs.Book, name: Runs.SlotName, owner: Id, now: nat)
    requires Runs.Claim(b, name, owner, now).Ok? && Runs.Claim(b, name, owner, now).value.1.Some?
    ensures NotMore(b, Runs.Claim(b, name, owner, now).value.0)
  {
    hide NotMore, Runs.Moved;
    var slot, j := b.Slot(name), Runs.NextJob(b, name, b.queue).value;
    var epoch, expires := slot.epoch + 1, Some(now + Runs.LEASE_SECONDS);
    var job := b.jobs[j].(state := Runs.ACTIVE, owner := owner, epoch := epoch, expires := expires);
    var taken := Runs.SetJob(b.WithSlot(name, Runs.Slot.Slot(Some(j), owner, epoch, expires, false)), j, job);
    SameNotMore(b);
    JobNotMore(b, b, taken, j);
    if job.kind == Runs.RUN_JOB {
      TransitionNotMore(taken, job.subject, Runs.PREPARING, None, None);
      var moved := Runs.Transition(taken, job.subject, Runs.PREPARING, None, None).value;
      NotMoreOn(b, taken, moved);
      RunNotMore(b, moved, Runs.Claim(b, name, owner, now).value.0);
    }
  }

  lemma NotMoreOn(b: Runs.Book, m: Runs.Book, e: Runs.Book)
    requires NotMore(b, m) && NotMore(m, e)
    ensures NotMore(b, e)
  {
  }

  lemma BeatNotMore(b: Runs.Book, step: Runs.Step)
    requires step.HeartbeatStep?
    ensures NotMore(b, Runs.Apply(b, step))
  {
  }

  lemma ProgressNotMore(b: Runs.Book, step: Runs.Step)
    requires step.ProgressStep?
    ensures NotMore(b, Runs.Apply(b, step))
  {
    hide NotMore, Runs.Transition;
    SameNotMore(b);
    if step.j in b.jobs {
      TransitionNotMore(b, b.jobs[step.j].subject, step.to, Some(step.epoch), step.reason);
    }
  }

  lemma RecoverNotMore(b: Runs.Book, step: Runs.Step)
    requires step.RecoverStep?
    ensures NotMore(b, Runs.Apply(b, step))
  {
    hide NotMore, Runs.Transition;
    SameNotMore(b);
    if Runs.Apply(b, step) != b {
      var job := b.jobs[step.j];
      TransitionNotMore(b, job.subject, Runs.INTERRUPTED, None, Some(Runs.OTHER_REASON));
      var m := if job.kind == Runs.RUN_JOB && job.subject in b.runs && !Runs.Terminal(b.runs[job.subject].status)
      then Runs.Transition(b, job.subject, Runs.INTERRUPTED, None, Some(Runs.OTHER_REASON)).value else b;
      JobNotMore(b, m, Runs.Apply(b, step), step.j);
    }
  }

  lemma FinaliseNotMore(b: Runs.Book, step: Runs.Step)
    requires step.FinaliseStep?
    ensures NotMore(b, Runs.Apply(b, step))
  {
    hide NotMore, Runs.Transition;
    SameNotMore(b);
    if Runs.Apply(b, step) != b {
      var job := b.jobs[step.j];
      var e := Runs.Apply(b, step);
      if job.kind == Runs.RUN_JOB && job.subject in b.runs && !Runs.Terminal(b.runs[job.subject].status) {
        var to := Runs.FinalStatus(b.runs[job.subject]);
        TransitionNotMore(b, job.subject, to, Some(step.epoch), None);
        FinalisedNotMore(b, Runs.Transition(b, job.subject, to, Some(step.epoch), None).value, e, step.j);
      } else {
        FinalisedNotMore(b, b, e, step.j);
      }
    }
  }

  lemma FinalisedNotMore(b: Runs.Book, m: Runs.Book, e: Runs.Book, j: Id)
    requires NotMore(b, m) && e.runs == m.runs && j in m.jobs
    requires e.jobs == m.jobs || (j in e.jobs && e.jobs == m.jobs[j := e.jobs[j]] && e.jobs[j].state != Runs.WAITING)
    ensures NotMore(b, e)
  {
  }

  lemma WorkerNotMore(b: Runs.Book, step: Runs.Step)
    requires !step.CreateStep? && !step.RetryStep? && !step.EnqueueStep?
    ensures NotMore(b, Runs.Apply(b, step))
  {
    match step
    case ClaimStep(name, owner, now) => ClaimNotMore(b, name, owner, now);
    case HeartbeatStep(_, _, _, _) => BeatNotMore(b, step);
    case ProgressStep(_, _, _, _, _) => ProgressNotMore(b, step);
    case RecoverStep(_, _, _) => RecoverNotMore(b, step);
    case FinaliseStep(_, _, _, _) => FinaliseNotMore(b, step);
    case CancelStep(_) => CancelNotMore(b, step);
    case ProcessStep(_) =>
    case ProcessEndStep(_) =>
    case BlockStep(_) =>
    case _ => RequestNotMore(b, step);
  }

  lemma NotMoreWork(before: Work, book: Runs.Book, u: Id, project: Id)
    requires NotMore(before.book, book)
    ensures Works(before.(book := book), u, project) ==> Works(before, u, project)
  {
    var after := before.(book := book);
    if exists r :: RunOf(after, r, u, project) {
      var r :| RunOf(after, r, u, project);
      assert RunOf(before, r, u, project);
    } else if exists j :: JobOf(after, j, u, project) {
      var j :| JobOf(after, j, u, project);
      assert JobOf(before, j, u, project);
    }
  }

  /** A step that starts work starts it for one user in one project only. */
  lemma StartedWork(before: Work, step: Runs.Step, u: Id, project: Id)
    requires step.CreateStep? || step.RetryStep? || step.EnqueueStep?
    requires Works(before.(book := Runs.Apply(before.book, step)), u, project)
    ensures Works(before, u, project) || StartsFor(before.book, step) == Some((u, project))
  {
    var after := before.(book := Runs.Apply(before.book, step));
    if exists r :: RunOf(after, r, u, project) {
      var r :| RunOf(after, r, u, project);
      assert RunOf(before, r, u, project) || StartsFor(before.book, step) == Some((u, project));
    } else {
      var j :| JobOf(after, j, u, project);
      assert JobOf(before, j, u, project) || StartsFor(before.book, step) == Some((u, project));
    }
  }

  lemma StepWork(before: Work, step: Runs.Step, u: Id, project: Id)
    requires Works(before.(book := Runs.Apply(before.book, step)), u, project)
    ensures Works(before, u, project) || StartsFor(before.book, step) == Some((u, project))
  {
    hide Runs.Apply;
    if step.CreateStep? || step.RetryStep? || step.EnqueueStep? {
      StartedWork(before, step, u, project);
    } else {
      WorkerNotMore(before.book, step);
      NotMoreWork(before, Runs.Apply(before.book, step), u, project);
    }
  }

  /** Some active administrator exists. */
  predicate Administered(users: Users) {
    exists u | u in users :: users[u].active && users[u].role == ADMIN
  }

  class Accounts {
    var users: Users
    var members: Members
    var projects: set<Id>
    var work: Work

    ghost predicate Valid()
      reads this
    {
      NoOrphans(users, members, projects, work) && Administered(users)
    }

    constructor (admin: Id, projects: set<Id>, book: Runs.Book, db: Publications.Db)
      requires book.runs == map[] && book.jobs == map[] && db.approvals == map[]
      ensures Valid()
    {
      users, members, this.projects, work := map[admin := User(ADMIN, true, false, 1)], {}, projects, Work(book, db);
      new;
      assert users[admin].role == ADMIN;
    }

    /** The guarded change of one account: by an administrator, on the expected version, never of the last one. */
    method ChangeRights(admin: Id, target: Id, after: User, expected: nat) returns (r: Result<()>)
      requires Administered(users)
      modifies this`users
      ensures Administered(users)
      ensures r.Ok? <==> IsAdmin(old(users), admin) && target in old(users) && old(users)[target].version == expected
                         && Administered(old(users)[target := after])
      ensures users == if r.Ok? then old(users)[target := after.(version := expected + 1)] else old(users)
    {
      if target !in users {
        return Err(NOT_FOUND);
      }
      var loses := after.role != ADMIN || !after.active;
      var holds := users[target].role == ADMIN && users[target].active;
      var another := exists u | u in users && u != target :: users[u].active && users[u].role == ADMIN;
      var changed := users[target := after.(version := expected + 1)];
      SameAdministrators(users, target, after, expected + 1);
      if users[target].version != expected || !IsAdmin(users, admin) || (loses && holds && !another) {
        return Err(STATE_CONFLICT);
      }
      users := changed;
      return Ok(());
    }

    /** Who is left to administer does not depend on the version, and is somebody else if the target is not. */
    lemma SameAdministrators(before: Users, target: Id, after: User, version: nat)
      requires Administered(before) && target in before
      ensures var changed := before[target := after.(version := version)];
              var another := exists u | u in before && u != target :: before[u].active && before[u].role == ADMIN;
              && (Administered(changed) <==> Administered(before[target := after]))
              && (Administered(changed) <==> another || (after.active && after.role == ADMIN))
              && (!another ==> before[target].active && before[target].role == ADMIN)
    {
      var changed := before[target := after.(version := version)];
      if after.active && after.role == ADMIN {
        assert changed[target].active && before[target := after][target].active;
      }
      if exists u | u in before && u != target :: before[u].active && before[u].role == ADMIN {
        var u :| u in before && u != target && before[u].active && before[u].role == ADMIN;
        assert changed[u].active && before[target := after][u].active;
      }
    }

    /** Changes a role or an activation. A deactivated user loses everything; an administrator who becomes a manager
        loses all approvals, and the work in every project without a membership. */
    method ChangeAccount(admin: Id, target: Id, expected: nat, role: Option<Role>, active: Option<bool>)
      returns (r: Result<()>)
      requires Valid()
      modifies this
      ensures Valid()
      ensures r.Err? ==> users == old(users) && work == old(work)
      ensures r.Ok? ==>
                && target in old(users) && users == old(users)[target := old(users)[target].(
                     role := if role.Some? then role.value else old(users)[target].role,
                     active := if active.Some? then active.value else old(users)[target].active,
                       version := expected + 1)]
                && OthersKept(old(work).book, work.book, target)
                && (active == Some(false) ==> work == Revoked(old(work), target, None))
                && (active != Some(false) && role == Some(MANAGER) && old(users)[target].role == ADMIN ==>
                      && work.db == Publications.RevokePublications(old(work).db, target, None)
                      && work.book == RevokedIn(old(work).book, target, set p | p in projects
                                                && (target, p) !in members))
                && (active != Some(false) && !(role == Some(MANAGER) && old(users)[target].role == ADMIN) ==>
                    work == old(work))
    {
      hide Runs.Revoke, Publications.RevokePublications, RevokedIn, Works, Approves;
      if target !in users {
        return Err(NOT_FOUND);
      }
      var before := users[target];
      var after := before.(
        role := if role.Some? then role.value else before.role,
        active := if active.Some? then active.value else before.active);
      r := ChangeRights(admin, target, after, expected);
      if r.Err? {
        return;
      }
      if active == Some(false) {
        RevokeWork(target, None);
      } else if role == Some(MANAGER) && before.role == ADMIN {
        WithdrawApprovals(target);
        RevokeProjects(target, set p | p in projects && (target, p) !in members);
      }
      forall u ensures Backed(users, members, projects, work, u) {
        assert Backed(old(users), old(members), old(projects), old(work), u);
      }
    }

    method RevokeWork(u: Id, scope: Option<Id>)
      modifies this`work
      ensures work == Revoked(old(work), u, scope) && OthersKept(old(work).book, work.book, u)
      ensures forall v, p :: Works(work, v, p) ==> Works(old(work), v, p) && (v == u ==> !Runs.Within(p, scope))
      ensures forall v :: Approves(work, v) ==> Approves(old(work), v) && (v == u ==> scope.Some?)
    {
      forall v, p ensures Works(Revoked(work, u, scope), v, p) ==>
        Works(work, v, p) && (v == u ==> !Runs.Within(p, scope)) {
        RevokedWork(work, u, scope, v, p);
      }
      forall v ensures Approves(Revoked(work, u, scope), v) ==> Approves(work, v) && (v == u ==> scope.Some?) {
        RevokedApprovals(work, u, scope, v);
      }
      work := Revoked(work, u, scope);
    }

    method WithdrawApprovals(u: Id)
      modifies this`work
      ensures work == old(work).(db := Publications.RevokePublications(old(work).db, u, None))
      ensures forall v, p :: Works(work, v, p) ==> Works(old(work), v, p)
      ensures forall v :: Approves(work, v) ==> Approves(old(work), v) && v != u
      ensures forall a | a in work.db.approvals :: !Publications.Revoked(work.db, u, None, a)
    {
      ghost var before := work;
      work := work.(db := Publications.RevokePublications(work.db, u, None));
      forall v, p | Works(work, v, p) ensures Works(before, v, p) {
        SameWork(before, work, v, p);
      }
      forall v | Approves(work, v) ensures Approves(before, v) && v != u {
        RevokedApprovals(before, u, None, v);
        var a :| ApprovalOf(work, a, v);
        assert ApprovalOf(Revoked(before, u, None), a, v);
      }
    }

    lemma SameWork(before: Work, after: Work, v: Id, p: Id)
      requires after.book == before.book && Works(after, v, p)
      ensures Works(before, v, p)
    {
      if exists r :: RunOf(after, r, v, p) {
        var r :| RunOf(after, r, v, p);
        assert RunOf(before, r, v, p);
      } else {
        var j :| JobOf(after, j, v, p);
        assert JobOf(before, j, v, p);
      }
    }

    /** Revokes the user's work in one project after the other; the approvals were withdrawn before. */
    method RevokeProjects(u: Id, scopes: set<Id>)
      requires forall a | a in work.db.approvals :: !Publications.Revoked(work.db, u, None, a)
      modifies this`work
      ensures work == Work(RevokedIn(old(work).book, u, scopes), old(work).db)
      ensures forall v, p :: Works(work, v, p) ==> Works(old(work), v, p) && (v == u ==> p !in scopes)
      ensures forall v :: Approves(work, v) ==> Approves(old(work), v)
      ensures OthersKept(old(work).book, work.book, u)
    {
      var todo := scopes;
      assert RevokedIn(work.book, u, {}).runs == work.book.runs && RevokedIn(work.book, u, {}).jobs == work.book.jobs;
      assert scopes - todo == {};
      while todo != {}
        invariant todo <= scopes && OthersKept(old(work).book, work.book, u)
        invariant work == Work(RevokedIn(old(work).book, u, scopes - todo), old(work).db)
        invariant forall v, p :: Works(work, v, p) ==> Works(old(work), v, p) && (v == u ==> p !in scopes - todo)
        invariant forall v :: Approves(work, v) ==> Approves(old(work), v)
        decreases |todo|
      {
        var p :| p in todo;
        RevokedOnce(old(work).book, u, scopes - todo, p);
        NothingToWithdraw(work.db, u, Some(p));
        assert scopes - (todo - {p}) == scopes - todo + {p};
        RevokeWork(u, Some(p));
        todo := todo - {p};
      }
      assert scopes - todo == scopes;
    }

    /** A step on runs and jobs; what starts work asks for access to the project first. */
    method Proceed(step: Runs.Step) returns (r: Result<()>)
      requires Valid()
      modifies this`work
      ensures Valid()
      ensures r.Ok? <==> (StartsFor(old(work).book, step).Some? ==>
                            MayWork(users, members, StartsFor(old(work).book, step).value.0,
                                    StartsFor(old(work).book, step).value.1))
      ensures work == if r.Ok? then old(work).(book := Runs.Apply(old(work).book, step)) else old(work)
    {
      var starts := StartsFor(work.book, step);
      if starts.Some? && !MayWork(users, members, starts.value.0, starts.value.1) {
        return Err(ACCESS_DENIED);
      }
      ghost var before := work;
      work := work.(book := Runs.Apply(work.book, step));
      forall u ensures Backed(users, members, projects, work, u) {
        assert Backed(users, members, projects, before, u);
        forall p | p in projects && Works(work, u, p) ensures MayWork(users, members, u, p) {
          StepWork(before, step, u, p);
        }
        if Approves(work, u) {
          var a :| ApprovalOf(work, a, u);
          assert ApprovalOf(before, a, u);
        }
      }
      return Ok(());
    }

    /** An approval of a publication, by somebody who is an administrator now. */
    method Approve(actor: Id, id: Id, hash: Rows.Digest, approval: Id, job: Id) returns (r: Result<()>)
      requires Valid() && approval !in work.db.approvals && job !in work.db.jobs
      modifies this`work
      ensures Valid()
      ensures r.Ok? ==>
                && IsAdmin(users, actor)
                && Publications.Decide(old(work).db, actor, id, hash, true, approval, job) == Ok(work.db)
      ensures r.Err? ==> work == old(work)
    {
      if !IsAdmin(users, actor) {
        return Err(ACCESS_DENIED);
      }
      var decided :- Publications.Decide(work.db, actor, id, hash, true, approval, job);
      ghost var before := work;
      work := work.(db := decided);
      forall u ensures Backed(users, members, projects, work, u) {
        assert Backed(users, members, projects, before, u);
        forall p | p in projects && Works(work, u, p) ensures Works(before, u, p) {
          SameWork(before, work, u, p);
        }
        if Approves(work, u) && u != actor {
          var a :| ApprovalOf(work, a, u);
          assert ApprovalOf(before, a, u);
        }
      }
      return Ok(());
    }

    /** Grants or takes a membership; a manager who loses one loses the work in that project. */
    method SetMembership(admin: Id, target: Id, project: Id, granted: bool) returns (r: Result<()>)
      requires Valid()
      modifies this
      ensures Valid()
      ensures r.Err? ==> users == old(users) && members == old(members) && work == old(work)
      ensures r.Ok? ==>
                && members == (if granted then old(members) + {(target, project)}
                               else old(members) - {(target, project)})
                && target in old(users)
                   && users == old(users)[target := old(users)[target].(version := old(users)[target].version + 1)]
                && work == if !granted && (target, project) in old(members) && users[target].role != ADMIN
                           then Revoked(old(work), target, Some(project)) else old(work)
    {
      hide Runs.Revoke, Publications.RevokePublications, Administered, OthersKept;
      if target !in users || project !in projects {
        return Err(NOT_FOUND);
      }
      r := ChangeRights(admin, target, users[target], users[target].version);
      if r.Err? {
        return;
      }
      var changed := (target, project) in members;
      members := if granted then members + {(target, project)} else members - {(target, project)};
      if !granted && changed && users[target].role != ADMIN {
        RevokeWork(target, Some(project));
      }
      forall u ensures Backed(users, members, projects, work, u) {
        assert Backed(old(users), old(members), old(projects), old(work), u);
      }
    }

    /** A password reset asks for a new password and ends everything the user had in progress. */
    method ResetPassword(admin: Id, target: Id) returns (r: Result<()>)
      requires Valid()
      modifies this
      ensures Valid()
      ensures r.Err? ==> users == old(users) && work == old(work)
      ensures r.Ok? ==> target in users && users[target].mustChange && work == Revoked(old(work), target, None)
    {
      if target !in users {
        return Err(NOT_FOUND);
      }
      r := ChangeRights(admin, target, users[target].(mustChange := true), users[target].version);
      if r.Err? {
        return;
      }
      RevokeWork(target, None);
      forall u ensures Backed(users, members, projects, work, u) {
        assert Backed(old(users), old(members), old(projects), old(work), u);
      }
    }
  }
}
