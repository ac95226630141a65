/** One run in which a backup is taken while a publication is REJECTED, the publication is tried again and pushed, and
    the backup is restored: the restored row is REJECTED although its own write took effect. */
module RestoreWitness {
  import opened Outcomes
  import opened PublicationRows
  import opened PublicationSteps
  import opened PublicationSystem
  import opened PublicationWitness
  import PublicationInvariant
  import PublicationBackups
  import Platform

  /** Some run of the publication system leads here. */
  ghost predicate Leads(s: System) {
    exists start, steps :: Initial(start) && Run(start, steps) == s
  }

  lemma ReachedLeads(s: System)
    requires Reached(s)
    ensures Leads(s)
  {
    hide Platform.Apply, Apply, Platform.SystemSteps;
    var start, steps :| Platform.Begins(start) && Platform.Run(start, steps) == Together(s);
    Platform.SystemPart(start, steps);
  }

  lemma Then(s: System, step: Step, t: System)
    requires Leads(s) && Apply(s, step) == t
    ensures Leads(t)
  {
    hide Apply;
    var start, steps :| Initial(start) && Run(start, steps) == s;
    assert (steps + [step])[..|steps|] == steps;
    assert Run(start, steps + [step]) == Apply(s, step);
  }

  lemma Works(s: System, input: Input, t: System)
    requires Leads(s) && Work(s, input) == t
    ensures Leads(t)
  {
    hide Leads, Work;
    Then(s, Advance(input), t);
  }

  // ---- the states of this run ----

  const REJECTION := Approval(0, 1, false, Digest(SNAPSHOT), FULL, true, 0)

  function Refused(): Publication {
    PublicationWitness.Row(REJECTED, 2, None, None, [])
  }

  /** The database that is backed up. */
  function Rejected(): Db {
    Db(WORLD, map[0 := Refused()], map[0 := REJECTION], map[0 := Preparation(DONE)], [])
  }

  const OPENED := Attempt(RECONCILE, 1, false, false, None, None)

  const ABSENT_THEN := Attempt(RECONCILE, 1, true, false, None, Some(5))

  function Check(state: JobState): Job {
    Job(RECONCILE_JOB, 0, 0, 1, None, state)
  }

  /** During the reconciliation. */
  function Checking(row: Publication, job: JobState, slot: Option<Id>, thread: Thread): System {
    System(State(Rejected().(publications := map[0 := row], jobs := map[0 := Preparation(DONE), 1 := Check(job)]),
                 slot, map[], {}, [], [Rejected()]), thread)
  }

  function Failed(): Publication {
    PublicationWitness.Row(FAILED, 3, None, None, [ABSENT_THEN]).(reconciled := true)
  }

  /** The row while it is tried again. */
  function Retried(state: PublicationState, version: nat, reconciled: bool, attempts: seq<Attempt>): Publication {
    PublicationWitness.Row(state, version, None, None, [ABSENT_THEN] + attempts).(reconciled := reconciled)
  }

  /** During the second execution: of job 2 by approval 1. */
  function Retrying(row: Publication, starts: nat, records: seq<Record>, pc: Pc): System {
    System(State(Db(WORLD, map[0 := row],
                    map[0 := REJECTION.(valid := false),
                        1 := Approval(0, 1, true, Digest(SNAPSHOT), FULL, true, starts)],
                    map[0 := Preparation(DONE), 1 := Check(DONE), 2 := Job(EXECUTE, 0, 0, 1, Some(1), RUNNING)],
                      records),
                 Some(2), map[], {}, [], [Rejected()]), Working(2, pc))
  }

  // ---- the run ----

  lemma WasRejected()
    ensures Leads(System(State(Rejected(), None, map[], {}, [], [Rejected()]), Idle))
  {
    hide Conditions, Reached, Leads, Work, Recover;
    Awaiting();
    var s := Preparing(map[0 := PublicationWitness.Row(PENDING_APPROVAL, 1, None, None, [])], DONE, None, Idle);
    ReachedLeads(s);
    var step := DecideRequest(1, 0, Digest(SNAPSHOT), false, 0, 1);
    assert Apply(s, step).state.db.publications == map[0 := Refused()];
    var t := System(State(Rejected(), None, map[], {}, [], []), Idle);
    Then(s, step, t);
    Then(t, BackupTaken, System(State(Rejected(), None, map[], {}, [], [Rejected()]), Idle));
  }

  lemma CheckQueued()
    ensures Leads(Checking(Refused(), RUNNING, Some(1), Working(1, Claimed)))
  {
    hide Leads, Work, Recover, Conditions;
    WasRejected();
    var s, t := System(State(Rejected(), None, map[], {}, [], [Rejected()]), Idle),
      Checking(Refused(), QUEUED, None, Idle);
    assert RequestReconcile(Rejected(), 1, 0, 1) == Ok(t.state.db);
    Then(s, ReconcileRequest(1, 0, 1), t);
    var u := Checking(Refused(), RUNNING, Some(1), Working(1, Claimed));
    assert t.state.db.jobs[1 := Check(RUNNING)] == u.state.db.jobs;
    Then(t, Claim(1), u);
  }

  lemma CheckStarted()
    ensures var row := Refused().(attempts := [OPENED]);
            Leads(Checking(row, RUNNING, Some(1), Working(1, ReconcileLook(Refused(), 0))))
  {
    hide Leads;
    CheckQueued();
    var s, t := Checking(Refused(), RUNNING, Some(1), Working(1, Claimed)),
      Checking(Refused(), RUNNING, Some(1), Working(1, ReconcileStart));
    Works(s, Proceed, t);
    var row := Refused().(attempts := [OPENED]);
    assert AddAttempt(Refused(), RECONCILE, 1) == row;
    Works(t, Proceed, Checking(row, RUNNING, Some(1), Working(1, ReconcileLook(Refused(), 0))));
  }

  lemma CheckSeen()
    ensures var row := Refused().(attempts := [OPENED]);
            Leads(Checking(row, RUNNING, Some(1), Working(1, ReconcileSettle(Refused(), 0, NOTHING, FAILED))))
  {
    hide Leads, Remember, AfterReconcile, Conditions, StartReconcile, SettleReconcile;
    CheckStarted();
    var row := Refused().(attempts := [OPENED]);
    var s := Checking(row, RUNNING, Some(1), Working(1, ReconcileSaw(Refused(), 0, NOTHING)));
    Works(Checking(row, RUNNING, Some(1), Working(1, ReconcileLook(Refused(), 0))), Look(5, true), s);
    NothingSeen(s, row);
    Works(s, Proceed, Checking(row, RUNNING, Some(1), Working(1, ReconcileSettle(Refused(), 0, NOTHING, FAILED))));
  }

  lemma NothingSeen(s: System, row: Publication)
    requires row == Refused().(attempts := [OPENED])
    requires s == Checking(row, RUNNING, Some(1), Working(1, ReconcileSaw(Refused(), 0, NOTHING)))
    ensures Remember(s.state.db, 0, NOTHING) == s.state.db
    ensures AfterReconcile(s, Refused(), 0, NOTHING) == ReconcileSettle(Refused(), 0, NOTHING, FAILED)
  {
    hide Conditions;
    assert s.state.db.publications[0 := row] == s.state.db.publications;
  }

  lemma CheckSettled()
    ensures Leads(Checking(Failed(), DONE, None, Idle))
  {
    hide Leads, Conditions, SettleReconcile;
    CheckSeen();
    var row := Refused().(attempts := [OPENED]);
    var s, t := Checking(row, RUNNING, Some(1), Working(1, ReconcileSettle(Refused(), 0, NOTHING, FAILED))),
                Checking(Failed(), RUNNING, Some(1), Working(1, Finish(false)));
    assert [OPENED][0 := ABSENT_THEN] == [ABSENT_THEN];
    CheckResult(s.state.db, t.state.db);
    Works(s, Proceed, t);
    CheckClosed();
  }

  lemma CheckResult(before: Db, after: Db)
    requires before == Checking(Refused().(attempts := [OPENED]), RUNNING, None, Idle).state.db
    requires after == Checking(Failed(), RUNNING, None, Idle).state.db
    ensures SettleReconcile(before, 0, Refused(), FAILED, 0, NOTHING) == Ok(after)
  {
    assert FinishAttempt(before.publications[0], 0, false, None, Some(5)).attempts == [ABSENT_THEN];
    assert before.publications[0 := Failed()] == after.publications;
  }

  lemma CheckClosed()
    requires Leads(Checking(Failed(), RUNNING, Some(1), Working(1, Finish(false))))
    ensures Leads(Checking(Failed(), DONE, None, Idle))
  {
    hide Leads, Conditions;
    var s, t := Checking(Failed(), RUNNING, Some(1), Working(1, Finish(false))),
      Checking(Failed(), RUNNING, Some(1), Working(1, Close(false)));
    Works(s, Proceed, t);
    assert t.state.db.jobs[1 := Check(DONE)] == Checking(Failed(), DONE, None, Idle).state.db.jobs;
    Works(t, Proceed, Checking(Failed(), DONE, None, Idle));
  }

  lemma TriedAgain()
    ensures Leads(Retrying(Retried(APPROVED, 4, true, []), 0, [], Claimed))
  {
    hide Leads, Conditions, Work, Recover, ApproveRecovery, MayRestore;
    CheckSettled();
    GuardPasses();
    var s, t := Checking(Failed(), DONE, None, Idle), Retrying(Retried(APPROVED, 4, true, []), 0, [], Claimed);
    var queued := t.state.db.(jobs := t.state.db.jobs[2 := Job(EXECUTE, 0, 0, 1, Some(1), QUEUED)]);
    RecoveryApproved(s.state.db, queued);
    Then(s, RecoveryRequest(1, 0, Digest(SNAPSHOT), false, 1, 2), System(s.state.(db := queued), Idle));
    assert queued.jobs[2 := Job(EXECUTE, 0, 0, 1, Some(1), RUNNING)] == t.state.db.jobs;
    Then(System(s.state.(db := queued), Idle), Claim(2), t);
  }

  lemma RecoveryIsReady(db: Db)
    requires db == Checking(Failed(), DONE, None, Idle).state.db
    ensures RecoveryReady(Failed(), Digest(SNAPSHOT), false) && !LiveJobs(db, 0)
            && !Collides(db, 0, Failed().(state := APPROVED))
  {
    assert LastReconcile([ABSENT_THEN]) == Some(ABSENT_THEN);
  }

  lemma RecoveryApproved(db: Db, queued: Db)
    requires db == Checking(Failed(), DONE, None, Idle).state.db
    requires var t := Retrying(Retried(APPROVED, 4, true, []), 0, [], Claimed).state.db;
             queued == t.(jobs := t.jobs[2 := Job(EXECUTE, 0, 0, 1, Some(1), QUEUED)])
    ensures ApproveRecovery(db, 1, 0, Digest(SNAPSHOT), false, 1, 2) == Ok(queued)
  {
    hide Conditions, Collides, RecoveryReady, LiveJobs, Withdraw;
    GuardPasses();
    RecoveryIsReady(db);
    DecisionWithdrawn();
    assert [ABSENT_THEN] + [] == [ABSENT_THEN];
    assert db.publications[0 := Retried(APPROVED, 4, true, [])] == queued.publications;
    assert map[0 := REJECTION.(valid := false)][1 := Approval(0, 1, true, Digest(SNAPSHOT), FULL, true, 0)] ==
      queued.approvals;
    assert db.jobs[2 := Job(EXECUTE, 0, 0, 1, Some(1), QUEUED)] == queued.jobs;
  }

  lemma DecisionWithdrawn()
    ensures Withdraw(map[0 := REJECTION], {0}) == map[0 := REJECTION.(valid := false)]
  {
  }

  const PUSHING := Attempt(PUSH_DISPATCH, 2, false, false, None, None)

  lemma StartedAgain()
    ensures Leads(Retrying(Retried(PUBLISHING, 5, false, []), 1, [], FirstLook))
  {
    hide Conditions, Leads;
    TriedAgain();
    GuardPasses();
    var row := Retried(APPROVED, 4, true, []);
    Works(Retrying(row, 0, [], Claimed), Proceed, Retrying(row, 0, [], Begin));
    Works(Retrying(row, 0, [], Begin), Proceed, Retrying(row, 0, [], PublicationSystem.Approve));
    var t := Work(Retrying(row, 0, [], PublicationSystem.Approve), Proceed);
    assert t.state.db.publications == map[0 := Retried(PUBLISHING, 5, false, [])];
    Works(Retrying(row, 0, [], PublicationSystem.Approve), Proceed,
          Retrying(Retried(PUBLISHING, 5, false, []), 1, [], FirstLook));
  }

  lemma DispatchedAgain()
    ensures Leads(Retrying(Retried(PUBLISHING, 5, false, [PUSHING]), 1, [], InnerLook(PushWrite)))
  {
    hide Conditions, Leads;
    StartedAgain();
    GuardPasses();
    var row := Retried(PUBLISHING, 5, false, []);
    Works(Retrying(row, 1, [], FirstLook), Look(5, true), Retrying(row, 1, [], FirstSaw(NOTHING)));
    Works(Retrying(row, 1, [], FirstSaw(NOTHING)), Proceed, Retrying(row, 1, [], DispatchWrite(PushWrite)));
    assert AddAttempt(row, PUSH_DISPATCH, 2) == Retried(PUBLISHING, 5, false, [PUSHING]);
    Works(Retrying(row, 1, [], DispatchWrite(PushWrite)), Proceed,
          Retrying(Retried(PUBLISHING, 5, false, [PUSHING]), 1, [], InnerLook(PushWrite)));
  }

  lemma LaunchedAgain()
    ensures Leads(Retrying(Retried(PUBLISHING, 5, false, [PUSHING]), 1, [Record(2, 0, PushWrite, false)],
                           Wait(PushWrite, 0)))
  {
    hide Conditions, Leads;
    DispatchedAgain();
    GuardPasses();
    var row := Retried(PUBLISHING, 5, false, [PUSHING]);
    Works(Retrying(row, 1, [], InnerLook(PushWrite)), Look(5, true), Retrying(row, 1, [], AuthorizeStep(PushWrite)));
    Works(Retrying(row, 1, [], AuthorizeStep(PushWrite)), Proceed,
          Retrying(row, 1, [], PublicationSystem.Launch(PushWrite)));
    Works(Retrying(row, 1, [], PublicationSystem.Launch(PushWrite)), Proceed,
          Retrying(row, 1, [Record(2, 0, PushWrite, false)], Wait(PushWrite, 0)));
  }

  function Pushed(): System {
    var s := Retrying(Retried(PUBLISHING, 5, false, [PUSHING]), 1, [Record(2, 0, PushWrite, false)],
                      Wait(PushWrite, 0));
    s.(state := s.state.(remote := BRANCH, landed := {0}, log := [PublicationWitness.Wrote(PushWrite)]))
  }

  lemma WasPushed()
    ensures Leads(Pushed())
  {
    hide Conditions, Leads, Work;
    LaunchedAgain();
    var s := Retrying(Retried(PUBLISHING, 5, false, [PUSHING]), 1, [Record(2, 0, PushWrite, false)],
                      Wait(PushWrite, 0));
    assert Apply(s, WriteLands(0)).state.remote == BRANCH;
    Then(s, WriteLands(0), Pushed());
  }

  /** The rest of the world after the restore. */
  const AFTERWARDS := WORLD.(bundles := map[], retired := {0})

  lemma MayBeRestored()
    ensures MayRestore(Pushed().state, 0, AFTERWARDS)
  {
    hide Conditions;
    assert Pushed().state.log[0].run == 0;
    assert Retiring(Pushed().state) == {0};
  }

  /** So a restored row may say REJECTED although its publication wrote to the remote. */
  lemma RestoredRowMayLie()
    ensures exists start, steps :: Initial(start) && Lies(Run(start, steps).state)
  {
    hide Apply, Conditions, MayRestore;
    WasPushed();
    MayBeRestored();
    var s := Pushed();
    PublicationBackups.RestoreIs(s, 0, AFTERWARDS);
    Then(s, BackupRestored(0, AFTERWARDS), System(RestoredState(s.state, 0, AFTERWARDS), Idle));
    var start, steps :| Initial(start) && Run(start, steps) == System(RestoredState(s.state, 0, AFTERWARDS), Idle);
    assert Run(start, steps).state.log[0].publication == 0;
    assert Lies(Run(start, steps).state);
  }

  /** Publication 0 is REJECTED and wrote. */
  ghost predicate Lies(s: State) {
    && 0 in s.db.publications && s.db.publications[0].state == REJECTED && PublicationInvariant.Wrote(s.log, 0)
    && !PublicationBackups.TellsTruth(s, 0, s.db.publications[0])
  }
}
