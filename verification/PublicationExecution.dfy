/** Every step of an execution keeps the protocol's invariant. One lemma for each place where the worker can stand:
    before and after each look at the remote, each launch, each transition, and the settlement at the end. What the
    worker remembers from one transaction to the next is checked again in the next, or held by the invariant. */
module PublicationExecution {
  import opened Outcomes
  import opened PublicationRows
  import opened PublicationSteps
  import opened PublicationSystem
  import opened PublicationInvariant
  import opened PublicationRequests

  // ---- shared by all kinds of jobs ----

  /** An exception leaves the thread where its handler begins. */
  lemma ExecuteRaised(s: System, unknown: bool)
    requires s.thread.Working? && ThreadOwns(s.state, s.thread) && s.state.db.jobs[s.thread.job].kind == EXECUTE
    ensures ThreadOwns(s.state, Raised(s, unknown).thread)
  {
  }

  lemma ReconcileRaised(s: System, unknown: bool)
    requires s.thread.Working? && ThreadOwns(s.state, s.thread) && s.state.db.jobs[s.thread.job].kind == RECONCILE_JOB
    ensures ThreadOwns(s.state, Raised(s, unknown).thread)
  {
  }

  lemma PrepareRaised(s: System, unknown: bool)
    requires s.thread.Working? && ThreadOwns(s.state, s.thread) && s.state.db.jobs[s.thread.job].kind == PREPARE
    ensures ThreadOwns(s.state, Raised(s, unknown).thread)
  {
  }

  /** The thread commits a transaction that replaces its own row and touches approvals only. */
  lemma RowCommit(s: State, id: Id, b: Publication, db: Db)
    requires Base(s) && id in s.db.publications && RowMoves(s, id, b)
    requires b.Live() ==> s.db.publications[id].Live() || !Collides(s.db, id, b)
    requires db == s.db.(publications := s.db.publications[id := b], approvals := db.approvals)
    requires ApprovalsGrow(s.db.approvals, db)
    ensures Base(s.(db := db))
  {
    OneRow(s, id, b);
    SameJobs(s, db);
    CommitKeeps(s, db);
  }

  /** Remembering what was seen changes no verdict. */
  lemma RememberMoves(s: State, id: Id, seen: Observation)
    requires id in s.db.publications && RowTruth(s, id, s.db.publications[id])
    ensures RowMoves(s, id, Remembered(s.db.publications[id], seen))
  {
  }

  lemma RememberKeeps(s: State, id: Id, seen: Observation)
    requires Base(s) && id in s.db.publications
    ensures Base(s.(db := Remember(s.db, id, seen)))
  {
    assert RowTruth(s, id, s.db.publications[id]);
    RememberMoves(s, id, seen);
    SameApprovals(s, Remember(s.db, id, seen));
    RowCommit(s, id, Remembered(s.db.publications[id], seen), Remember(s.db, id, seen));
  }

  // ---- the execution of an approved publication ----

  ghost predicate Executing(s: System) {
    Core(s) && Executes(s)
  }

  ghost predicate Facts(s: System)
    requires Executes(s)
  {
    && ThreadOwns(s.state, s.thread)
    && Engaged(s.state, Subject(s)) && !Row(s).abandoned
    && RowTruth(s.state, Subject(s), Row(s))
    && RemoteFits(At(s.state.remote, PlaceOf(Row(s))))
    && RowRefers(s.state.db.world, Row(s))
    && s.state.db.jobs[s.thread.job].state == RUNNING
  }

  lemma ExecutionFacts(s: System)
    requires Executing(s)
    ensures Facts(s)
  {
    assert JobSlotted(s.state, s.thread.job) && JobWanted(s.state.db, s.thread.job);
    assert RowTruth(s.state, Subject(s), Row(s));
    assert RowRefers(s.state.db.world, Row(s));
  }

  /** The thread may stand at `pc` in `t`. */
  ghost predicate Continues(s: System, t: State, pc: Pc)
    requires s.thread.Working?
  {
    t.slot == Some(s.thread.job) && ThreadFits(t, s.thread.job, pc)
  }

  lemma ApproveMoves(s: System, db: Db)
    requires Executes(s) && Facts(s) && s.thread.pc.Approve?
    requires StartPublishing(s.state.db, Subject(s), Consent(s)) == Ok(db)
    ensures RowMoves(s.state, Subject(s), db.publications[Subject(s)])
    ensures db.publications[Subject(s)].Live() ==>
            Row(s).Live() || !Collides(s.state.db, Subject(s), db.publications[Subject(s)])
    ensures Continues(s, s.state.(db := db), FirstLook)
  {
  }

  lemma ApproveKeeps(s: System, input: Input)
    requires Executing(s) && s.thread.pc.Approve?
    ensures Core(WorkExecute(s, input))
  {
    hide Conditions;
    ExecutionFacts(s);
    match StartPublishing(s.state.db, Subject(s), Consent(s)) {
      case Err(_) => ExecuteRaised(s, false);
      case Ok(db) =>
        ApproveMoves(s, db);
        Started(s.state, db, Subject(s), Consent(s));
        RowCommit(s.state, Subject(s), db.publications[Subject(s)], db);
    }
  }

  lemma Started(s: State, db: Db, id: Id, a: Id)
    requires Refers(s.db) && id in s.db.publications && a in s.db.approvals && StartPublishing(s.db, id, a) == Ok(db)
    ensures ApprovalsGrow(s.db.approvals, db)
  {
    forall b ensures ApprovalKept(s.db.approvals, db, b) && ApprovalRefers(db, b) {
      assert ApprovalRefers(s.db, b);
    }
  }

  /** What was remembered fits the point where the thread goes on. */
  lemma FirstContinues(s: System, seen: Observation)
    requires Executes(s) && Facts(s) && s.thread.pc == FirstSaw(seen)
    ensures Continues(s, s.state.(db := Remember(s.state.db, Subject(s), seen)), AfterFirst(s, seen))
  {
  }

  lemma PushContinues(s: System, seen: Observation)
    requires Executes(s) && Facts(s) && s.thread.pc == SawBack(seen)
    ensures Continues(s, s.state.(db := Remember(s.state.db, Subject(s), seen)), AfterPush(s, seen))
  {
  }

  lemma PrContinues(s: System, seen: Observation)
    requires Executes(s) && Facts(s) && s.thread.pc == PrSaw(seen)
    ensures Continues(s, s.state.(db := Remember(s.state.db, Subject(s), seen)), BeforePr(s, seen))
  {
  }

  lemma AllContinues(s: System, dispatched: bool, seen: Observation)
    requires Executes(s) && Facts(s) && s.thread.pc == FinalSaw(dispatched, seen)
    ensures Continues(s, s.state.(db := Remember(s.state.db, Subject(s), seen)), AfterAll(s, dispatched, seen))
  {
  }

  lemma SawKeeps(s: System, seen: Observation, pc: Pc)
    requires Executing(s) && Continues(s, s.state.(db := Remember(s.state.db, Subject(s), seen)), pc)
    ensures Core(Commit(s, Remember(s.state.db, Subject(s), seen), pc))
  {
    RememberKeeps(s.state, Subject(s), seen);
  }

  lemma DispatchMoves(s: System, db: Db, write: Write)
    requires Executes(s) && Facts(s) && s.thread.pc == DispatchWrite(write)
    requires Subject(s) in db.publications
    requires db == s.state.db.(publications := s.state.db.publications[Subject(s) := db.publications[Subject(s)]])
    requires exists stage :: db.publications[Subject(s)] == AddAttempt(Row(s), stage, s.thread.job)
    ensures RowMoves(s.state, Subject(s), db.publications[Subject(s)])
    ensures Continues(s, s.state.(db := db), InnerLook(write))
  {
  }

  lemma DispatchKeeps(s: System, write: Write, input: Input)
    requires Executing(s) && s.thread.pc == DispatchWrite(write)
    ensures Core(WorkExecute(s, input))
  {
    hide Conditions, CurrentApproval;
    ExecutionFacts(s);
    var stage := if write == PushWrite then PUSH_DISPATCH else PR_DISPATCH;
    match Dispatch(s.state.db, Subject(s), Consent(s), s.thread.job, stage) {
      case Err(_) => ExecuteRaised(s, false);
      case Ok(db) =>
        assert db.publications[Subject(s)] == AddAttempt(Row(s), stage, s.thread.job);
        DispatchMoves(s, db, write);
        SameApprovals(s.state, db);
        RowCommit(s.state, Subject(s), db.publications[Subject(s)], db);
    }
  }

  /** A read of the remote tells what the remote holds. */
  lemma Looked(r: Remote, base: Sha, draft: bool)
    requires Observe(r, base, draft).Ok?
    ensures Matches(r, Observe(r, base, draft).value)
  {
  }

  lemma LookKeeps(s: System, input: Input, next: Observation -> Pc)
    requires Executing(s)
    requires forall seen :: Matches(At(s.state.remote, PlaceOf(Row(s))), seen) ==> Continues(s, s.state, next(seen))
    ensures Core(LookFrom(s, Subject(s), input, next))
  {
    if input.Look? {
      match Observe(At(s.state.remote, PlaceOf(Row(s))), input.base, input.draft) {
        case Err(_) => ExecuteRaised(s, false);
        case Ok(seen) =>
          Looked(At(s.state.remote, PlaceOf(Row(s))), input.base, input.draft);
          assert Continues(s, s.state, next(seen));
      }
    }
  }

  lemma LookBeforeWriteKeeps(s: System, write: Write, input: Input)
    requires Executing(s) && s.thread.pc == InnerLook(write)
    ensures Core(WorkExecute(s, input))
  {
    ExecutionFacts(s);
    ExecuteRaised(s, false);
    LookBeforeWriteContinues(s, write, input);
  }

  lemma LookBeforeWriteContinues(s: System, write: Write, input: Input)
    requires Executes(s) && Facts(s) && s.thread.pc == InnerLook(write)
    ensures LookBeforeWrite(s, write, input).state == s.state
    ensures LookBeforeWrite(s, write, input).thread == Raised(s, false).thread
            || ThreadOwns(s.state, LookBeforeWrite(s, write, input).thread)
  {
    if input.Look? && Observe(At(s.state.remote, PlaceOf(Row(s))), input.base, input.draft).Ok? {
      var seen := Observe(At(s.state.remote, PlaceOf(Row(s))), input.base, input.draft).value;
      Looked(At(s.state.remote, PlaceOf(Row(s))), input.base, input.draft);
      OpenContinues(s, write, seen);
    }
  }

  /** What was read shows that the write is still open, or that nothing is left to do. */
  lemma OpenContinues(s: System, write: Write, seen: Observation)
    requires Executes(s) && Facts(s) && s.thread.pc == InnerLook(write)
    requires Matches(At(s.state.remote, PlaceOf(Row(s))), seen)
    ensures write == PushWrite && seen.branch.None? ==> Continues(s, s.state, AuthorizeStep(write))
    ensures write == PrWrite && seen.pr.None? && seen.branch == Some(Row(s).snapshot.commit) ==>
              Continues(s, s.state, AuthorizeStep(write))
    ensures Continues(s, s.state, FinalLook(true))
  {
  }

  /** A current approval means the snapshot names the current policy. */
  lemma ApprovedUsesCurrentPolicy(db: Db, id: Id, a: Id)
    requires id in db.publications && a in db.approvals && CurrentApproval(db, id, a).Ok?
    requires RowRefers(db.world, db.publications[id])
    ensures UsesCurrentPolicy(db.world, db.publications[id].snapshot)
    ensures RetiredStale(db.world) ==> db.publications[id].run !in db.world.retired
  {
  }

  lemma AuthorizeContinues(s: System, write: Write)
    requires Executes(s) && Facts(s) && s.thread.pc == AuthorizeStep(write)
    requires UsesCurrentPolicy(s.state.db.world, Row(s).snapshot) && Row(s).run !in s.state.db.world.retired
    ensures Continues(s, s.state, Launch(write))
  {
  }

  lemma PublishMoves(s: System, db: Db, seen: Observation)
    requires Executes(s) && Facts(s) && s.thread.pc == PublishStep(seen)
    requires Publish(s.state.db, Subject(s), Consent(s)) == Ok(db)
    ensures RowMoves(s.state, Subject(s), db.publications[Subject(s)])
    ensures db.publications[Subject(s)].Live() ==>
            Row(s).Live() || !Collides(s.state.db, Subject(s), db.publications[Subject(s)])
    ensures Continues(s, s.state.(db := db), Finish(false))
  {
    hide Conditions, CurrentApproval;
  }

  lemma PublishedStepKeeps(s: System, seen: Observation)
    requires Executing(s) && s.thread.pc == PublishStep(seen)
    ensures Core(PublishedStep(s))
  {
    ExecutionFacts(s);
    match Publish(s.state.db, Subject(s), Consent(s)) {
      case Err(_) => ExecuteRaised(s, false);
      case Ok(db) =>
        PublishMoves(s, db, seen);
        SameApprovals(s.state, db);
        RowCommit(s.state, Subject(s), db.publications[Subject(s)], db);
    }
  }

  lemma PublishKeeps(s: System, seen: Observation, input: Input)
    requires Executing(s) && s.thread.pc == PublishStep(seen)
    ensures Core(WorkExecute(s, input))
  {
    PublishedStepKeeps(s, seen);
  }

  lemma SettleMoves(s: System, db: Db, unknown: bool, dispatched: bool)
    requires Executes(s) && Facts(s) && s.thread.pc == SettleStep(unknown, dispatched)
    requires Settle(s.state.db, Subject(s), unknown, dispatched) == Ok(db)
    ensures RowMoves(s.state, Subject(s), db.publications[Subject(s)])
    ensures db.publications[Subject(s)].Live() ==>
            Row(s).Live() || !Collides(s.state.db, Subject(s), db.publications[Subject(s)])
  {
  }

  lemma SettleContinues(s: System, db: Db, unknown: bool, dispatched: bool)
    requires Executes(s) && ThreadOwns(s.state, s.thread) && s.thread.pc == SettleStep(unknown, dispatched)
    requires Settle(s.state.db, Subject(s), unknown, dispatched) == Ok(db)
    ensures Continues(s, s.state.(db := db), Finish(false))
    ensures db == s.state.db.(publications := s.state.db.publications[Subject(s) := db.publications[Subject(s)]],
                              approvals := db.approvals)
  {
    hide Conditions, CurrentApproval, RowTruth;
  }

  lemma SettledStepKeeps(s: System, unknown: bool, dispatched: bool)
    requires Executing(s) && s.thread.pc == SettleStep(unknown, dispatched)
    ensures Core(SettledStep(s, unknown, dispatched))
  {
    ExecutionFacts(s);
    match Settle(s.state.db, Subject(s), unknown, dispatched) {
      case Err(_) => assert Continues(s, s.state, Finish(true));
      case Ok(db) =>
        SettleMoves(s, db, unknown, dispatched);
        SettleContinues(s, db, unknown, dispatched);
        SettledApprovals(s.state, db, Subject(s), unknown, dispatched);
        RowCommit(s.state, Subject(s), db.publications[Subject(s)], db);
    }
  }

  lemma SettleKeeps(s: System, unknown: bool, dispatched: bool, input: Input)
    requires Executing(s) && s.thread.pc == SettleStep(unknown, dispatched)
    ensures Core(WorkExecute(s, input))
  {
    SettledStepKeeps(s, unknown, dispatched);
  }

  lemma SettledApprovals(s: State, db: Db, id: Id, unknown: bool, dispatched: bool)
    requires Refers(s.db) && id in s.db.publications && Settle(s.db, id, unknown, dispatched) == Ok(db)
    ensures ApprovalsGrow(s.db.approvals, db)
  {
    if db.approvals == s.db.approvals {
      SameApprovals(s, db);
    } else {
      Withdrawn(s, db, {id});
    }
  }

  // ---- process records ----

  /** Only process records differ. */
  lemma RecordsKeep(s: State, records: seq<Record>)
    requires Base(s)
    requires RecordsFit(s.(db := s.db.(records := records)))
    requires forall i: nat :: RecordRefers(s.db.(records := records), i)
    ensures Base(s.(db := s.db.(records := records)))
  {
    var t := s.(db := s.db.(records := records));
    RecordsRefer(s, records);
    forall p | p in s.db.publications ensures RowTruth(t, p, t.db.publications[p]) {
      assert RowTruth(s, p, s.db.publications[p]);
    }
    forall j ensures JobSlotted(t, j) && JobWanted(t.db, j) {
      assert JobSlotted(s, j) && JobWanted(s.db, j);
    }
    forall p ensures PublishingHeld(t, p) && NewestPolicy(t, p) {
      assert PublishingHeld(s, p) && NewestPolicy(s, p);
    }
    forall i: nat | i < |s.log| ensures EffectFits(t, s.log[i]) {
      assert EffectFits(s, s.log[i]);
    }
    forall j | j in s.db.jobs ensures PreparationFits(t, s.db.jobs[j]) {
      assert PreparationFits(s, s.db.jobs[j]);
    }
  }

  lemma RecordsRefer(s: State, records: seq<Record>)
    requires Refers(s.db) && forall i: nat :: RecordRefers(s.db.(records := records), i)
    ensures Refers(s.db.(records := records))
  {
    forall p | p in s.db.publications ensures RowRefers(s.db.world, s.db.publications[p]) {
    }
    forall a ensures ApprovalRefers(s.db.(records := records), a) {
      assert ApprovalRefers(s.db, a);
    }
    forall j | j in s.db.jobs ensures JobRefers(s.db.(records := records), s.db.jobs[j]) {
      assert JobRefers(s.db, s.db.jobs[j]);
    }
  }

  /** The process of a write is registered; the slot, the row and the remote are ready for it. */
  lemma Launched(s: State, record: Record)
    requires Base(s) && Quiet(s.db.records) && !record.ended
    requires s.slot == Some(record.job) && record.job in s.db.jobs && record.publication in s.db.publications
    requires s.db.jobs[record.job].kind == EXECUTE && s.db.jobs[record.job].subject == record.publication
    requires s.db.publications[record.publication].state in {PUBLISHING, UNKNOWN}
             && !s.db.publications[record.publication].abandoned
    requires UsesCurrentPolicy(s.db.world, s.db.publications[record.publication].snapshot)
    requires s.db.publications[record.publication].run !in s.db.world.retired
    requires Open(At(s.remote, PlaceOf(s.db.publications[record.publication])), record.write,
                  s.db.publications[record.publication].snapshot.commit)
    ensures Base(s.(db := s.db.(records := s.db.records + [record])))
  {
    var records := s.db.records + [record];
    var t := s.(db := s.db.(records := records));
    forall i: nat ensures RecordRefers(t.db, i) {
      assert RecordRefers(s.db, i);
    }
    forall i: nat ensures OnlyUnended(records, i) && RecordFits(t, i) {
      assert OnlyUnended(s.db.records, i) && RecordFits(s, i);
    }
    RecordsKeep(s, records);
  }

  lemma LaunchContinues(s: System, write: Write)
    requires Executes(s) && Facts(s) && s.thread.pc == Launch(write)
    ensures var record := Record(s.thread.job, Subject(s), write, false);
            Continues(s, s.state.(db := s.state.db.(records := s.state.db.records + [record])),
                      Wait(write, |s.state.db.records|))
  {
  }

  lemma LaunchKeeps(s: System, write: Write, input: Input)
    requires Executing(s) && s.thread.pc == Launch(write)
    ensures Core(WorkExecute(s, input))
  {
    ExecutionFacts(s);
    LaunchContinues(s, write);
    Launched(s.state, Record(s.thread.job, Subject(s), write, false));
  }

  lemma WaitContinues(s: System, write: Write, i: nat)
    requires Executes(s) && ThreadOwns(s.state, s.thread) && s.thread.pc == Wait(write, i)
    ensures i < |s.state.db.records| && s.state.db.records[i].ended ==>
              Continues(s, s.state, LookBack) && Continues(s, s.state, FinalLook(true))
  {
  }

  lemma ConfirmContinues(s: System, seen: Observation)
    requires Executes(s) && ThreadOwns(s.state, s.thread) && s.thread.pc == Confirm(seen)
    ensures Continues(s, s.state, PrLook) && Continues(s, s.state, FinalLook(false))
  {
  }

  lemma BeginContinues(s: System)
    requires Executes(s) && Facts(s)
    ensures s.thread.pc == Claimed ==> Continues(s, s.state, Begin)
    ensures s.thread.pc == Begin && Row(s).state == APPROVED ==> Continues(s, s.state, Approve)
  {
  }

  // ---- the end of a job ----

  /** No write of this job is open, so none is: an open write belongs to the slot. */
  lemma NothingOpen(s: State, job: Id)
    requires Refers(s.db) && RecordsFit(s) && s.slot == Some(job) && job in s.db.jobs
    requires !HasUnended(s.db.records, job) || s.db.jobs[job].kind != EXECUTE
    ensures Quiet(s.db.records)
  {
    forall i | 0 <= i < |s.db.records| ensures s.db.records[i].ended {
      assert RecordFits(s, i) && RecordRefers(s.db, i);
    }
  }

  lemma FinishContinues(s: System, error: bool)
    requires s.thread.Working? && ThreadOwns(s.state, s.thread) && s.thread.pc == Finish(error)
    ensures Continues(s, s.state, Finish(true))
    ensures !error && Quiet(s.state.db.records) ==> Continues(s, s.state, Close(false))
  {
  }

  lemma InterruptedContinues(s: System, db: Db)
    requires s.thread.Working? && ThreadOwns(s.state, s.thread) && Truthful(s.state) && Refers(s.state.db)
    requires MarkInterrupted(s.state.db, s.thread.job) == Ok(db) && Quiet(s.state.db.records)
    ensures Continues(s, s.state.(db := db), Close(true))
  {
    var job := s.state.db.jobs[s.thread.job];
    assert JobRefers(s.state.db, job);
    if job.kind != PREPARE {
      InterruptionSettles(s.state, s.thread.job);
    }
  }

  lemma FinishKeeps(s: System, input: Input, error: bool)
    requires Core(s) && s.thread.Working? && s.thread.pc == Finish(error)
    ensures Core(WorkFinish(s, input))
  {
    var job := s.thread.job;
    FinishContinues(s, error);
    if !input.LeaseLost? && !HasUnended(s.state.db.records, job) {
      NothingOpen(s.state, job);
      if error && MarkInterrupted(s.state.db, job).Ok? {
        var db := MarkInterrupted(s.state.db, job).value;
        InterruptionRequested(s.state, job);
        CommitKeeps(s.state, db);
        InterruptedContinues(s, db);
      }
    }
  }

  lemma CloseKeeps(s: System, input: Input, error: bool)
    requires Core(s) && s.thread.Working? && s.thread.pc == Close(error)
    ensures Core(WorkFinish(s, input))
  {
    ClosedIsQuiet(s, error);
    EndKeeps(s.state, WorkFinish(s, input).state, s.thread.job, true);
  }

  lemma ClosedIsQuiet(s: System, error: bool)
    requires Core(s) && s.thread.Working? && s.thread.pc == Close(error)
    ensures Quiet(s.state.db.records)
    ensures s.state.db.jobs[s.thread.job].kind == EXECUTE ==>
              s.state.db.publications[s.state.db.jobs[s.thread.job].subject].state != PUBLISHING
  {
    if s.state.db.jobs[s.thread.job].kind != EXECUTE {
      NothingOpen(s.state, s.thread.job);
    }
  }

  lemma EndKeepsCore(s: System, input: Input)
    requires Core(s) && s.thread.Working?
    ensures Core(WorkFinish(s, input))
  {
    var pc := s.thread.pc;
    if pc.Finish? {
      FinishKeeps(s, input, pc.error);
    } else if pc.Close? {
      CloseKeeps(s, input, pc.error);
    }
  }

  // ---- every step of an execution ----

  lemma ExecuteKeeps(s: System, input: Input)
    requires Executing(s)
    ensures Core(WorkExecute(s, input))
  {
    var pc := s.thread.pc;
    if pc.Claimed? || pc.Begin? {
      BeginKeeps(s, input);
    } else if pc.Approve? {
      ApproveKeeps(s, input);
    } else if pc.FirstLook? || pc.LookBack? || pc.PrLook? || pc.FinalLook? {
      LooksKeep(s, input);
    } else if pc.FirstSaw? || pc.SawBack? || pc.PrSaw? || pc.FinalSaw? {
      SawsKeep(s, input);
    } else if pc.DispatchWrite? || pc.InnerLook? || pc.AuthorizeStep? || pc.Launch? || pc.Wait? {
      WritesKeep(s, input);
    } else if pc.Confirm? {
      ConfirmKeeps(s, pc.seen, input);
    } else if pc.PublishStep? {
      PublishKeeps(s, pc.seen, input);
    } else if pc.SettleStep? {
      SettleKeeps(s, pc.unknown, pc.dispatched, input);
    } else {
      ExecuteEndKeeps(s, input);
    }
  }

  lemma LooksKeep(s: System, input: Input)
    requires Executing(s) && (s.thread.pc.FirstLook? || s.thread.pc.LookBack? || s.thread.pc.PrLook?
                              || s.thread.pc.FinalLook?)
    ensures Core(WorkExecute(s, input))
  {
    match s.thread.pc
    case FirstLook => FirstLookKeeps(s, input);
    case LookBack => LookBackKeeps(s, input);
    case PrLook => PrLookKeeps(s, input);
    case FinalLook(d) => FinalLookKeeps(s, input, d);
  }

  lemma SawsKeep(s: System, input: Input)
    requires Executing(s) && (s.thread.pc.FirstSaw? || s.thread.pc.SawBack? || s.thread.pc.PrSaw?
                              || s.thread.pc.FinalSaw?)
    ensures Core(WorkExecute(s, input))
  {
    match s.thread.pc
    case FirstSaw(seen) => FirstSawKeeps(s, seen, input);
    case SawBack(seen) => SawBackKeeps(s, seen, input);
    case PrSaw(seen) => PrSawKeeps(s, seen, input);
    case FinalSaw(d, seen) => FinalSawKeeps(s, d, seen, input);
  }

  lemma WritesKeep(s: System, input: Input)
    requires Executing(s)
    requires s.thread.pc.DispatchWrite? || s.thread.pc.InnerLook? || s.thread.pc.AuthorizeStep? || s.thread.pc.Launch?
             || s.thread.pc.Wait?
    ensures Core(WorkExecute(s, input))
  {
    match s.thread.pc
    case DispatchWrite(w) => DispatchKeeps(s, w, input);
    case InnerLook(w) => LookBeforeWriteKeeps(s, w, input);
    case AuthorizeStep(w) => AuthorizeKeeps(s, w, input);
    case Launch(w) => LaunchKeeps(s, w, input);
    case Wait(w, i) => WaitKeeps(s, w, i, input);
  }

  lemma ExecuteEndKeeps(s: System, input: Input)
    requires Executing(s) && !InTry(s.thread.pc) && !s.thread.pc.Claimed? && !s.thread.pc.Begin?
             && !s.thread.pc.SettleStep?
    ensures Core(WorkExecute(s, input))
  {
    EndKeepsCore(s, input);
  }

  lemma BeginKeeps(s: System, input: Input)
    requires Executing(s) && (s.thread.pc.Claimed? || s.thread.pc.Begin?)
    ensures Core(WorkExecute(s, input))
  {
    ExecutionFacts(s);
    ExecuteRaised(s, false);
    BeginContinues(s);
  }

  lemma WaitKeeps(s: System, write: Write, i: nat, input: Input)
    requires Executing(s) && s.thread.pc == Wait(write, i)
    ensures Core(WorkExecute(s, input))
  {
    WaitContinues(s, write, i);
  }

  lemma ConfirmKeeps(s: System, seen: Observation, input: Input)
    requires Executing(s) && s.thread.pc == Confirm(seen)
    ensures Core(WorkExecute(s, input))
  {
    hide Base, Conditions;
    ExecuteRaised(s, false);
    ConfirmContinues(s, seen);
  }

  lemma AuthorizeKeeps(s: System, write: Write, input: Input)
    requires Executing(s) && s.thread.pc == AuthorizeStep(write)
    ensures Core(WorkExecute(s, input))
  {
    ExecutionFacts(s);
    ExecuteRaised(s, false);
    if AuthorizeWrite(s.state.db, Subject(s), Consent(s), s.thread.job).Ok? {
      ApprovedUsesCurrentPolicy(s.state.db, Subject(s), Consent(s));
      AuthorizeContinues(s, write);
    }
  }

  lemma FirstSawKeeps(s: System, seen: Observation, input: Input)
    requires Executing(s) && s.thread.pc == FirstSaw(seen)
    ensures Core(WorkExecute(s, input))
  {
    ExecutionFacts(s);
    FirstContinues(s, seen);
    SawKeeps(s, seen, AfterFirst(s, seen));
  }

  lemma SawBackKeeps(s: System, seen: Observation, input: Input)
    requires Executing(s) && s.thread.pc == SawBack(seen)
    ensures Core(WorkExecute(s, input))
  {
    ExecutionFacts(s);
    PushContinues(s, seen);
    SawKeeps(s, seen, AfterPush(s, seen));
  }

  lemma PrSawKeeps(s: System, seen: Observation, input: Input)
    requires Executing(s) && s.thread.pc == PrSaw(seen)
    ensures Core(WorkExecute(s, input))
  {
    ExecutionFacts(s);
    PrContinues(s, seen);
    SawKeeps(s, seen, BeforePr(s, seen));
  }

  lemma FinalSawKeeps(s: System, dispatched: bool, seen: Observation, input: Input)
    requires Executing(s) && s.thread.pc == FinalSaw(dispatched, seen)
    ensures Core(WorkExecute(s, input))
  {
    ExecutionFacts(s);
    AllContinues(s, dispatched, seen);
    SawKeeps(s, seen, AfterAll(s, dispatched, seen));
  }

  lemma FirstLookKeeps(s: System, input: Input)
    requires Executing(s) && s.thread.pc == FirstLook
    ensures Core(WorkExecute(s, input))
  {
    LookKeeps(s, input, seen => FirstSaw(seen));
  }

  lemma LookBackKeeps(s: System, input: Input)
    requires Executing(s) && s.thread.pc == LookBack
    ensures Core(WorkExecute(s, input))
  {
    LookKeeps(s, input, seen => SawBack(seen));
  }

  lemma PrLookKeeps(s: System, input: Input)
    requires Executing(s) && s.thread.pc == PrLook
    ensures Core(WorkExecute(s, input))
  {
    LookKeeps(s, input, seen => PrSaw(seen));
  }

  lemma FinalLookKeeps(s: System, input: Input, dispatched: bool)
    requires Executing(s) && s.thread.pc == FinalLook(dispatched)
    ensures Core(WorkExecute(s, input))
  {
    hide Base, Conditions;
    LookKeeps(s, input, seen => FinalSaw(dispatched, seen));
  }
}
