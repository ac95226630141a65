/** Claims, crashes, recovery and the remote itself keep the invariant; so does every run. The remote may apply a
    released write at any moment until its process record ends, also when the worker that launched it is long gone. */
module PublicationRuns {
  import opened Outcomes
  import opened PublicationRows
  import opened PublicationSteps
  import opened PublicationSystem
  import opened PublicationInvariant
  import opened PublicationRequests
  import opened PublicationExecution
  import opened PublicationReconcile

  // ---- claiming and recovering ----

  function ClaimedState(s: State, job: Id): State
    requires job in s.db.jobs
  {
    s.(db := s.db.(jobs := s.db.jobs[job := s.db.jobs[job].(state := RUNNING)]), slot := Some(job))
  }

  lemma ClaimRefers(s: State, job: Id)
    requires Refers(s.db) && PreparationsFit(s) && job in s.db.jobs && s.db.jobs[job].state == QUEUED
    ensures Refers(ClaimedState(s, job).db) && PreparationsFit(ClaimedState(s, job))
  {
    var t := ClaimedState(s, job);
    forall w ensures HistoryNumbered(t.db.world, w) {
      assert HistoryNumbered(s.db.world, w);
    }
    forall a ensures ApprovalRefers(t.db, a) {
      assert ApprovalRefers(s.db, a);
    }
    forall j | j in t.db.jobs ensures JobRefers(t.db, t.db.jobs[j]) && PreparationFits(t, t.db.jobs[j]) {
      assert JobRefers(s.db, s.db.jobs[j]) && PreparationFits(s, s.db.jobs[j]);
    }
    forall i: nat ensures RecordRefers(t.db, i) {
      assert RecordRefers(s.db, i);
    }
  }

  lemma ClaimSlot(s: State, job: Id)
    requires SlotHolds(s) && RecordsFit(s) && PublishingIsHeld(s) && AbandonedIsIdle(s.db)
    requires s.slot.None? && job in s.db.jobs && s.db.jobs[job].state == QUEUED
    ensures var t := ClaimedState(s, job); SlotHolds(t) && RecordsFit(t) && PublishingIsHeld(t) && AbandonedIsIdle(t.db)
    ensures Quiet(s.db.records)
  {
    var t := ClaimedState(s, job);
    forall i: nat ensures RecordFits(t, i) && (i < |s.db.records| ==> s.db.records[i].ended) {
      assert RecordFits(s, i);
    }
    forall j ensures JobSlotted(t, j) && JobWanted(t.db, j) {
      assert JobSlotted(s, j) && JobWanted(s.db, j);
    }
    forall p ensures PublishingHeld(t, p) {
      assert PublishingHeld(s, p);
    }
  }

  lemma ClaimBase(s: State, job: Id)
    requires Base(s) && s.slot.None? && job in s.db.jobs && s.db.jobs[job].state == QUEUED
    ensures Base(ClaimedState(s, job))
  {
    var t := ClaimedState(s, job);
    ClaimRefers(s, job);
    ClaimSlot(s, job);
    forall p | p in t.db.publications ensures RowTruth(t, p, t.db.publications[p]) {
      assert RowTruth(s, p, s.db.publications[p]);
    }
    forall p ensures NewestPolicy(t, p) {
      assert NewestPolicy(s, p);
    }
    forall i: nat | i < |s.log| ensures EffectFits(t, s.log[i]) {
      assert EffectFits(s, s.log[i]);
    }
  }

  lemma ClaimThread(s: State, job: Id)
    requires Base(s) && s.slot.None? && job in s.db.jobs && s.db.jobs[job].state == QUEUED
    ensures ThreadOwns(ClaimedState(s, job), Working(job, Claimed))
  {
    ClaimSlot(s, job);
    assert JobRefers(s.db, s.db.jobs[job]);
    if s.db.jobs[job].kind == EXECUTE {
      assert PublishingHeld(s, s.db.jobs[job].subject);
    }
  }

  lemma RecoverKeeps(s: State)
    requires Base(s)
    ensures Base(Recover(s))
  {
    if s.slot.Some? && s.slot.value in s.db.jobs && !HasUnended(s.db.records, s.slot.value)
       && MarkInterrupted(s.db, s.slot.value).Ok?
    {
      var job := s.slot.value;
      var db := MarkInterrupted(s.db, job).value;
      NothingOpen(s, job);
      InterruptionRequested(s, job);
      CommitKeeps(s, db);
      InterruptionFrees(s, job);
      EndKeeps(s.(db := db), Recover(s), job, true);
    }
  }

  lemma InterruptionFrees(s: State, job: Id)
    requires Refers(s.db) && Truthful(s) && job in s.db.jobs && MarkInterrupted(s.db, job).Ok?
    ensures var db := MarkInterrupted(s.db, job).value;
            && db.jobs == s.db.jobs && db.records == s.db.records
            && (db.jobs[job].kind == EXECUTE ==>
                  db.jobs[job].subject in db.publications && db.publications[db.jobs[job].subject].state != PUBLISHING)
  {
    assert JobRefers(s.db, s.db.jobs[job]);
    if s.db.jobs[job].kind != PREPARE {
      InterruptionSettles(s, job);
    }
  }

  // ---- processes and the remote ----

  lemma ProcessEndKeeps(s: System, i: nat)
    requires Core(s)
    ensures Core(s.(state := s.state.(db := EndProcess(s.state.db, i))))
  {
    if i < |s.state.db.records| && !s.state.db.records[i].ended {
      var records := EndProcess(s.state.db, i).records;
      EndedRecords(s.state, i);
      RecordsKeep(s.state, records);
      EndedThread(s.state, s.thread, i);
    }
  }

  lemma EndedRecords(s: State, i: nat)
    requires Refers(s.db) && RecordsFit(s) && i < |s.db.records|
    ensures var db := s.db.(records := s.db.records[i := s.db.records[i].(ended := true)]);
            RecordsFit(s.(db := db)) && forall k: nat :: RecordRefers(db, k)
  {
    var db := s.db.(records := s.db.records[i := s.db.records[i].(ended := true)]);
    forall k: nat ensures RecordRefers(db, k) && OnlyUnended(db.records, k) && RecordFits(s.(db := db), k) {
      assert RecordRefers(s.db, k) && OnlyUnended(s.db.records, k) && RecordFits(s, k);
    }
  }

  lemma EndedThread(s: State, thread: Thread, i: nat)
    requires ThreadOwns(s, thread) && i < |s.db.records|
    ensures ThreadOwns(s.(db := s.db.(records := s.db.records[i := s.db.records[i].(ended := true)])), thread)
  {
  }

  /** A write command that may still take effect. */
  ghost predicate Pending(s: State, i: nat) {
    i < |s.db.records| && !s.db.records[i].ended && i !in s.landed && s.db.records[i].publication in s.db.publications
  }

  function Target(s: State, i: nat): Publication
    requires i < |s.db.records| && s.db.records[i].publication in s.db.publications
  {
    s.db.publications[s.db.records[i].publication]
  }

  /** What an open record guarantees about its publication and the remote. */
  ghost predicate Ready(s: State, i: nat)
    requires i < |s.db.records| && s.db.records[i].publication in s.db.publications
  {
    var place := PlaceOf(Target(s, i));
    && RemoteFits(At(s.remote, place))
    && Open(At(s.remote, place), s.db.records[i].write, Target(s, i).snapshot.commit)
    && Target(s, i).state in {PUBLISHING, UNKNOWN} && !Target(s, i).abandoned
    && Target(s, i).run !in s.db.world.retired
    && UsesCurrentPolicy(s.db.world, Target(s, i).snapshot)
  }

  lemma PendingIsReady(s: State, i: nat)
    requires RecordsFit(s) && RemoteWell(s.remote) && Pending(s, i)
    ensures Ready(s, i)
  {
    assert RecordFits(s, i);
  }

  /** The remote after a write took effect differs at one place only, and there only grows. */
  lemma LandedRemote(s: State, i: nat)
    requires Pending(s, i) && Ready(s, i)
    ensures var place, t := PlaceOf(Target(s, i)), Land(s, i);
            && t == s.(remote := t.remote, landed := s.landed + {i}, log := t.log)
            && t.log == s.log + [Effect(s.db.records[i].publication, Target(s, i).run, place, s.db.records[i].write,
                                        Target(s, i).snapshot.commit)]
            && (forall other :: other != place ==> At(t.remote, other) == At(s.remote, other))
            && At(t.remote, place).branch == Some(Target(s, i).snapshot.commit)
            && RemoteFits(At(t.remote, place))
            && (s.db.records[i].write == PushWrite ==>
                  At(s.remote, place).branch.None? && At(t.remote, place).prs == [])
            && (s.db.records[i].write == PrWrite ==>
                  At(s.remote, place).branch == Some(Target(s, i).snapshot.commit) && At(s.remote, place).prs == []
                  && At(t.remote, place).prs != [])
  {
  }

  lemma LandedTruth(s: State, i: nat, p: Id)
    requires Pending(s, i) && Ready(s, i) && p in s.db.publications && RowTruth(s, p, s.db.publications[p])
    ensures RowTruth(Land(s, i), p, s.db.publications[p])
  {
    LandedRemote(s, i);
    var t := Land(s, i);
    assert p != s.db.records[i].publication && Wrote(t.log, p) ==> Wrote(s.log, p);
  }

  lemma LandedLog(s: State, i: nat)
    requires Refers(s.db) && Logged(s) && NewestWrote(s) && Pending(s, i) && Ready(s, i)
    ensures Logged(Land(s, i))
  {
    LandedRemote(s, i);
    var t := Land(s, i);
    forall k: nat | k < |t.log| ensures EffectFits(t, t.log[k]) {
      if k < |s.log| {
        assert EffectFits(s, s.log[k]);
      }
    }
    forall k: nat ensures FirstOfKind(t.log, k) {
      assert FirstOfKind(s.log, k);
      if k == |s.log| {
        forall m | 0 <= m < k && t.log[m].write == t.log[k].write ensures t.log[m].place != t.log[k].place {
          assert EffectFits(s, s.log[m]);
        }
      }
    }
    forall k: nat ensures OnePlace(t.log, k) {
      assert OnePlace(s.log, k);
      if k == |s.log| {
        forall m | 0 <= m < k && t.log[m].run == t.log[k].run ensures t.log[m].place == t.log[k].place {
          LandedPlace(s, i, m);
        }
      }
    }
    forall place ensures PushLogged(t.log, t.remote, place) {
      assert PushLogged(s.log, s.remote, place);
      LandedPush(s, i, place);
    }
  }

  lemma LandedPush(s: State, i: nat, place: Place)
    requires Pending(s, i) && Ready(s, i) && PushLogged(s.log, s.remote, place)
    ensures PushLogged(Land(s, i).log, Land(s, i).remote, place)
  {
    LandedRemote(s, i);
    var t := Land(s, i);
    if At(t.remote, place).branch.Some? {
      if At(s.remote, place).branch == At(t.remote, place).branch {
        var k :| 0 <= k < |s.log| && s.log[k].write == PushWrite && s.log[k].place == place
          && Some(s.log[k].commit) == At(s.remote, place).branch;
        assert t.log[k] == s.log[k];
      } else {
        assert t.log[|s.log|].write == PushWrite;
      }
    }
  }

  /** Earlier effects of the same run used the same policy, so they went to the same place. */
  lemma LandedPlace(s: State, i: nat, k: nat)
    requires Refers(s.db) && Logged(s) && NewestWrote(s) && Pending(s, i) && Ready(s, i)
    requires k < |s.log| && s.log[k].run == Target(s, i).run
    ensures s.log[k].place == PlaceOf(Target(s, i))
  {
    var q := s.log[k].publication;
    assert EffectFits(s, s.log[k]) && NewestPolicy(s, q);
    assert RowRefers(s.db.world, Target(s, i)) && RowRefers(s.db.world, s.db.publications[q]);
    assert HistoryNumbered(s.db.world, Target(s, i).project);
  }

  /** The publication that wrote uses the newest policy of its project. */
  lemma LandedPolicies(s: State, i: nat)
    requires Refers(s.db) && NewestWrote(s) && PreparationsFit(s) && Pending(s, i) && Ready(s, i)
    ensures NewestWrote(Land(s, i)) && PreparationsFit(Land(s, i))
  {
    LandedRemote(s, i);
    var t, row := Land(s, i), Target(s, i);
    assert RowRefers(s.db.world, row);
    forall p ensures NewestPolicy(t, p) {
      assert NewestPolicy(s, p);
      if p == s.db.records[i].publication {
        forall q | q in s.db.publications && s.db.publications[q].run == row.run
          ensures s.db.publications[q].snapshot.policy.version <= row.snapshot.policy.version
        {
          assert RowRefers(s.db.world, s.db.publications[q]);
          assert HistoryNumbered(s.db.world, row.project);
        }
      } else {
        assert Wrote(t.log, p) ==> Wrote(s.log, p);
      }
    }
    forall j | j in s.db.jobs ensures PreparationFits(t, s.db.jobs[j]) {
      assert PreparationFits(s, s.db.jobs[j]);
      forall p | Wrote(t.log, p) && p != s.db.records[i].publication ensures Wrote(s.log, p) {
      }
    }
  }

  lemma LandedThread(s: State, thread: Thread, i: nat)
    requires Refers(s.db) && RecordsFit(s) && ThreadOwns(s, thread) && Pending(s, i) && Ready(s, i)
    ensures ThreadOwns(Land(s, i), thread)
  {
    LandedRemote(s, i);
    assert RecordFits(s, i) && RecordRefers(s.db, i);
    assert !Quiet(s.db.records);
  }

  lemma LandKeeps(s: System, i: nat)
    requires Core(s)
    ensures Core(s.(state := Land(s.state, i)))
  {
    if Pending(s.state, i) {
      PendingIsReady(s.state, i);
      LandBase(s.state, i);
      LandedThread(s.state, s.thread, i);
    }
  }

  lemma LandBase(s: State, i: nat)
    requires Base(s) && Pending(s, i) && Ready(s, i)
    ensures Base(Land(s, i))
  {
    LandedRemote(s, i);
    var t := Land(s, i);
    forall p | p in s.db.publications ensures RowTruth(t, p, s.db.publications[p]) {
      assert RowTruth(s, p, s.db.publications[p]);
      LandedTruth(s, i, p);
    }
    forall k: nat ensures OnlyUnended(t.db.records, k) && RecordFits(t, k) {
      assert OnlyUnended(s.db.records, k) && OnlyUnended(s.db.records, i) && RecordFits(s, k);
    }
    forall j ensures JobSlotted(t, j) {
      assert JobSlotted(s, j);
    }
    forall p ensures PublishingHeld(t, p) {
      assert PublishingHeld(s, p);
    }
    forall place ensures RemoteFits(At(t.remote, place)) {
      assert RemoteFits(At(s.remote, place));
    }
    LandedLog(s, i);
    LandedPolicies(s, i);
  }

  // ---- every step ----

  lemma WorkKeeps(s: System, input: Input)
    requires Core(s)
    ensures Core(Work(s, input))
  {
    hide Base, Conditions;
    if KnownJob(s) {
      if input.Raise? {
        match s.state.db.jobs[s.thread.job].kind
        case PREPARE => PrepareRaised(s, input.unknown);
        case EXECUTE => ExecuteRaised(s, input.unknown);
        case RECONCILE_JOB => ReconcileRaised(s, input.unknown);
      } else {
        match s.state.db.jobs[s.thread.job].kind
        case PREPARE => PrepareKeeps(s, input);
        case EXECUTE => ExecuteKeeps(s, input);
        case RECONCILE_JOB => ReconcileKeeps(s, input);
      }
    }
  }

  /** Every step that replaces no database keeps the invariant. */
  lemma ApplyKeeps(s: System, step: Step)
    requires Core(s) && Calm(s, step)
    ensures Core(Apply(s, step))
  {
    hide Core, Requested, Work;
    if IsRequest(step) {
      RequestedKeeps(s, step);
    } else if step.Advance? {
      WorkKeeps(s, step.input);
    } else if step.Claim? {
      ClaimKeeps(s, step.job);
    } else {
      SurroundingsKeep(s, step);
    }
  }

  lemma ClaimKeeps(s: System, job: Id)
    requires Core(s)
    ensures Core(Apply(s, Claim(job)))
  {
    if s.state.slot.None? && s.thread.Idle? && job in s.state.db.jobs && s.state.db.jobs[job].state == QUEUED {
      ClaimBase(s.state, job);
      ClaimThread(s.state, job);
    }
  }

  /** Nothing but the list of backups differs. */
  lemma BackupKeeps(s: System)
    requires Core(s)
    ensures Core(Apply(s, BackupTaken))
  {
    var t := Apply(s, BackupTaken).state;
    forall p | p in t.db.publications ensures RowTruth(t, p, t.db.publications[p]) {
      assert RowTruth(s.state, p, s.state.db.publications[p]);
    }
    forall i: nat ensures RecordFits(t, i) {
      assert RecordFits(s.state, i);
    }
    forall j ensures JobSlotted(t, j) {
      assert JobSlotted(s.state, j);
    }
    forall p ensures PublishingHeld(t, p) && NewestPolicy(t, p) {
      assert PublishingHeld(s.state, p) && NewestPolicy(s.state, p);
    }
    forall i: nat | i < |t.log| ensures EffectFits(t, t.log[i]) {
      assert EffectFits(s.state, s.state.log[i]);
    }
    forall j | j in t.db.jobs ensures PreparationFits(t, t.db.jobs[j]) {
      assert PreparationFits(s.state, s.state.db.jobs[j]);
    }
  }

  lemma SurroundingsKeep(s: System, step: Step)
    requires Core(s) && Calm(s, step)
    requires step.Crash? || step.BackupTaken? || step.BackupRestored? || step.RecoverStale? || step.WriteLands?
             || step.ProcessEnds?
    ensures Core(Apply(s, step))
  {
    hide Base, Land, Recover, EndProcess, ThreadFits;
    match step
    case Crash =>
    case BackupTaken => BackupKeeps(s);
    case BackupRestored(_, _) =>
    case RecoverStale => RecoverKeeps(s.state);
    case WriteLands(i) => LandKeeps(s, i);
    case ProcessEnds(i) => ProcessEndKeeps(s, i);
  }

  lemma InitialCore(s: System)
    requires Initial(s)
    ensures Core(s)
  {
    forall place ensures RemoteFits(At(s.state.remote, place)) {
    }
  }
}
