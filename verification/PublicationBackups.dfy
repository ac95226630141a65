/** Backups of the database while the remote moves on, and what restoring one of them re-establishes. */
module PublicationBackups {
  import opened Outcomes
  import opened PublicationRows
  import opened PublicationSteps
  import opened PublicationSystem
  import opened PublicationInvariant
  import opened PublicationRequests
  import opened PublicationRuns
  import opened PublicationConsent
  import opened PublicationFrames

  // ---- what holds of a backup at any later time ----

  /** A publication in both databases has the same target. */
  predicate AgreeOn(d: Db, e: Db, p: Id) {
    p in d.publications && p in e.publications ==> d.publications[p].SameTarget(e.publications[p])
  }

  ghost predicate Agree(d: Db, e: Db) {
    forall p {:trigger AgreeOn(d, e, p)} :: AgreeOn(d, e, p)
  }

  /** The publication never writes again. */
  predicate Closed(s: State, p: Id, row: Publication) {
    row.run in s.db.world.retired || (p in s.db.publications && s.db.publications[p].abandoned)
  }

  /** What a row of a backup would say of the remote, were it restored now. */
  ghost predicate BackupTruth(s: State, p: Id, row: Publication) {
    var r, kept := At(s.remote, PlaceOf(row)), RestoredRow(row);
    && (forall i | 0 <= i < |s.log| && s.log[i].publication == p :: EffectOf(s.log[i], row))
    && (Wrote(s.log, p) ==> r.branch == Some(row.snapshot.commit))
    && (Wrote(s.log, p) ==> kept.state in {UNKNOWN, REJECTED, INVALIDATED} || row.remoteBranch.Some?)
    && (row.remoteBranch.Some? || row.remotePr.Some? ==> row.effects)
    && (kept.state == FAILED ==> !Wrote(s.log, p))
    && (kept.state == PUBLISHED ==> Delivered(r, row.snapshot) && row.remoteBranch.Some?)
    && (kept.state == PARTIAL ==> row.effects)
    && (row.abandoned ==> row.state in {PARTIAL, FAILED, INVALIDATED} && Closed(s, p, row))
  }

  ghost predicate RowKept(s: State, b: Db, p: Id) {
    p in b.publications ==> BackupTruth(s, p, b.publications[p])
  }

  ghost predicate ConsentKept(b: Db, a: Id) {
    OnSnapshot(b, a) && OneExecution(b, a) && (a in b.approvals ==> b.approvals[a].starts <= 1)
  }

  /** The backup is consistent in itself. */
  ghost predicate SoundBackup(b: Db) {
    Refers(b) && LiveUnique(b.publications) && forall a {:trigger ConsentKept(b, a)} :: ConsentKept(b, a)
  }

  ghost predicate BackupFits(s: State, b: Db) {
    SoundBackup(b) && Agree(s.db, b) && forall p {:trigger RowKept(s, b, p)} :: RowKept(s, b, p)
  }

  ghost predicate BackupsFit(s: State) {
    && (forall n | 0 <= n < |s.backups| :: BackupFits(s, s.backups[n]))
    && (forall m, n | 0 <= m < |s.backups| && 0 <= n < |s.backups| :: Agree(s.backups[m], s.backups[n]))
  }

  // ---- steps that replace no database ----

  /** A write that landed was of a row that may write. */
  ghost predicate Landing(s: State, t: State, e: Effect) {
    && t.log == s.log + [e] && e.publication in s.db.publications
    && var row := s.db.publications[e.publication];
       && !row.abandoned && row.run !in s.db.world.retired && EffectOf(e, row)
       && At(t.remote, PlaceOf(row)).branch == Some(row.snapshot.commit)
  }

  predicate PlaceGrows(s: State, t: State, place: Place) {
    Grown(At(s.remote, place), At(t.remote, place))
  }

  /** What a step that replaces no database may do, as far as backups are concerned. */
  ghost predicate Moves(s: State, t: State) {
    && t.backups == s.backups && t.db.world.retired == s.db.world.retired
    && (forall p {:trigger RowCarried(s.db, t.db, p)} :: RowCarried(s.db, t.db, p))
    && NewRows(s, t)
    && (forall place {:trigger PlaceGrows(s, t, place)} :: PlaceGrows(s, t, place))
    && (t.log == s.log || exists e :: Landing(s, t, e))
  }

  lemma MovesKeepAgreement(s: State, t: State, n: nat)
    requires Moves(s, t) && n < |s.backups| && Agree(s.db, s.backups[n])
    ensures Agree(t.db, s.backups[n])
  {
    forall p ensures AgreeOn(t.db, s.backups[n], p) {
      assert AgreeOn(s.db, s.backups[n], p) && RowCarried(s.db, t.db, p) && FreshRow(s, t, p);
    }
  }

  /** A backed up row of the publication that wrote is not settled in a way the write contradicts. */
  lemma LandingKeepsRow(s: State, t: State, e: Effect, b: Db, p: Id)
    requires Landing(s, t, e) && Agree(s.db, b) && RowKept(s, b, p) && PlaceGrows(s, t, e.place) && p in b.publications
    requires PlaceGrows(s, t, PlaceOf(b.publications[p]))
    requires Closed(s, p, b.publications[p]) ==> Closed(t, p, b.publications[p])
    ensures RowKept(t, b, p)
  {
    assert AgreeOn(s.db, b, p);
    if p != e.publication {
      assert Wrote(t.log, p) ==> Wrote(s.log, p);
    } else {
      assert !Closed(s, p, b.publications[p]);
    }
  }

  lemma MovesKeepRow(s: State, t: State, n: nat, p: Id)
    requires Moves(s, t) && n < |s.backups| && BackupFits(s, s.backups[n])
    ensures RowKept(t, s.backups[n], p)
  {
    var b := s.backups[n];
    assert RowKept(s, b, p);
    if p in b.publications {
      assert RowCarried(s.db, t.db, p) && PlaceGrows(s, t, PlaceOf(b.publications[p]));
      if t.log != s.log {
        var e :| Landing(s, t, e);
        assert PlaceGrows(s, t, e.place);
        LandingKeepsRow(s, t, e, b, p);
      }
    }
  }

  lemma MovesKeepBackups(s: State, t: State)
    requires BackupsFit(s) && Moves(s, t)
    ensures BackupsFit(t)
  {
    forall n | 0 <= n < |t.backups| ensures BackupFits(t, t.backups[n]) {
      assert BackupFits(s, s.backups[n]);
      MovesKeepAgreement(s, t, n);
      forall p ensures RowKept(t, t.backups[n], p) {
        MovesKeepRow(s, t, n, p);
      }
    }
  }

  lemma LandMoves(s: System, i: nat)
    requires Core(s)
    ensures forall place :: PlaceGrows(s.state, Land(s.state, i), place)
    ensures var t := Land(s.state, i); t.log == s.state.log || exists e :: Landing(s.state, t, e)
  {
    if Pending(s.state, i) {
      PendingIsReady(s.state, i);
      LandedRemote(s.state, i);
      var t := Land(s.state, i);
      assert Landing(s.state, t, t.log[|s.state.log|]);
    }
  }

  lemma CalmMoves(s: System, step: Step)
    requires Core(s) && Consented(s) && Calm(s, step) && !step.BackupTaken?
    ensures Moves(s.state, Apply(s, step).state)
  {
    hide Core, Consented, Requested, Work, Landing;
    ApplyConsents(s, step);
    CalmFrames(s, step);
    if step.WriteLands? {
      LandMoves(s, step.record);
    } else {
      OnlyLandingTouches(s, step);
    }
  }

  // ---- taking a backup ----

  lemma TakenRow(s: State, p: Id)
    requires Truthful(s) && Logged(s) && p in s.db.publications
    ensures BackupTruth(s, p, s.db.publications[p])
  {
    assert RowTruth(s, p, s.db.publications[p]);
    forall i | 0 <= i < |s.log| && s.log[i].publication == p ensures EffectOf(s.log[i], s.db.publications[p]) {
      assert EffectFits(s, s.log[i]);
    }
  }

  lemma TakenFits(s: System)
    requires Core(s) && Consented(s)
    ensures BackupFits(s.state, s.state.db)
  {
    var db := s.state.db;
    forall a ensures ConsentKept(db, a) {
      assert OnSnapshot(db, a) && OneExecution(db, a) && Starts(s, a);
    }
    forall p ensures AgreeOn(db, db, p) && RowKept(s.state, db, p) {
      if p in db.publications {
        TakenRow(s.state, p);
      }
    }
  }

  lemma BackupTakenKeeps(s: System)
    requires Core(s) && Consented(s) && BackupsFit(s.state)
    ensures BackupsFit(Apply(s, BackupTaken).state)
  {
    var t := Apply(s, BackupTaken).state;
    TakenFits(s);
    forall n | 0 <= n < |t.backups| ensures BackupFits(t, t.backups[n]) {
      assert BackupFits(s.state, t.backups[n]);
      forall p ensures RowKept(t, t.backups[n], p) {
        assert RowKept(s.state, t.backups[n], p);
      }
    }
    forall m, n | 0 <= m < |t.backups| && 0 <= n < |t.backups| ensures Agree(t.backups[m], t.backups[n]) {
      Agreement(s.state, t.backups[m], t.backups[n]);
    }
  }

  lemma Agreement(s: State, d: Db, e: Db)
    requires BackupsFit(s) && d in s.backups + [s.db] && e in s.backups + [s.db]
    ensures Agree(d, e)
  {
    forall p ensures AgreeOn(d, e, p) {
      if d == s.db && e in s.backups {
        assert BackupFits(s, e) && AgreeOn(s.db, e, p);
      } else if e == s.db && d in s.backups {
        assert BackupFits(s, d) && AgreeOn(s.db, d, p);
      } else if d in s.backups && e in s.backups {
        assert Agree(d, e);
      }
    }
  }

  // ---- restoring one ----

  ghost predicate Restores(s: State, n: nat, world: World) {
    BackupsFit(s) && MayRestore(s, n, world)
  }

  lemma RestoredReferences(b: Db, world: World, retired: set<Id>)
    requires Refers(b) && Evolves(b.world.(retired := retired), world)
    ensures var e := Restored(b).(world := world);
            && (forall a :: ApprovalRefers(e, a)) && (forall j | j in e.jobs :: JobRefers(e, e.jobs[j]))
            && (forall i: nat :: RecordRefers(e, i))
  {
    var e := Restored(b).(world := world);
    forall a ensures ApprovalRefers(e, a) {
      assert ApprovalRefers(b, a);
    }
    forall j | j in e.jobs ensures JobRefers(e, e.jobs[j]) {
      assert JobRefers(b, b.jobs[j]);
    }
    forall i: nat ensures RecordRefers(e, i) {
      assert RecordRefers(b, i);
    }
  }

  lemma RestoredRefers(b: Db, world: World, retired: set<Id>)
    requires Refers(b) && Evolves(b.world.(retired := retired), world)
    ensures Refers(Restored(b).(world := world))
  {
    RestoredReferences(b, world, retired);
    var e := Restored(b).(world := world);
    forall w ensures HistoryNumbered(e.world, w) {
      assert HistoryNumbered(b.world, w);
    }
    forall p | p in e.publications ensures RowRefers(e.world, e.publications[p]) {
      assert RowRefers(b.world, b.publications[p]);
    }
  }

  lemma RestoredTruth(s: State, n: nat, world: World, p: Id)
    requires Restores(s, n, world) && p in s.backups[n].publications
    ensures RowTruth(RestoredState(s, n, world), p, RestoredRow(s.backups[n].publications[p]))
  {
    assert BackupFits(s, s.backups[n]) && RowKept(s, s.backups[n], p);
    assert s.backups[n].publications[p].run in Retiring(s);
  }

  lemma RestoredRows(s: State, n: nat, world: World)
    requires Restores(s, n, world)
    ensures var t := RestoredState(s, n, world);
            Truthful(t) && LiveUnique(t.db.publications) && PublishingIsHeld(t) && NewestWrote(t)
  {
    var t, b := RestoredState(s, n, world), s.backups[n];
    assert BackupFits(s, b);
    forall p | p in t.db.publications ensures RowTruth(t, p, t.db.publications[p])
      && t.db.publications[p].run in world.retired {
      RestoredTruth(s, n, world, p);
      assert b.publications[p].run in Retiring(s);
    }
    forall p ensures OnlyLive(t.db.publications, p) && PublishingHeld(t, p) && NewestPolicy(t, p) {
      assert OnlyLive(b.publications, p) && RowKept(s, b, p);
    }
  }

  lemma RestoredSlot(s: State, n: nat, world: World)
    requires n < |s.backups|
    ensures var t := RestoredState(s, n, world);
            SlotHolds(t) && RecordsFit(t) && AbandonedIsIdle(t.db) && Quiet(t.db.records) && PreparationsFit(t)
  {
  }

  lemma RestoredLog(s: State, n: nat, world: World)
    requires Restores(s, n, world) && Logged(s)
    ensures Logged(RestoredState(s, n, world))
  {
    var t, b := RestoredState(s, n, world), s.backups[n];
    assert BackupFits(s, b);
    forall i: nat | i < |t.log| ensures EffectFits(t, t.log[i]) {
      assert EffectFits(s, s.log[i]) && RowKept(s, b, s.log[i].publication);
      assert s.log[i].run in Retiring(s);
    }
  }

  /** Restoring any backup over the present remote keeps the invariant. */
  lemma RestoreKeeps(s: System, n: nat, world: World)
    requires Core(s) && Restores(s.state, n, world)
    ensures Core(Apply(s, BackupRestored(n, world)))
  {
    hide Refers, Logged, Truthful, Retiring;
    assert BackupFits(s.state, s.state.backups[n]);
    RestoredRefers(s.state.backups[n], world, Retiring(s.state));
    RestoredRows(s.state, n, world);
    RestoredSlot(s.state, n, world);
    RestoredLog(s.state, n, world);
  }

  lemma RestoredDecision(s: State, n: nat, world: World, a: Id)
    requires n < |s.backups| && ConsentKept(s.backups[n], a)
    ensures var t := System(RestoredState(s, n, world), Idle);
            OnlyValid(t.state.db, a) && OnSnapshot(t.state.db, a) && OneExecution(t.state.db, a) && Starts(t, a)
  {
    var e, b := RestoredState(s, n, world).db, s.backups[n];
    forall j ensures ExecutesApproval(e, j, a) <==> ExecutesApproval(b, j, a) {
    }
  }

  lemma RestoredConsent(s: State, n: nat, world: World, p: Id)
    requires n < |s.backups| && RowKept(s, s.backups[n], p)
    ensures var e := RestoredState(s, n, world).db; Backed(e, p) && Undecided(e, p) && AbandonedVoid(e, p)
  {
  }

  /** It leaves no decision valid and nothing approved, in progress or waiting, and it uses no approval twice. */
  lemma RestoreConsents(s: System, n: nat, world: World)
    requires Restores(s.state, n, world)
    ensures Consented(Apply(s, BackupRestored(n, world)))
  {
    hide RestoredState, Refers, Evolves, Retiring;
    assert BackupFits(s.state, s.state.backups[n]);
    RestoreIs(s, n, world);
    var t := System(RestoredState(s.state, n, world), Idle);
    forall a ensures OnlyValid(t.state.db, a) && OnSnapshot(t.state.db, a) && OneExecution(t.state.db, a)
      && Starts(t, a) {
      assert ConsentKept(s.state.backups[n], a);
      RestoredDecision(s.state, n, world, a);
    }
    forall p ensures Backed(t.state.db, p) && Undecided(t.state.db, p) && AbandonedVoid(t.state.db, p) {
      assert RowKept(s.state, s.state.backups[n], p);
      RestoredConsent(s.state, n, world, p);
    }
  }

  lemma RestoreIs(s: System, n: nat, world: World)
    requires MayRestore(s.state, n, world)
    ensures Apply(s, BackupRestored(n, world)) == System(RestoredState(s.state, n, world), Idle)
  {
  }

  /** Another backup fits the restored database as it fitted the present one. */
  lemma RestoredKeepsBackup(s: State, n: nat, world: World, m: nat)
    requires Restores(s, n, world) && m < |s.backups|
    ensures BackupFits(RestoredState(s, n, world), s.backups[m])
  {
    hide Refers, LiveUnique, Evolves;
    var t, b := RestoredState(s, n, world), s.backups[m];
    assert BackupFits(s, b) && Agree(s.backups[n], b);
    forall p ensures AgreeOn(t.db, b, p) && RowKept(t, b, p) {
      assert AgreeOn(s.backups[n], b, p) && RowKept(s, b, p);
      if p in b.publications {
        BackupIsRetired(s, n, world, m, p);
      }
    }
  }

  lemma BackupIsRetired(s: State, n: nat, world: World, m: nat, p: Id)
    requires MayRestore(s, n, world) && m < |s.backups| && p in s.backups[m].publications
    ensures s.backups[m].publications[p].run in world.retired
  {
    assert s.backups[m].publications[p].run in Retiring(s);
  }

  lemma RestoreKeepsBackups(s: System, n: nat, world: World)
    requires Restores(s.state, n, world)
    ensures BackupsFit(Apply(s, BackupRestored(n, world)).state)
  {
    hide BackupFits, Evolves, Retiring;
    RestoreIs(s, n, world);
    forall m | 0 <= m < |s.state.backups| ensures BackupFits(RestoredState(s.state, n, world), s.state.backups[m]) {
      RestoredKeepsBackup(s.state, n, world, m);
    }
  }

  // ---- when a restored row tells the truth ----

  /** What the state of a row promises about the remote and about the publication's own writes. */
  ghost predicate TellsTruth(s: State, p: Id, row: Publication) {
    && (row.state == PUBLISHED ==> Delivered(At(s.remote, PlaceOf(row)), row.snapshot))
    && (row.state in {PENDING_APPROVAL, REJECTED, INVALIDATED, FAILED} ==> !Wrote(s.log, p))
    && (Wrote(s.log, p) ==>
          && row.state in {UNKNOWN, PARTIAL, PUBLISHED, APPROVED, PUBLISHING}
          && At(s.remote, PlaceOf(row)).branch == Some(row.snapshot.commit)
          && (row.state in {PARTIAL, PUBLISHED, APPROVED} ==> row.remoteBranch.Some?))
  }

  /** A restored row tells the truth, unless it was REJECTED or INVALIDATED in the backup and its publication wrote. */
  lemma RestoredRowTells(s: State, n: nat, world: World, p: Id)
    requires Restores(s, n, world) && p in s.backups[n].publications
    ensures var row := s.backups[n].publications[p];
            TellsTruth(RestoredState(s, n, world), p, RestoredRow(row)) <==>
              !(row.state in {REJECTED, INVALIDATED} && Wrote(s.log, p))
  {
    assert BackupFits(s, s.backups[n]) && RowKept(s, s.backups[n], p);
  }
}
