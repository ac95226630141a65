/** The promises of the publication protocol, for every run from an initial system. */
module PublicationTheorems {
  import opened Outcomes
  import opened PublicationRows
  import opened PublicationSteps
  import opened PublicationSystem
  import opened PublicationInvariant
  import opened PublicationRuns
  import opened PublicationConsent
  import opened PublicationFrames
  import opened PublicationBackups

  ghost predicate Sound(s: System) {
    Core(s) && Consented(s) && BackupsFit(s.state)
  }

  /** Every step keeps the system sound, also one that restores an old database over the present remote. */
  lemma StepSound(s: System, step: Step)
    requires Sound(s)
    ensures Sound(Apply(s, step))
  {
    hide Apply, Core, Consented, BackupsFit, Moves;
    if !Calm(s, step) {
      RestoreKeeps(s, step.n, step.world);
      RestoreConsents(s, step.n, step.world);
      RestoreKeepsBackups(s, step.n, step.world);
    } else {
      ApplyKeeps(s, step);
      ApplyConsents(s, step);
      if step.BackupTaken? {
        BackupTakenKeeps(s);
      } else {
        CalmMoves(s, step);
        MovesKeepBackups(s.state, Apply(s, step).state);
      }
    }
  }

  /** The system is sound after every run. */
  lemma {:induction false} RunSound(s: System, steps: seq<Step>)
    requires Sound(s)
    ensures Sound(Run(s, steps))
  {
    hide Apply, Sound;
    if steps != [] {
      var before := steps[..|steps| - 1];
      RunSound(s, before);
      StepSound(Run(s, before), steps[|steps| - 1]);
    }
  }

  lemma ReachedSound(start: System, steps: seq<Step>)
    requires Initial(start)
    ensures Sound(Run(start, steps))
  {
    hide Apply;
    InitialCore(start);
    RunSound(start, steps);
  }

  /** No step of this run restores a database. */
  ghost predicate AllCalm(start: System, steps: seq<Step>) {
    forall n: nat | n < |steps| :: Calm(Run(start, steps[..n]), steps[n])
  }

  lemma CalmBefore(start: System, steps: seq<Step>)
    requires AllCalm(start, steps) && steps != []
    ensures AllCalm(start, steps[..|steps| - 1]) && Calm(Run(start, steps[..|steps| - 1]), steps[|steps| - 1])
  {
    hide Apply, Calm;
    var before := steps[..|steps| - 1];
    forall n: nat | n < |before| ensures Calm(Run(start, before[..n]), before[n]) {
      assert before[..n] == steps[..n];
    }
  }

  // ---- exactly once ----

  /** In every run of the system, each run of the product pushes at most once and opens at most one pull request, over
      all its publications, retries, policies and repositories, and also when old databases are restored in between. */
  lemma ExactlyOnce(start: System, steps: seq<Step>, i: nat, k: nat)
    requires Initial(start) && i < k < |Run(start, steps).state.log|
    ensures var log := Run(start, steps).state.log; log[i].run == log[k].run ==> log[i].write != log[k].write
  {
    hide Apply;
    ReachedSound(start, steps);
    var s := Run(start, steps).state;
    assert FirstOfKind(s.log, k) && OnePlace(s.log, k);
  }

  // ---- the remote ----

  /** The remote that a history of effects leaves behind. */
  function Replay(log: seq<Effect>): map<Place, Remote> {
    if log == [] then map[]
    else
      var before, e := Replay(log[..|log| - 1]), log[|log| - 1];
      match Applied(At(before, e.place), e.write, e.commit)
      case None => before
      case Some(r) => before[e.place := r]
  }

  /** The remote is exactly what the logged effects built, one after the other, from nothing. */
  lemma {:induction false} RemoteIsHistory(start: System, steps: seq<Step>)
    requires Initial(start)
    ensures Run(start, steps).state.remote == Replay(Run(start, steps).state.log)
  {
    if steps != [] {
      var before, step := steps[..|steps| - 1], steps[|steps| - 1];
      RemoteIsHistory(start, before);
      if step.WriteLands? {
        LandReplays(Run(start, before).state, step.record);
      } else {
        OnlyLandingTouches(Run(start, before), step);
      }
    }
  }

  lemma LandReplays(s: State, i: nat)
    requires s.remote == Replay(s.log)
    ensures Land(s, i).remote == Replay(Land(s, i).log)
  {
    var t := Land(s, i);
    if t != s {
      assert t.log[..|t.log| - 1] == s.log;
    }
  }

  /** One step changes the remote only by creating an absent branch at the commit of a publication in
      progress, or by opening the missing pull request on that commit; both are backed by an approval of it. */
  lemma StepGrows(s: System, step: Step, place: Place)
    requires Sound(s)
    ensures var before, after := At(s.state.remote, place), At(Apply(s, step).state.remote, place);
            && Grown(before, after)
            && (after != before ==>
                  exists p | p in s.state.db.publications ::
                    && PlaceOf(s.state.db.publications[p]) == place
                    && s.state.db.publications[p].state in {PUBLISHING, UNKNOWN}
                    && after.branch == Some(s.state.db.publications[p].snapshot.commit)
                    && ApprovedOnce(s.state.db, p))
  {
    hide Work, Consented;
    if step.WriteLands? {
      var i := step.record;
      if Pending(s.state, i) {
        PendingIsReady(s.state, i);
        LandedRemote(s.state, i);
        RecordApproved(s, i);
      }
    } else {
      OnlyLandingTouches(s, step);
    }
  }

  /** Somebody approved exactly this publication's snapshot. */
  ghost predicate ApprovedOnce(db: Db, p: Id)
    requires p in db.publications
  {
    exists a | a in db.approvals ::
      && db.approvals[a].publication == p && db.approvals[a].approve
      && db.approvals[a].hash == Digest(db.publications[p].snapshot)
  }

  lemma RecordApproved(s: System, i: nat)
    requires Sound(s) && i < |s.state.db.records|
    ensures s.state.db.records[i].publication in s.state.db.publications
    ensures ApprovedOnce(s.state.db, s.state.db.records[i].publication)
  {
    var db := s.state.db;
    assert RecordRefers(db, i);
    var job := db.jobs[db.records[i].job];
    assert JobRefers(db, job);
    assert OnSnapshot(db, job.approval.value);
    assert RowRefers(db.world, db.publications[job.subject]);
  }

  /** Over any further run the remote only grows. */
  lemma {:induction false} RunGrows(s: System, steps: seq<Step>, place: Place)
    requires Sound(s)
    ensures Grown(At(s.state.remote, place), At(Run(s, steps).state.remote, place))
  {
    hide Apply, Sound;
    if steps != [] {
      var before := steps[..|steps| - 1];
      RunSound(s, before);
      RunGrows(s, before, place);
      StepGrows(Run(s, before), steps[|steps| - 1], place);
    }
  }

  // ---- the state tells the truth ----

  /** In every run, restores included, a row tells the truth about the remote and about its publication's own writes,
      unless it is REJECTED or INVALIDATED and its publication wrote; and that happens only to runs that a restore
      retired, so never without a restore. */
  lemma StateTellsTruth(start: System, steps: seq<Step>, p: Id)
    requires Initial(start) && p in Run(start, steps).state.db.publications
    ensures var s := Run(start, steps).state;
            var row := s.db.publications[p];
            && (TellsTruth(s, p, row) <==> !(row.state in {REJECTED, INVALIDATED} && Wrote(s.log, p)))
            && (row.run !in s.db.world.retired ==> TellsTruth(s, p, row))
    ensures AllCalm(start, steps) ==> TellsTruth(Run(start, steps).state, p, Run(start, steps).state.db.publications[p])
  {
    hide Apply;
    ReachedSound(start, steps);
    var s := Run(start, steps).state;
    assert RowTruth(s, p, s.db.publications[p]);
    if AllCalm(start, steps) {
      NothingRetired(start, steps);
    }
  }

  lemma {:induction false} NothingRetired(start: System, steps: seq<Step>)
    requires Initial(start) && AllCalm(start, steps)
    ensures Run(start, steps).state.db.world.retired == {}
  {
    hide Apply, Calm;
    if steps != [] {
      CalmBefore(start, steps);
      NothingRetired(start, steps[..|steps| - 1]);
      CalmFrames(Run(start, steps[..|steps| - 1]), steps[|steps| - 1]);
    }
  }

  /** The history of the remote only grows. */
  lemma LogGrows(s: System, step: Step)
    ensures s.state.log <= Apply(s, step).state.log
  {
    hide Work;
    if !step.WriteLands? {
      OnlyLandingTouches(s, step);
    }
  }

  lemma {:induction false} RunLogs(start: System, steps: seq<Step>, n: nat)
    requires n <= |steps|
    ensures Run(start, steps[..n]).state.log <= Run(start, steps).state.log
  {
    hide Apply;
    if n == |steps| {
      assert steps[..n] == steps;
    } else {
      var before := steps[..|steps| - 1];
      assert before[..n] == steps[..n];
      RunLogs(start, before, n);
      LogGrows(Run(start, before), steps[|steps| - 1]);
    }
  }

  /** Every backup is the database of an earlier state of the run. */
  lemma {:induction false} BackupOrigin(start: System, steps: seq<Step>, n: nat) returns (m: nat)
    requires Initial(start) && n < |Run(start, steps).state.backups|
    ensures m <= |steps| && Run(start, steps[..m]).state.db == Run(start, steps).state.backups[n]
  {
    hide Apply;
    var before, step := steps[..|steps| - 1], steps[|steps| - 1];
    var s := Run(start, before);
    BackupStep(s, step);
    if n < |s.state.backups| {
      m := BackupOrigin(start, before, n);
      assert before[..m] == steps[..m];
    } else {
      m := |before|;
    }
  }

  lemma BackupStep(s: System, step: Step)
    ensures Apply(s, step).state.backups == if step.BackupTaken? then s.state.backups + [s.state.db]
            else s.state.backups
  {
    hide Work, Requested;
    if Calm(s, step) {
      CalmFrames(s, step);
    }
  }

  /** A write of this publication was logged after the first `n` effects. */
  predicate WroteSince(log: seq<Effect>, n: nat, p: Id) {
    exists k | n <= k < |log| :: log[k].publication == p
  }

  /** Exactly when a restored row lies: it told the truth when the backup was taken, it was REJECTED or INVALIDATED
      then, and its publication wrote afterwards. */
  lemma RestoredRowLies(start: System, steps: seq<Step>, n: nat, world: World, m: nat, p: Id)
    requires Initial(start) && MayRestore(Run(start, steps).state, n, world)
             && p in Run(start, steps).state.backups[n].publications
    requires m <= |steps| && Run(start, steps[..m]).state.db == Run(start, steps).state.backups[n]
    requires var earlier := Run(start, steps[..m]).state; TellsTruth(earlier, p, earlier.db.publications[p])
    ensures var earlier, now := Run(start, steps[..m]).state, Run(start, steps).state;
            TellsTruth(RestoredState(now, n, world), p, RestoredRow(earlier.db.publications[p])) <==>
              !(earlier.db.publications[p].state in {REJECTED, INVALIDATED} && WroteSince(now.log, |earlier.log|, p))
  {
    hide Apply, MayRestore, RestoredState;
    ReachedSound(start, steps);
    RunLogs(start, steps, m);
    var earlier, now := Run(start, steps[..m]).state, Run(start, steps).state;
    RestoredRowTells(now, n, world, p);
    WroteThenOrSince(earlier.log, now.log, p);
  }

  lemma WroteThenOrSince(before: seq<Effect>, after: seq<Effect>, p: Id)
    requires before <= after
    ensures Wrote(after, p) <==> Wrote(before, p) || WroteSince(after, |before|, p)
  {
    if Wrote(before, p) {
      var i :| 0 <= i < |before| && before[i].publication == p;
      assert after[i] == before[i];
    }
    if Wrote(after, p) {
      var i :| 0 <= i < |after| && after[i].publication == p;
      if i < |before| {
        assert before[i] == after[i];
      }
    }
  }


  /** Once a publication was PUBLISHED, the remote holds what its snapshot promised in every later state, whatever is
      restored in between. */
  lemma PublishedStays(s: System, steps: seq<Step>, p: Id)
    requires Sound(s) && p in s.state.db.publications && s.state.db.publications[p].state == PUBLISHED
    ensures var row := s.state.db.publications[p]; Delivered(At(Run(s, steps).state.remote, PlaceOf(row)), row.snapshot)
  {
    hide Apply;
    assert RowTruth(s.state, p, s.state.db.publications[p]);
    RunGrows(s, steps, PlaceOf(s.state.db.publications[p]));
  }

  // ---- consent ----

  /** In every reachable state: a publication has at most one valid decision, an approved one or one in progress
      has a valid approval of exactly its snapshot, an abandoned one has none, and no approval starts twice. */
  lemma ConsentHolds(start: System, steps: seq<Step>)
    requires Initial(start)
    ensures var db := Run(start, steps).state.db;
            && (forall a, b | a in db.approvals && b in db.approvals && db.approvals[a].valid
                && db.approvals[b].valid ::
                  db.approvals[a].publication == db.approvals[b].publication ==> a == b)
            && (forall p | p in db.publications && db.publications[p].state in {APPROVED, PUBLISHING} ::
                  exists a :: Backs(db, a, p) && db.approvals[a].hash == Digest(db.publications[p].snapshot))
            && (forall p, a | p in db.publications && db.publications[p].abandoned :: !ValidOn(db, a, p))
            && (forall a | a in db.approvals :: db.approvals[a].starts <= 1)
  {
    ReachedSound(start, steps);
    var s := Run(start, steps);
    var db := s.state.db;
    forall a, b | a in db.approvals && b in db.approvals && db.approvals[a].valid && db.approvals[b].valid
      ensures db.approvals[a].publication == db.approvals[b].publication ==> a == b
    {
      assert OnlyValid(db, a);
    }
    forall p | p in db.publications && db.publications[p].state in {APPROVED, PUBLISHING}
      ensures exists a :: Backs(db, a, p) && db.approvals[a].hash == Digest(db.publications[p].snapshot)
    {
      assert Backed(db, p) && RowRefers(db.world, db.publications[p]);
    }
    forall p, a | p in db.publications && db.publications[p].abandoned ensures !ValidOn(db, a, p) {
      assert AbandonedVoid(db, p);
    }
    forall a | a in db.approvals ensures db.approvals[a].starts <= 1 {
      assert Starts(s, a);
    }
  }

  /** A valid approval by this user inside the given project, or anywhere. */
  predicate Holds(db: Db, a: Id, user: Id, within: Option<Id>) {
    && a in db.approvals && db.approvals[a].actor == user && db.approvals[a].valid && db.approvals[a].approve
    && (within.Some? ==>
          && db.approvals[a].publication in db.publications
          && db.publications[db.approvals[a].publication].project == within.value)
  }

  /** After a revocation the user holds no valid approval there, and gets none for as long as he is no administrator. */
  lemma RevokedForGood(s: System, user: Id, within: Option<Id>, steps: seq<Step>, a: Id)
    requires Sound(s)
    requires forall n: nat | n <= |steps| ::
             user !in Run(Apply(s, Revocation(user, within)), steps[..n]).state.db.world.admins
    ensures !Holds(Run(Apply(s, Revocation(user, within)), steps).state.db, a, user, within)
  {
    hide Apply, Sound, Holds;
    AfterRevocation(s, user, within, a);
    HoldsNothing(Apply(s, Revocation(user, within)), user, within, steps, a);
  }

  lemma AfterRevocation(s: System, user: Id, within: Option<Id>, a: Id)
    requires Sound(s)
    ensures Sound(Apply(s, Revocation(user, within)))
    ensures !Holds(Apply(s, Revocation(user, within)).state.db, a, user, within)
  {
    hide Core, Consented, BackupsFit, Holds, RevokePublications;
    StepSound(s, Revocation(user, within));
    RevocationClears(s.state.db, user, within, a);
  }

  lemma {:induction false} HoldsNothing(t: System, user: Id, within: Option<Id>, steps: seq<Step>, a: Id)
    requires Sound(t) && !Holds(t.state.db, a, user, within)
    requires forall n: nat | n <= |steps| :: user !in Run(t, steps[..n]).state.db.world.admins
    ensures !Holds(Run(t, steps).state.db, a, user, within)
  {
    hide Apply, Sound, Holds;
    if steps != [] {
      var before := steps[..|steps| - 1];
      forall m: nat | m <= |before| ensures user !in Run(t, before[..m]).state.db.world.admins {
        assert before[..m] == steps[..m];
      }
      HoldsNothing(t, user, within, before, a);
      HoldsStill(t, user, within, before, steps[|steps| - 1], a);
    }
  }

  lemma HoldsStill(t: System, user: Id, within: Option<Id>, before: seq<Step>, step: Step, a: Id)
    requires Sound(t) && !Holds(Run(t, before).state.db, a, user, within)
    requires user !in Run(t, before).state.db.world.admins
    ensures !Holds(Apply(Run(t, before), step).state.db, a, user, within)
  {
    hide Apply, Holds, Core;
    RunSound(t, before);
    var u := Run(t, before);
    if Calm(u, step) {
      ApplyConsents(u, step);
      StillRevoked(u, Apply(u, step), user, within, a);
    } else {
      RestoredHolds(u, step.n, step.world, user, within, a);
    }
  }

  /** After a restore nobody holds a valid approval. */
  lemma RestoredHolds(u: System, n: nat, world: World, user: Id, within: Option<Id>, a: Id)
    requires MayRestore(u.state, n, world)
    ensures !Holds(Apply(u, BackupRestored(n, world)).state.db, a, user, within)
  {
    hide Evolves, Retiring;
  }

  lemma RevocationClears(db: Db, user: Id, within: Option<Id>, a: Id)
    ensures !Holds(RevokePublications(db, user, within), a, user, within)
  {
    var e := RevokePublications(db, user, within);
    if Holds(e, a, user, within) {
      assert Revoked(db, user, within, a);
    }
  }

  lemma StillRevoked(u: System, v: System, user: Id, within: Option<Id>, a: Id)
    requires Consented(u) && Carries(u.state.db, v.state.db) && user !in u.state.db.world.admins
    requires !Holds(u.state.db, a, user, within)
    ensures !Holds(v.state.db, a, user, within)
  {
    assert ApprovalCarried(u.state.db, v.state.db, a);
    if a in u.state.db.approvals {
      assert OnSnapshot(u.state.db, a);
      assert RowCarried(u.state.db, v.state.db, u.state.db.approvals[a].publication);
    }
  }
}
