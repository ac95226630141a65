/** One run of the platform that publishes, step by step: what the theorems speak of does happen. */
module PublicationWitness {
  import opened Outcomes
  import opened PublicationRows
  import opened PublicationSteps
  import opened PublicationSystem
  import Platform
  import Reviews

  const POLICY := Policy(1, 7, PUSH_AND_PR)

  const SNAPSHOT := Snapshot(0, 0, 0, 1, 9, 5, 3, 4, POLICY, 8)

  const PLACE := Place(7, 0)

  /** A project with one required command and nothing else. */
  function Bare(policies: seq<Policy>, enabled: bool): World {
    World({1}, map[0 := ProjectRow(true, 3, 5, map[0 := false], enabled, policies, true)], map[], map[], {})
  }

  /** The same with a run that passed the command, and its approved result. */
  const WORLD := Bare([POLICY], true).(
                   runs := map[0 := RunRow(0, true, Some(0), 5, 3, map[0 := Check(3, true, 0, true, 4, None, None)])],
                   bundles := map[0 := BundleRow(0, 1, 9, 4, 5, 3, true, true, true, Some(9), true)])

  /** The request of user 2 with its run and its result, which administrator 1 approved. */
  const DESK := Reviews.Desk(
                  map[0 := Reviews.WorkRequest(2, 1, Reviews.SUBMITTED, Some(0))],
                    map[0 := Reviews.Revision(0, 1, 3, 5)], {0},
                  map[0 := Reviews.Run(0, 0, 0, true)], map[0 := Reviews.Bundle(0, 1, 9, true, true)],
                  map[0 := Reviews.Review(Reviews.APPROVED, Some(2), Some(1), 9)], {}, {1})

  function Preparation(state: JobState): Job {
    Job(PREPARE, 0, 0, 1, None, state)
  }

  function Execution(state: JobState): Job {
    Job(EXECUTE, 0, 0, 1, Some(0), state)
  }

  function Row(state: PublicationState, version: nat, branch: Option<Sha>, pr: Option<nat>,
               attempts: seq<Attempt>): Publication {
    Publication(0, 0, SNAPSHOT, Digest(SNAPSHOT), state, version, branch, pr, branch.Some? || pr.Some?, false, false,
                attempts)
  }

  const PUSHED := Attempt(PUSH_DISPATCH, 1, false, false, None, None)

  const REQUESTED := Attempt(PR_DISPATCH, 1, false, false, None, None)

  /** Before the approval: rows, the state of the first job, and the worker. */
  function Preparing(rows: map<Id, Publication>, job: JobState, slot: Option<Id>, thread: Thread): System {
    System(State(Db(WORLD, rows, map[], map[0 := Preparation(job)], []), slot, map[], {}, [], []), thread)
  }

  /** During the execution: the row, how often the approval started, the commands, the remote and its history. */
  function Executing(row: Publication, starts: nat, records: seq<Record>, remote: map<Place, Remote>,
                     log: seq<Effect>, pc: Pc): System {
    System(State(Db(WORLD, map[0 := row], map[0 := Approval(0, 1, true, Digest(SNAPSHOT), FULL, true, starts)],
                    map[0 := Preparation(DONE), 1 := Execution(RUNNING)], records),
                 Some(1), remote, Landed(|log|), log, []), Working(1, pc))
  }

  function Landed(count: nat): set<nat> {
    if count == 0 then {} else if count == 1 then {0} else {0, 1}
  }

  function Command(write: Write, ended: bool): Record {
    Record(1, 0, write, ended)
  }

  function Wrote(write: Write): Effect {
    Effect(0, 0, PLACE, write, 8)
  }

  const BRANCH := map[PLACE := Remote(Some(8), [])]

  const BOTH := map[PLACE := Remote(Some(8), [PullRequest(1, 8)])]

  const NOTHING := Observation(5, None, None)

  const SEEN_BRANCH := Observation(5, Some(8), None)

  const SEEN_BOTH := Observation(5, Some(8), Some(ObservedPr(1, 8, true)))

  /** Some run from the beginning leads here. */
  ghost predicate Attained(w: Platform.Platform) {
    exists start, steps :: Platform.Begins(start) && Platform.Run(start, steps) == w
  }

  lemma Onward(w: Platform.Platform, step: Platform.Step)
    requires Attained(w)
    ensures Attained(Platform.Apply(w, step))
  {
    hide Platform.Apply;
    var start, steps :| Platform.Begins(start) && Platform.Run(start, steps) == w;
    assert (steps + [step])[..|steps|] == steps;
    assert Platform.Run(start, steps + [step]) == Platform.Apply(w, step);
  }

  /** The platform with this publication system, after the review of the result. */
  function Together(s: System): Platform.Platform {
    Platform.Platform(s, DESK, [], {0}, {0})
  }

  ghost predicate Reached(s: System) {
    Attained(Together(s))
  }

  lemma Next(s: System, step: Step)
    requires Reached(s) && !step.WorldChange? && !step.BackupTaken? && !step.BackupRestored?
    ensures Reached(Apply(s, step))
  {
    hide Attained, Apply, Platform.View;
    Onward(Together(s), Platform.Publish(step));
    assert DESK.revisions.Keys == {0} == DESK.runs.Keys;
    assert Platform.DeskAfter(Together(s), Platform.Publish(step)) == DESK;
    assert Platform.Apply(Together(s), Platform.Publish(step)) == Together(Apply(s, step));
  }

  // ---- the review of the result ----

  function Blank(w: World): System {
    System(State(Db(w, map[], map[], map[], []), None, map[], {}, [], []), Idle)
  }

  /** The platform with its policy, and a desk that grows. */
  function Reviewing(d: Reviews.Desk): Platform.Platform {
    Platform.Platform(Blank(Bare([POLICY], true)), d, [], d.revisions.Keys, d.runs.Keys)
  }

  const EMPTY := Reviews.Desk(map[], map[], {}, map[], map[], map[], {}, {1})

  lemma Configured()
    ensures Attained(Reviewing(EMPTY))
  {
    hide Conditions, Attained;
    var start := Reviewing(EMPTY).(system := Blank(Bare([], false)));
    var step := PolicyRequest(1, 0, 0, true, 7, PUSH_AND_PR);
    Begun(start);
    Onward(start, Platform.Publish(step));
    var db := ConfigurePolicy(start.system.state.db, 1, 0, 0, true, 7, PUSH_AND_PR).value;
    assert db.approvals == map[] && db.publications == map[];
    assert [] + [POLICY] == [POLICY];
    assert db.world.projects == Bare([POLICY], true).projects;
    assert Platform.Apply(start, Platform.Publish(step)) == Reviewing(EMPTY);
  }

  lemma Begun(start: Platform.Platform)
    requires start == Reviewing(EMPTY).(system := Blank(Bare([], false)))
    ensures Attained(start)
  {
    assert Platform.Begins(start);
    assert Platform.Run(start, []) == start;
  }

  /** A step of the desk that is taken, with new identifiers only. */
  lemma ReviewTo(d: Reviews.Desk, step: Reviews.Step, e: Reviews.Desk)
    requires Attained(Reviewing(d)) && Reviews.Apply(d, step) == e && d.admins == e.admins == {1}
    requires d.revisions.Keys <= e.revisions.Keys && d.runs.Keys <= e.runs.Keys && Platform.Fresh(Reviewing(d), step)
    ensures Attained(Reviewing(e))
  {
    hide Attained, Reviews.Apply;
    Onward(Reviewing(d), Platform.Review(step));
    var w := Bare([POLICY], true);
    assert Platform.View(w, e) == w;
    assert d.revisions.Keys + e.revisions.Keys == e.revisions.Keys && d.runs.Keys + e.runs.Keys == e.runs.Keys;
    assert Platform.Apply(Reviewing(d), Platform.Review(step)) == Reviewing(e);
  }

  lemma ResultReviewed()
    ensures Attained(Reviewing(DESK))
  {
    hide Attained;
    Configured();
    var drafted := EMPTY.(requests := map[0 := Reviews.WorkRequest(2, 1, Reviews.DRAFT, None)]);
    var confirmed := drafted.(requests := map[0 := Reviews.WorkRequest(2, 1, Reviews.READY, Some(0))],
                              revisions := DESK.revisions);
    var submitted := confirmed.(requests := DESK.requests, submitted := {0},
                                runs := map[0 := Reviews.Run(0, 0, 0, false)]);
    ReviewTo(EMPTY, Reviews.OpenStep(0, 2), drafted);
    ReviewTo(drafted, Reviews.ConfirmStep(2, 0, 1, 3, 5, true, 0), confirmed);
    ReviewTo(confirmed, Reviews.SubmitStep(2, 0, 0, false, 0), submitted);
    ResultDecided(submitted);
  }

  lemma ResultDecided(submitted: Reviews.Desk)
    requires submitted == DESK.(runs := map[0 := Reviews.Run(0, 0, 0, false)], bundles := map[], reviews := map[])
    requires Attained(Reviewing(submitted))
    ensures Attained(Reviewing(DESK))
  {
    hide Attained;
    var succeeded := submitted.(runs := DESK.runs);
    var complete := succeeded.(bundles := DESK.bundles);
    var accepted := complete.(reviews := map[0 := Reviews.Review(Reviews.AWAITING_ADMIN, Some(2), None, 9)],
                              pinned := {0});
    ReviewTo(submitted, Reviews.SucceedStep(0), succeeded);
    assert Reviews.Versions(succeeded, 0) == {};
    ReviewTo(succeeded, Reviews.SealStep(0, 0, 9, true, true), complete);
    ReviewTo(complete, Reviews.DecideStep(2, 0, Reviews.Accept, 9, Ok(()), false, false), accepted);
    ReviewTo(accepted, Reviews.DecideStep(1, 0, Reviews.Approve, 9, Ok(()), false, false), DESK);
  }

  lemma WorldShown()
    ensures Platform.View(WORLD, DESK) == WORLD
  {
    assert Reviews.IsCurrent(DESK, 0);
    assert Platform.View(WORLD, DESK).bundles == WORLD.bundles;
    assert Platform.View(WORLD, DESK).runs == WORLD.runs;
  }

  lemma WorldAccepted()
    ensures Apply(Blank(Bare([POLICY], true)), WorldChange(WORLD)) == Blank(WORLD)
    ensures Platform.Outside(Reviewing(DESK), WORLD) == WORLD
  {
  }

  lemma ResultShown()
    ensures Reached(Blank(WORLD))
  {
    hide Attained, Platform.View, Reviews.IsCurrent, Apply, Prolongs, Platform.Outside;
    ResultReviewed();
    WorldShown();
    WorldAccepted();
    var step := Platform.Publish(WorldChange(WORLD));
    Onward(Reviewing(DESK), step);
    assert DESK.revisions.Keys == {0} == DESK.runs.Keys;
    assert Platform.DeskAfter(Reviewing(DESK), step) == DESK;
    assert Platform.Apply(Reviewing(DESK), step) == Together(Blank(WORLD));
  }

  // ---- the publication ----

  lemma GuardPasses()
    ensures Conditions(WORLD, 1, 0, None) == Ok((0, POLICY))
            && Conditions(WORLD, 1, 0, Some(SNAPSHOT)) == Ok((0, POLICY))
  {
  }

  lemma Queued()
    ensures Reached(Preparing(map[], QUEUED, None, Idle))
  {
    hide Conditions;
    ResultShown();
    GuardPasses();
    var s := Blank(WORLD);
    Next(s, PrepareRequest(1, 0, 0));
    assert Apply(s, PrepareRequest(1, 0, 0)) == Preparing(map[], QUEUED, None, Idle);
  }

  lemma Looked()
    ensures Reached(Preparing(map[], RUNNING, Some(0), Working(0, PrepareLook(SNAPSHOT))))
  {
    hide Conditions, Reached;
    Queued();
    GuardPasses();
    var s := Preparing(map[], QUEUED, None, Idle);
    Next(s, Claim(0));
    assert Apply(s, Claim(0)) == Preparing(map[], RUNNING, Some(0), Working(0, Claimed));
    Next(Preparing(map[], RUNNING, Some(0), Working(0, Claimed)), Advance(Proceed));
    Next(Preparing(map[], RUNNING, Some(0), Working(0, PrepareStart)), Advance(Prepared(8)));
  }

  lemma Saved()
    ensures Reached(Preparing(map[0 := Row(PENDING_APPROVAL, 1, None, None, [])], RUNNING, Some(0),
                              Working(0, Finish(false))))
  {
    hide Conditions, Reached;
    Looked();
    GuardPasses();
    Next(Preparing(map[], RUNNING, Some(0), Working(0, PrepareLook(SNAPSHOT))), Advance(Look(5, true)));
    Next(Preparing(map[], RUNNING, Some(0), Working(0, PrepareSave(SNAPSHOT, NOTHING))), Advance(NewRow(0)));
  }

  lemma Closing()
    ensures Reached(Preparing(map[0 := Row(PENDING_APPROVAL, 1, None, None, [])], RUNNING, Some(0),
                              Working(0, Close(false))))
  {
    hide Conditions, Reached;
    Saved();
    var rows := map[0 := Row(PENDING_APPROVAL, 1, None, None, [])];
    Next(Preparing(rows, RUNNING, Some(0), Working(0, Finish(false))), Advance(Proceed));
  }

  lemma Awaiting()
    ensures Reached(Preparing(map[0 := Row(PENDING_APPROVAL, 1, None, None, [])], DONE, None, Idle))
  {
    hide Conditions, Reached;
    Closing();
    var rows := map[0 := Row(PENDING_APPROVAL, 1, None, None, [])];
    var s := Preparing(rows, RUNNING, Some(0), Working(0, Close(false)));
    Next(s, Advance(Proceed));
    assert Apply(s, Advance(Proceed)).state.db.jobs == map[0 := Preparation(DONE)];
  }

  lemma ApprovedRun()
    ensures Reached(Executing(Row(APPROVED, 2, None, None, []), 0, [], map[], [], Claimed))
  {
    hide Conditions, Reached, Work, Recover;
    Awaiting();
    GuardPasses();
    var rows := map[0 := Row(PENDING_APPROVAL, 1, None, None, [])];
    var s, step := Preparing(rows, DONE, None, Idle), DecideRequest(1, 0, Digest(SNAPSHOT), true, 0, 1);
    Next(s, step);
    var t := Apply(s, step);
    assert t.state.db.publications == map[0 := Row(APPROVED, 2, None, None, [])];
    assert t.state.db.jobs == map[0 := Preparation(DONE), 1 := Execution(QUEUED)];
    Next(t, Claim(1));
    assert Apply(t, Claim(1)).state.db.jobs == map[0 := Preparation(DONE), 1 := Execution(RUNNING)];
    assert Apply(t, Claim(1)) == Executing(Row(APPROVED, 2, None, None, []), 0, [], map[], [], Claimed);
  }

  lemma StepsTo(s: System, input: Input, t: System)
    requires Reached(s) && Work(s, input) == t
    ensures Reached(t)
  {
    hide Reached, Work;
    Next(s, Advance(input));
  }

  lemma Started()
    ensures Reached(Executing(Row(PUBLISHING, 3, None, None, []), 1, [], map[], [], FirstLook))
  {
    hide Conditions, Reached;
    ApprovedRun();
    GuardPasses();
    var row := Row(APPROVED, 2, None, None, []);
    StepsTo(Executing(row, 0, [], map[], [], Claimed), Proceed, Executing(row, 0, [], map[], [], Begin));
    StepsTo(Executing(row, 0, [], map[], [], Begin), Proceed, Executing(row, 0, [], map[], [], Approve));
    var t := Work(Executing(row, 0, [], map[], [], Approve), Proceed);
    StepsTo(Executing(row, 0, [], map[], [], Approve), Proceed, t);
    assert t.state.db.publications == map[0 := Row(PUBLISHING, 3, None, None, [])];
    assert t == Executing(Row(PUBLISHING, 3, None, None, []), 1, [], map[], [], FirstLook);
  }

  lemma Dispatched()
    ensures Reached(Executing(Row(PUBLISHING, 3, None, None, [PUSHED]), 1, [], map[], [], InnerLook(PushWrite)))
  {
    hide Conditions, Reached;
    Started();
    GuardPasses();
    var row := Row(PUBLISHING, 3, None, None, []);
    StepsTo(Executing(row, 1, [], map[], [], FirstLook), Look(5, true),
            Executing(row, 1, [], map[], [], FirstSaw(NOTHING)));
    StepsTo(Executing(row, 1, [], map[], [], FirstSaw(NOTHING)), Proceed,
            Executing(row, 1, [], map[], [], DispatchWrite(PushWrite)));
    assert AddAttempt(row, PUSH_DISPATCH, 1) == Row(PUBLISHING, 3, None, None, [PUSHED]);
    StepsTo(Executing(row, 1, [], map[], [], DispatchWrite(PushWrite)), Proceed,
            Executing(Row(PUBLISHING, 3, None, None, [PUSHED]), 1, [], map[], [], InnerLook(PushWrite)));
  }

  lemma PushLaunched()
    ensures Reached(Executing(Row(PUBLISHING, 3, None, None, [PUSHED]), 1, [Command(PushWrite, false)], map[], [],
                              Wait(PushWrite, 0)))
  {
    hide Conditions, Reached;
    Dispatched();
    GuardPasses();
    var row := Row(PUBLISHING, 3, None, None, [PUSHED]);
    StepsTo(Executing(row, 1, [], map[], [], InnerLook(PushWrite)), Look(5, true),
            Executing(row, 1, [], map[], [], AuthorizeStep(PushWrite)));
    StepsTo(Executing(row, 1, [], map[], [], AuthorizeStep(PushWrite)), Proceed,
            Executing(row, 1, [], map[], [], Launch(PushWrite)));
    StepsTo(Executing(row, 1, [], map[], [], Launch(PushWrite)), Proceed,
            Executing(row, 1, [Command(PushWrite, false)], map[], [], Wait(PushWrite, 0)));
  }

  lemma PushLanded()
    ensures Reached(Executing(Row(PUBLISHING, 3, None, None, [PUSHED]), 1, [Command(PushWrite, true)], BRANCH,
                              [Wrote(PushWrite)], LookBack))
  {
    hide Conditions, Reached, Work;
    PushLaunched();
    var row := Row(PUBLISHING, 3, None, None, [PUSHED]);
    var s := Executing(row, 1, [Command(PushWrite, false)], map[], [], Wait(PushWrite, 0));
    Next(s, WriteLands(0));
    var t := Executing(row, 1, [Command(PushWrite, false)], BRANCH, [Wrote(PushWrite)], Wait(PushWrite, 0));
    assert Apply(s, WriteLands(0)).state.remote == t.state.remote;
    assert Apply(s, WriteLands(0)) == t;
    Next(t, ProcessEnds(0));
    var u := Executing(row, 1, [Command(PushWrite, true)], BRANCH, [Wrote(PushWrite)], Wait(PushWrite, 0));
    assert Apply(t, ProcessEnds(0)).state.db.records == u.state.db.records;
    assert Apply(t, ProcessEnds(0)) == u;
    PushWaited(u);
    StepsTo(u, Proceed, Executing(row, 1, [Command(PushWrite, true)], BRANCH, [Wrote(PushWrite)], LookBack));
  }

  lemma PushWaited(u: System)
    requires u == Executing(Row(PUBLISHING, 3, None, None, [PUSHED]), 1, [Command(PushWrite, true)], BRANCH,
                            [Wrote(PushWrite)], Wait(PushWrite, 0))
    ensures Work(u, Proceed) == u.(thread := Working(1, LookBack))
  {
    hide Conditions;
  }

  lemma Confirmed()
    ensures Reached(Executing(Row(PUBLISHING, 3, Some(8), None, [PUSHED]), 1, [Command(PushWrite, true)], BRANCH,
                              [Wrote(PushWrite)], PrLook))
  {
    hide Conditions, Reached;
    PushLanded();
    GuardPasses();
    var records, log := [Command(PushWrite, true)], [Wrote(PushWrite)];
    var row, known := Row(PUBLISHING, 3, None, None, [PUSHED]), Row(PUBLISHING, 3, Some(8), None, [PUSHED]);
    StepsTo(Executing(row, 1, records, BRANCH, log, LookBack), Look(5, true),
            Executing(row, 1, records, BRANCH, log, SawBack(SEEN_BRANCH)));
    StepsTo(Executing(row, 1, records, BRANCH, log, SawBack(SEEN_BRANCH)), Proceed,
            Executing(known, 1, records, BRANCH, log, Confirm(SEEN_BRANCH)));
    StepsTo(Executing(known, 1, records, BRANCH, log, Confirm(SEEN_BRANCH)), Proceed,
            Executing(known, 1, records, BRANCH, log, PrLook));
  }

  lemma PrDispatched()
    ensures Reached(Executing(Row(PUBLISHING, 3, Some(8), None, [PUSHED, REQUESTED]), 1, [Command(PushWrite, true)],
                              BRANCH,
                              [Wrote(PushWrite)], InnerLook(PrWrite)))
  {
    hide Conditions, Reached;
    Confirmed();
    GuardPasses();
    var records, log := [Command(PushWrite, true)], [Wrote(PushWrite)];
    var row := Row(PUBLISHING, 3, Some(8), None, [PUSHED]);
    StepsTo(Executing(row, 1, records, BRANCH, log, PrLook), Look(5, true),
            Executing(row, 1, records, BRANCH, log, PrSaw(SEEN_BRANCH)));
    StepsTo(Executing(row, 1, records, BRANCH, log, PrSaw(SEEN_BRANCH)), Proceed,
            Executing(row, 1, records, BRANCH, log, DispatchWrite(PrWrite)));
    assert [PUSHED] + [REQUESTED] == [PUSHED, REQUESTED];
    assert AddAttempt(row, PR_DISPATCH, 1) == Row(PUBLISHING, 3, Some(8), None, [PUSHED, REQUESTED]);
    StepsTo(Executing(row, 1, records, BRANCH, log, DispatchWrite(PrWrite)), Proceed,
            Executing(Row(PUBLISHING, 3, Some(8), None, [PUSHED, REQUESTED]), 1, records, BRANCH, log,
                      InnerLook(PrWrite)));
  }

  lemma PrLaunched()
    ensures Reached(Executing(Row(PUBLISHING, 3, Some(8), None, [PUSHED, REQUESTED]), 1,
                              [Command(PushWrite, true), Command(PrWrite, false)], BRANCH, [Wrote(PushWrite)],
                                Wait(PrWrite, 1)))
  {
    hide Conditions, Reached;
    PrDispatched();
    GuardPasses();
    var records, log := [Command(PushWrite, true)], [Wrote(PushWrite)];
    var row := Row(PUBLISHING, 3, Some(8), None, [PUSHED, REQUESTED]);
    StepsTo(Executing(row, 1, records, BRANCH, log, InnerLook(PrWrite)), Look(5, true),
            Executing(row, 1, records, BRANCH, log, AuthorizeStep(PrWrite)));
    StepsTo(Executing(row, 1, records, BRANCH, log, AuthorizeStep(PrWrite)), Proceed,
            Executing(row, 1, records, BRANCH, log, Launch(PrWrite)));
    StepsTo(Executing(row, 1, records, BRANCH, log, Launch(PrWrite)), Proceed,
            Executing(row, 1, [Command(PushWrite, true), Command(PrWrite, false)], BRANCH, log, Wait(PrWrite, 1)));
  }

  lemma PrLanded()
    ensures Reached(Executing(Row(PUBLISHING, 3, Some(8), None, [PUSHED, REQUESTED]), 1,
                              [Command(PushWrite, true), Command(PrWrite, true)], BOTH,
                                [Wrote(PushWrite), Wrote(PrWrite)], Wait(PrWrite, 1)))
  {
    hide Conditions, Reached, Work;
    PrLaunched();
    var row, log := Row(PUBLISHING, 3, Some(8), None, [PUSHED, REQUESTED]), [Wrote(PushWrite), Wrote(PrWrite)];
    var records := [Command(PushWrite, true), Command(PrWrite, false)];
    var s := Executing(row, 1, records, BRANCH, [Wrote(PushWrite)], Wait(PrWrite, 1));
    Next(s, WriteLands(1));
    var t := Executing(row, 1, records, BOTH, log, Wait(PrWrite, 1));
    assert [] + [PullRequest(1, 8)] == [PullRequest(1, 8)];
    assert Applied(Remote(Some(8), []), PrWrite, 8) == Some(BOTH[PLACE]);
    assert Apply(s, WriteLands(1)).state.remote == t.state.remote;
    assert Apply(s, WriteLands(1)).state.landed == t.state.landed;
    assert Apply(s, WriteLands(1)).state.log == t.state.log;
    Next(t, ProcessEnds(1));
    var u := Executing(row, 1, [Command(PushWrite, true), Command(PrWrite, true)], BOTH, log, Wait(PrWrite, 1));
    assert Apply(t, ProcessEnds(1)).state.db.records == u.state.db.records;
  }

  lemma AllAccounted()
    ensures Reached(Executing(Row(PUBLISHING, 3, Some(8), Some(1), [PUSHED, REQUESTED]), 1,
                              [Command(PushWrite, true), Command(PrWrite, true)], BOTH,
                                [Wrote(PushWrite), Wrote(PrWrite)], PublishStep(SEEN_BOTH)))
  {
    hide Conditions, Reached;
    PrLanded();
    var records, log := [Command(PushWrite, true), Command(PrWrite, true)], [Wrote(PushWrite), Wrote(PrWrite)];
    var row, known := Row(PUBLISHING, 3, Some(8), None, [PUSHED, REQUESTED]),
      Row(PUBLISHING, 3, Some(8), Some(1), [PUSHED, REQUESTED]);
    StepsTo(Executing(row, 1, records, BOTH, log, Wait(PrWrite, 1)), Proceed,
            Executing(row, 1, records, BOTH, log, FinalLook(true)));
    StepsTo(Executing(row, 1, records, BOTH, log, FinalLook(true)), Look(5, true),
            Executing(row, 1, records, BOTH, log, FinalSaw(true, SEEN_BOTH)));
    StepsTo(Executing(row, 1, records, BOTH, log, FinalSaw(true, SEEN_BOTH)), Proceed,
            Executing(known, 1, records, BOTH, log, PublishStep(SEEN_BOTH)));
  }

  lemma Finished()
    ensures Reached(Executing(Row(PUBLISHED, 4, Some(8), Some(1), [PUSHED, REQUESTED]), 1,
                              [Command(PushWrite, true), Command(PrWrite, true)], BOTH,
                                [Wrote(PushWrite), Wrote(PrWrite)], Finish(false)))
  {
    hide Conditions, Reached, Observe, LookFrom, LaunchStep, DispatchStep;
    AllAccounted();
    GuardPasses();
    var records, log := [Command(PushWrite, true), Command(PrWrite, true)], [Wrote(PushWrite), Wrote(PrWrite)];
    StepsTo(Executing(Row(PUBLISHING, 3, Some(8), Some(1), [PUSHED, REQUESTED]), 1, records, BOTH, log,
                      PublishStep(SEEN_BOTH)), Proceed,
            Executing(Row(PUBLISHED, 4, Some(8), Some(1), [PUSHED, REQUESTED]), 1, records, BOTH, log, Finish(false)));
  }

  /** Some run of the platform ends with a publication that is PUBLISHED, after one push and one pull request. */
  lemma SomeRunPublishes()
    ensures exists start, steps :: Platform.Begins(start) && Publishes(Platform.Run(start, steps).system)
  {
    hide Platform.Apply;
    Finished();
    var s := Executing(Row(PUBLISHED, 4, Some(8), Some(1), [PUSHED, REQUESTED]), 1,
                       [Command(PushWrite, true), Command(PrWrite, true)], BOTH, [Wrote(PushWrite), Wrote(PrWrite)],
                         Finish(false));
    var start, steps :| Platform.Begins(start) && Platform.Run(start, steps) == Together(s);
    assert Publishes(Platform.Run(start, steps).system);
  }

  predicate Publishes(s: System) {
    && 0 in s.state.db.publications && s.state.db.publications[0].state == PUBLISHED
    && |s.state.log| == 2 && s.state.log[0].write == PushWrite && s.state.log[1].write == PrWrite
    && s.state.log[0].publication == 0 == s.state.log[1].publication
  }
}
