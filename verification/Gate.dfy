/** The gate between a launcher and its command, racing heartbeats and the recovery of its lease. */
module Gate {
  // One launcher, one command, one slot: heartbeats and recovery touch the lease of the same publication job, on one
  // clock that only moves forward.

  import opened Outcomes

  type Id = nat

  const LEASE_SECONDS: nat := 45

  /** Where a launcher stands. A look reads the job row first and the clock afterwards; `seen` is the expiry
      read from a RUNNING row. */
  datatype Phase =
    | Look(seen: Option<nat>)
    | Passed
    | Created
    | Registered
    | LookAgain(seen: Option<nat>)
    | Granted
    | Released
    | Refused

  datatype RecordState = NoRecord | Open(registered: bool) | Ended

  /** One launch: its point, its process record, and whether its child is alive. */
  datatype Launch = Launch(phase: Phase, record: RecordState, alive: bool)

  /** Where a recovery stands. `todo` are the open records it listed, `known` those that had a process then. */
  datatype Recovery =
    | Started(now: nat)
    | Judged
    | Listed(todo: set<Id>, known: set<Id>)
    | Blocked

  /** `held`: the slot names the job and the job is RUNNING. `late`: a live command was released without that. */
  datatype State = State(
    clock: nat, held: bool, blocked: bool, lease: nat, launches: map<Id, Launch>,
    recoveries: map<Id, Recovery>, beats: map<Id, nat>, late: bool)

  datatype Step =
    | Tick(seconds: nat)
    | BeatStart(b: Id) | BeatApply(b: Id)
    | Begin(l: Id) | Check(l: Id) | Create(l: Id) | Register(l: Id) | ReadAgain(l: Id) | CheckAgain(l: Id)
    | OpenGate(l: Id) | Dies(l: Id) | Close(l: Id)
    | RecoverStart(r: Id) | Judge(r: Id) | ListRecords(r: Id) | Confirm(r: Id, l: Id) | Free(r: Id)
    | Finalise

  predicate Expired(s: State) {
    s.lease <= s.clock
  }

  function SetLaunch(s: State, l: Id, launch: Launch): State {
    s.(launches := s.launches[l := launch])
  }

  predicate AtPhase(s: State, l: Id, phase: Phase) {
    l in s.launches && s.launches[l].phase == phase
  }

  predicate OpenRecord(s: State, l: Id) {
    l in s.launches && s.launches[l].record.Open?
  }

  /** A heartbeat reads the clock first and updates the lease later, at most `delay` later. */
  function ApplyBeat(s: State, b: Id, delay: nat): State {
    if b !in s.beats || s.clock - s.beats[b] > delay then s
    else
      var now := s.beats[b];
      if s.held && !s.blocked && s.lease > now then s.(lease := now + LEASE_SECONDS, beats := s.beats - {b})
      else s.(beats := s.beats - {b})
  }

  /** The row as a look finds it: the expiry of a RUNNING job. */
  function RowLease(s: State): Option<nat> {
    if s.held then Some(s.lease) else None
  }

  predicate LookPasses(s: State, seen: Option<nat>) {
    seen.Some? && seen.value > s.clock
  }

  function LaunchStep(s: State, step: Step): State {
    match step
    case Begin(l) => if l in s.launches then s else SetLaunch(s, l, Launch(Look(RowLease(s)), NoRecord, false))
    case Check(l) =>
      if l in s.launches && s.launches[l].phase.Look?
      then SetLaunch(s, l, s.launches[l].(phase := if LookPasses(s, s.launches[l].phase.seen) then Passed else Refused))
      else s
    case Create(l) => if AtPhase(s, l, Passed) then SetLaunch(s, l, Launch(Created, Open(false), false)) else s
    case Register(l) => if AtPhase(s, l, Created) then SetLaunch(s, l, Launch(Registered, Open(true), true)) else s
    case ReadAgain(l) =>
      if AtPhase(s, l, Registered) then SetLaunch(s, l, s.launches[l].(phase := LookAgain(RowLease(s)))) else s
    case CheckAgain(l) =>
      if l in s.launches && s.launches[l].phase.LookAgain?
      then SetLaunch(s, l, s.launches[l].(phase := if LookPasses(s, s.launches[l].phase.seen) then Granted
                                          else Refused))
      else s
    case OpenGate(l) =>
      if AtPhase(s, l, Granted)
      then SetLaunch(s, l, s.launches[l].(phase := Released)).(late := s.late || (s.launches[l].alive && !s.held))
      else s
    case Dies(l) => if l in s.launches then SetLaunch(s, l, s.launches[l].(alive := false)) else s
    case Close(l) =>
      if (AtPhase(s, l, Released) || AtPhase(s, l, Refused)) && !s.launches[l].alive && OpenRecord(s, l)
      then SetLaunch(s, l, s.launches[l].(record := Ended)) else s
    case _ => s
  }

  function OpenRecords(launches: map<Id, Launch>): set<Id> {
    set l | l in launches && launches[l].record.Open?
  }

  /** The open records that name a process. */
  function KnownRecords(launches: map<Id, Launch>): set<Id> {
    set l | l in launches && launches[l].record == Open(true)
  }

  function RecoveryStep(s: State, step: Step): State {
    match step
    case RecoverStart(r) => s.(recoveries := s.recoveries[r := Started(s.clock)])
    case Judge(r) =>
      if r in s.recoveries && s.recoveries[r].Started? && s.held && s.lease <= s.recoveries[r].now
      then s.(recoveries := s.recoveries[r := Judged]) else s
    case ListRecords(r) =>
      if r in s.recoveries && s.recoveries[r].Judged?
      then s.(recoveries := s.recoveries[r := Listed(OpenRecords(s.launches), KnownRecords(s.launches))])
      else s
    case Confirm(r, l) =>
      if r in s.recoveries && s.recoveries[r].Listed? && l in s.recoveries[r].todo && l in s.launches then
        if l in s.recoveries[r].known && !s.launches[l].alive
        then SetLaunch(s, l, s.launches[l].(record := Ended)).(
          recoveries := s.recoveries[r := s.recoveries[r].(todo := s.recoveries[r].todo - {l})])
        else s.(recoveries := s.recoveries[r := Blocked], blocked := true)
      else s
    case Free(r) =>
      if r in s.recoveries && s.recoveries[r].Listed? && s.recoveries[r].todo == {}
      then s.(held := false, blocked := false) else s
    case _ => s
  }

  /** The worker's own end of the job: its launches are over, and an open record keeps the slot. */
  function FinaliseStep(s: State): State {
    if !s.held || exists l | l in s.launches :: !s.launches[l].phase.Released? && !s.launches[l].phase.Refused? then s
    else if exists l | l in s.launches :: s.launches[l].record.Open? then s.(blocked := true)
    else s.(held := false)
  }

  function Apply(s: State, step: Step, delay: nat): State {
    match step
    case Tick(seconds) => s.(clock := s.clock + seconds)
    case BeatStart(b) => s.(beats := s.beats[b := s.clock])
    case BeatApply(b) => ApplyBeat(s, b, delay)
    case Finalise => FinaliseStep(s)
    case _ =>
      if step.RecoverStart? || step.Judge? || step.ListRecords? || step.Confirm?
        || step.Free? then RecoveryStep(s, step)
      else LaunchStep(s, step)
  }

  function Run(s: State, steps: seq<Step>, delay: nat): State {
    if steps == [] then s else Apply(Run(s, steps[..|steps| - 1], delay), steps[|steps| - 1], delay)
  }

  /** A job that was just claimed. */
  predicate Claimed(s: State) {
    && s.held && !s.blocked && s.lease == s.clock + LEASE_SECONDS
    && s.launches == map[] && s.recoveries == map[] && s.beats == map[] && !s.late
  }

  // ---- what holds while no heartbeat revives an expired lease ----

  /** A command that runs, or that was granted its gate. */
  predicate Running(s: State, l: Id) {
    l in s.launches && s.launches[l].alive && (s.launches[l].phase.Granted? || s.launches[l].phase.Released?)
  }

  /** A command that runs, or that may still be granted its gate on what the launcher has read. */
  predicate MayRun(s: State, l: Id) {
    || Running(s, l)
    || (l in s.launches && s.launches[l].alive && s.launches[l].phase.LookAgain?
        && LookPasses(s, s.launches[l].phase.seen))
  }

  predicate LaunchFits(s: State, l: Id) {
    l in s.launches ==>
      && (s.launches[l].alive && (s.launches[l].phase.Registered? || s.launches[l].phase.LookAgain?) ==>
          s.launches[l].record == Open(true))
      && (MayRun(s, l) ==> s.held && s.launches[l].record == Open(true))
  }

  /** A recovery that judged the lease did so on an expired one, and it has every command that may run on its list. */
  ghost predicate RecoveryFits(s: State, r: Id) {
    r in s.recoveries ==>
      && (s.recoveries[r].Started? ==> s.recoveries[r].now <= s.clock)
      && (s.recoveries[r].Judged? || s.recoveries[r].Listed? ==> Expired(s))
      && (s.recoveries[r].Listed? ==> forall l | MayRun(s, l) :: l in s.recoveries[r].todo)
  }

  ghost predicate Safe(s: State) {
    && (forall l {:trigger LaunchFits(s, l)} :: LaunchFits(s, l))
    && (forall r {:trigger RecoveryFits(s, r)} :: RecoveryFits(s, r))
    && (forall b | b in s.beats :: s.beats[b] <= s.clock)
    && !s.late
  }

  lemma LaunchSafe(s: State, step: Step)
    requires Safe(s)
    ensures Safe(LaunchStep(s, step))
  {
    var t := LaunchStep(s, step);
    forall l ensures LaunchFits(t, l) {
      assert LaunchFits(s, l);
    }
    forall r ensures RecoveryFits(t, r) {
      assert RecoveryFits(s, r);
      forall l | MayRun(t, l) && !MayRun(s, l) ensures !Expired(s) {
        assert LaunchFits(s, l);
      }
    }
    if step.OpenGate? {
      assert LaunchFits(s, step.l);
    }
  }

  lemma RecoverySafe(s: State, step: Step)
    requires Safe(s)
    ensures Safe(RecoveryStep(s, step))
  {
    var t := RecoveryStep(s, step);
    forall l ensures LaunchFits(t, l) {
      assert LaunchFits(s, l);
      if step.Free? && t != s {
        assert RecoveryFits(s, step.r);
        assert !MayRun(s, l);
      }
    }
    forall r ensures RecoveryFits(t, r) {
      assert RecoveryFits(s, r);
      forall l | MayRun(t, l) ensures MayRun(s, l) && s.launches[l].record == Open(true) {
        assert LaunchFits(s, l);
      }
    }
  }

  lemma FinaliseSafe(s: State)
    requires Safe(s)
    ensures Safe(FinaliseStep(s))
  {
    var t := FinaliseStep(s);
    forall l ensures LaunchFits(t, l) {
      assert LaunchFits(s, l);
    }
    forall r ensures RecoveryFits(t, r) {
      assert RecoveryFits(s, r);
      forall l | MayRun(t, l) ensures MayRun(s, l) {
      }
    }
  }

  /** The step does not apply a heartbeat to a lease that is over on the clock. */
  predicate Punctual(s: State, step: Step, delay: nat) {
    step.BeatApply? && Expired(s) ==> ApplyBeat(s, step.b, delay).lease == s.lease
  }

  lemma TimeSafe(s: State, step: Step, delay: nat)
    requires Safe(s) && (step.Tick? || step.BeatStart? || step.BeatApply?) && Punctual(s, step, delay)
    ensures Safe(Apply(s, step, delay))
  {
    var t := Apply(s, step, delay);
    forall l ensures LaunchFits(t, l) {
      assert LaunchFits(s, l);
    }
    forall r ensures RecoveryFits(t, r) {
      assert RecoveryFits(s, r);
      forall l | MayRun(t, l) ensures MayRun(s, l) {
      }
    }
  }

  ghost predicate AllPunctual(s: State, steps: seq<Step>, delay: nat) {
    forall n: nat | n < |steps| :: Punctual(Run(s, steps[..n], delay), steps[n], delay)
  }

  /** Whatever the lag of heartbeats: a run in which none of them is applied to an expired lease is safe throughout. */
  lemma {:induction false} RunSafe(s: State, steps: seq<Step>, delay: nat)
    requires Safe(s) && AllPunctual(s, steps, delay)
    ensures Safe(Run(s, steps, delay))
  {
    if steps != [] {
      var prefix := steps[..|steps| - 1];
      var before, step := Run(s, prefix, delay), steps[|steps| - 1];
      assert AllPunctual(s, prefix, delay) by {
        forall n: nat | n < |prefix| ensures Punctual(Run(s, prefix[..n], delay), prefix[n], delay) {
          assert prefix[..n] == steps[..n];
        }
      }
      RunSafe(s, prefix, delay);
      if step.Tick? || step.BeatStart? || step.BeatApply? {
        TimeSafe(before, step, delay);
      } else if step.Finalise? {
        FinaliseSafe(before);
      } else {
        LaunchSafe(before, step);
        RecoverySafe(before, step);
      }
    }
  }

  /** In such a run a command that was released and lives always has its slot, and none was released without it. */
  lemma RunningHoldsSlot(s: State, steps: seq<Step>, delay: nat, l: Id)
    requires Claimed(s) && AllPunctual(s, steps, delay)
    ensures Running(Run(s, steps, delay), l) ==> Run(s, steps, delay).held
    ensures !Run(s, steps, delay).late
  {
    RunSafe(s, steps, delay);
    assert LaunchFits(Run(s, steps, delay), l);
  }

  /** Heartbeats that read the clock together with their update are punctual in every run. */
  lemma {:induction false} PromptIsPunctual(s: State, steps: seq<Step>)
    requires Safe(s)
    ensures AllPunctual(s, steps, 0) && Safe(Run(s, steps, 0))
  {
    if steps == [] {
    } else {
      var prefix := steps[..|steps| - 1];
      PromptIsPunctual(s, prefix);
      forall n: nat | n < |steps| ensures Punctual(Run(s, steps[..n], 0), steps[n], 0) {
        if n < |prefix| {
          assert prefix[..n] == steps[..n] && prefix[n] == steps[n];
          assert Punctual(Run(s, prefix[..n], 0), prefix[n], 0);
        } else {
          assert steps[..n] == prefix;
        }
      }
      RunSafe(s, steps, 0);
    }
  }

  // ---- a heartbeat that comes late ----

  /** A run in order, first step first. */
  function Play(s: State, steps: seq<Step>, delay: nat): State
    decreases |steps|
  {
    if steps == [] then s else Play(Apply(s, steps[0], delay), steps[1..], delay)
  }

  lemma {:induction false} PlayMore(s: State, first: seq<Step>, rest: seq<Step>, delay: nat)
    ensures Play(s, first + rest, delay) == Play(Play(s, first, delay), rest, delay)
    decreases |first|
  {
    if first == [] {
      assert first + rest == rest;
    } else {
      PlayMore(Apply(s, first[0], delay), first[1..], rest, delay);
      assert (first + rest)[1..] == first[1..] + rest;
    }
  }

  lemma {:induction false} PlayIsRun(s: State, steps: seq<Step>, delay: nat)
    ensures Play(s, steps, delay) == Run(s, steps, delay)
  {
    if steps != [] {
      var before, last := steps[..|steps| - 1], steps[|steps| - 1];
      PlayIsRun(s, before, delay);
      PlayMore(s, before, [last], delay);
      assert before + [last] == steps;
      var t := Play(s, before, delay);
      assert Play(t, [last], delay) == Play(Apply(t, last, delay), [], delay);
    }
  }

  lemma PlayTwo(s: State, a: Step, b: Step, delay: nat)
    ensures Play(s, [a, b], delay) == Apply(Apply(s, a, delay), b, delay)
  {
    assert [a, b][1..] == [b];
    assert Play(Apply(s, a, delay), [b], delay) == Play(Apply(Apply(s, a, delay), b, delay), [], delay);
  }

  lemma PlayFour(s: State, a: Step, b: Step, c: Step, d: Step, delay: nat)
    ensures Play(s, [a, b, c, d], delay) == Apply(Apply(Apply(Apply(s, a, delay), b, delay), c, delay), d, delay)
  {
    assert [a, b, c, d] == [a, b] + [c, d];
    PlayMore(s, [a, b], [c, d], delay);
    PlayTwo(s, a, b, delay);
    PlayTwo(Apply(Apply(s, a, delay), b, delay), c, d, delay);
  }

  /** A launcher passes its first look; a heartbeat reads the clock one tick before the lease ends. */
  const READ: seq<Step> := [Tick(44), BeatStart(0), Begin(0), Check(0)]

  /** The lease ends, and a recovery judges it and lists no process. */
  const LIST: seq<Step> := [Tick(1), RecoverStart(0), Judge(0), ListRecords(0)]

  /** The heartbeat is applied now, and the launcher finds its lease extended. */
  const EXTEND: seq<Step> := [BeatApply(0), Create(0), Register(0), ReadAgain(0)]

  /** The recovery frees the slot, and the gate opens. */
  const RELEASE: seq<Step> := [CheckAgain(0), Dies(1), Free(0), OpenGate(0)]

  lemma ReadOn(s: State, delay: nat)
    requires Claimed(s)
    ensures Play(s, READ, delay) == State(s.clock + 44, true, false, s.lease,
                                          map[0 := Launch(Passed, NoRecord, false)], map[],
                                          map[0 := s.clock + 44], false)
  {
    PlayFour(s, Tick(44), BeatStart(0), Begin(0), Check(0), delay);
  }

  lemma ListOn(s: State, delay: nat)
    requires s.held && s.lease == s.clock + 1 && s.launches == map[0 := Launch(Passed, NoRecord, false)]
    ensures Play(s, LIST, delay) == s.(clock := s.clock + 1, recoveries := s.recoveries[0 := Listed({}, {})])
  {
    PlayFour(s, Tick(1), RecoverStart(0), Judge(0), ListRecords(0), delay);
    var t := Apply(Apply(s, Tick(1), delay), RecoverStart(0), delay);
    JudgeOn(t, delay);
    assert t.recoveries[0 := Listed({}, {})] == s.recoveries[0 := Listed({}, {})];
  }

  lemma JudgeOn(s: State, delay: nat)
    requires s.held && s.lease == s.clock && s.launches == map[0 := Launch(Passed, NoRecord, false)]
    requires 0 in s.recoveries && s.recoveries[0] == Started(s.clock)
    ensures Apply(Apply(s, Judge(0), delay), ListRecords(0), delay) ==
            s.(recoveries := s.recoveries[0 := Listed({}, {})])
  {
    assert OpenRecords(s.launches) == {} && KnownRecords(s.launches) == {};
    assert s.recoveries[0 := Judged][0 := Listed({}, {})] == s.recoveries[0 := Listed({}, {})];
  }

  lemma ExtendOn(s: State, delay: nat)
    requires delay >= 1 && s.held && !s.blocked && 0 in s.beats && s.beats[0] == s.clock - 1 && s.lease == s.clock
    requires AtPhase(s, 0, Passed)
    ensures Play(s, EXTEND, delay) == s.(lease := s.clock + 44, beats := s.beats - {0},
                                         launches :=
                                           s.launches[0 := Launch(LookAgain(Some(s.clock + 44)), Open(true), true)])
  {
    PlayFour(s, BeatApply(0), Create(0), Register(0), ReadAgain(0), delay);
  }

  lemma ReleaseOn(s: State, delay: nat)
    requires s.held && 0 in s.launches && s.launches[0] == Launch(LookAgain(Some(s.clock + 44)), Open(true), true)
    requires 1 !in s.launches && 0 in s.recoveries && s.recoveries[0] == Listed({}, {})
    ensures var t := Play(s, RELEASE, delay); t.late && !t.held && Running(t, 0)
  {
    PlayFour(s, CheckAgain(0), Dies(1), Free(0), OpenGate(0), delay);
  }

  /** A heartbeat that may lag by one tick revives an expired lease, and a command is released after recovery. */
  lemma LateHeartbeatReleases(s: State, delay: nat)
    requires Claimed(s) && delay >= 1
    ensures var t := Run(s, READ + LIST + EXTEND + RELEASE, delay); t.late && !t.held && Running(t, 0)
  {
    ReadOn(s, delay);
    var s1 := Play(s, READ, delay);
    ListOn(s1, delay);
    PlayMore(s, READ, LIST, delay);
    var s2 := Play(s1, LIST, delay);
    ExtendOn(s2, delay);
    PlayMore(s, READ + LIST, EXTEND, delay);
    var s3 := Play(s2, EXTEND, delay);
    ReleaseOn(s3, delay);
    PlayMore(s, READ + LIST + EXTEND, RELEASE, delay);
    PlayIsRun(s, READ + LIST + EXTEND + RELEASE, delay);
  }

  /** The protocol is safe exactly when heartbeats never lag behind the clock they read. */
  lemma SafeIffTimely(delay: nat)
    ensures (forall s, steps :: Claimed(s) ==> !Run(s, steps, delay).late) <==> delay == 0
  {
    if delay == 0 {
      forall s, steps | Claimed(s) ensures !Run(s, steps, delay).late {
        PromptIsPunctual(s, steps);
      }
    } else {
      var s := State(0, true, false, LEASE_SECONDS, map[], map[], map[], false);
      assert Claimed(s);
      LateHeartbeatReleases(s, delay);
    }
  }
}
