/** What holds of runs, jobs and slots in every reachable state, and after a backup was restored. */
module RunTheorems {
  import opened Outcomes
  import opened RunSteps
  import opened RunInvariant

  // ---- ending a job never gets stuck ----

  /** The run of this job still has a process that was neither seen to end nor given up. */
  predicate Held(b: Book, j: Id)
    requires j in b.jobs
  {
    && b.jobs[j].kind == RUN_JOB && b.jobs[j].subject in b.runs && !Terminal(b.runs[b.jobs[j].subject].status)
    && Unfinished(b.processes, b.jobs[j].subject, false)
  }

  ghost predicate JobIsOver(b: Book, j: Id) {
    && j in b.jobs && Over(b.jobs[j]) && b.Slot(b.jobs[j].slot).job != Some(j)
    && (b.jobs[j].kind == RUN_JOB ==> b.jobs[j].subject in b.runs && Terminal(b.runs[b.jobs[j].subject].status))
  }

  /** The worker that holds the lease can always end its job, exactly unless a process of the run is open:
      the status it chooses is a legal move from every status its run can be in. */
  lemma FinaliseEnds(b: Book, j: Id, owner: Id, epoch: nat, failed: bool)
    requires Linked(b) && WasClaimed(b, j, owner, epoch)
    ensures b.jobs[j].state == ACTIVE ==> (Finalise(b, j, owner, epoch, failed).Ok? <==> !Held(b, j))
    ensures Finalise(b, j, owner, epoch, failed).Ok? ==>
              var e := Finalise(b, j, owner, epoch, failed).value;
              Linked(e) && Advances(b, e) && (b.jobs[j].state == ACTIVE ==> JobIsOver(e, j))
    ensures AllRecorded(b) && Finalise(b, j, owner, epoch, failed).Ok? ==>
            AllRecorded(Finalise(b, j, owner, epoch, failed).value)
  {
    assert JobFits(b, j);
    var job, result := b.jobs[j], Finalise(b, j, owner, epoch, failed);
    if job.kind == RUN_JOB && !Terminal(b.runs[job.subject].status) {
      var moved := Transition(b, job.subject, FinalStatus(b.runs[job.subject]), Some(epoch), None);
      if moved.Ok? {
        TransitionKeeps(b, job.subject, FinalStatus(b.runs[job.subject]), Some(epoch), None);
        EndedAfter(b, moved.value, result.value, j, epoch, Some(owner));
        if AllRecorded(b) {
          TransitionRecords(b, job.subject, FinalStatus(b.runs[job.subject]), Some(epoch), None);
          SameRuns(moved.value, result.value);
        }
      }
    } else {
      SameAdvances(b);
      EndedAfter(b, b, result.value, j, epoch, Some(owner));
      if AllRecorded(b) {
        SameRuns(b, result.value);
      }
    }
  }

  lemma SameRuns(d: Book, e: Book)
    requires AllRecorded(d) && e.runs == d.runs
    ensures AllRecorded(e)
  {
    forall r | r in e.runs ensures Recorded(e.runs[r]) {
      assert Recorded(d.runs[r]);
    }
  }

  /** First the run moves, then the job ends. */
  lemma EndedAfter(b: Book, m: Book, e: Book, j: Id, epoch: nat, owner: Option<Id>)
    requires Linked(m) && Advances(b, m) && j in b.jobs && m.jobs == b.jobs && b.jobs[j].state != WAITING
    requires b.jobs[j].kind == RUN_JOB && b.jobs[j].subject in m.runs ==> Terminal(m.runs[b.jobs[j].subject].status)
    requires b.jobs[j].state == ACTIVE ==> b.jobs[j].epoch == epoch && (owner.Some? ==> owner.value == b.jobs[j].owner)
    requires j in e.jobs && Over(e.jobs[j])
    requires e == FreeSlot(SetJob(m, j, m.jobs[j].(state := e.jobs[j].state)), m.jobs[j].slot, j, epoch, owner)
    ensures Linked(e) && Advances(b, e)
    ensures b.jobs[j].state == ACTIVE ==> JobIsOver(e, j)
  {
    EndKeeps(m, e, j, epoch, owner);
    assert JobFits(m, j) && JobFits(e, j);
    forall k ensures JobAdvances(b, e, k) {
      assert JobAdvances(b, m, k) && JobAdvances(m, e, k);
    }
    forall name ensures SlotAdvances(b, e, name) {
      assert SlotAdvances(b, m, name) && SlotAdvances(m, e, name);
    }
    AdvanceOn(b, m, e);
  }

  lemma RecoverEnds(b: Book, j: Id, owner: Id, epoch: nat)
    requires Linked(b) && WasClaimed(b, j, owner, epoch)
    ensures Recover(b, j, epoch).Ok? <==> !Held(b, j)
    ensures Recover(b, j, epoch).Ok? ==>
              var e := Recover(b, j, epoch).value;
              Linked(e) && Advances(b, e) && JobIsOver(e, j)
    ensures AllRecorded(b) && Recover(b, j, epoch).Ok? ==> AllRecorded(Recover(b, j, epoch).value)
  {
    assert JobFits(b, j);
    var job, result := b.jobs[j], Recover(b, j, epoch);
    if job.kind == RUN_JOB && !Terminal(b.runs[job.subject].status) {
      var moved := Transition(b, job.subject, INTERRUPTED, None, Some(OTHER_REASON));
      if moved.Ok? {
        TransitionKeeps(b, job.subject, INTERRUPTED, None, Some(OTHER_REASON));
        EndedAfter(b, moved.value, result.value, j, epoch, None);
        if AllRecorded(b) {
          TransitionRecords(b, job.subject, INTERRUPTED, None, Some(OTHER_REASON));
          SameRuns(moved.value, result.value);
        }
      }
    } else {
      SameAdvances(b);
      EndedAfter(b, b, result.value, j, epoch, None);
      if AllRecorded(b) {
        SameRuns(b, result.value);
      }
    }
  }

  // ---- restoring a backup ----

  /** Every job and every run of the restored data is over, and no slot is taken. */
  ghost predicate AllOver(b: Book) {
    && (forall j | j in b.jobs :: Over(b.jobs[j]))
    && (forall r | r in b.runs :: Terminal(b.runs[r].status))
    && (forall name :: b.Slot(name).job.None? && !b.Slot(name).blocked)
  }

  /** A restore re-establishes the invariant from every reachable book. */
  lemma RestoreKeeps(b: Book, instance: Id)
    requires Linked(b)
    ensures Linked(Restore(b, instance)) && AllOver(Restore(b, instance))
    ensures forall j :: JobAdvances(b, Restore(b, instance), j)
    ensures forall name :: SlotAdvances(b, Restore(b, instance), name)
  {
    var e := Restore(b, instance);
    forall j ensures JobFits(e, j) && EpochAlone(e, j) && JobAdvances(b, e, j) {
      assert JobFits(b, j) && EpochAlone(b, j);
    }
    forall name ensures SlotFits(e, name) && SlotAdvances(b, e, name) {
      assert SlotFits(b, name);
    }
    forall r ensures OneJob(e, r) && OneActive(e, r) {
      assert OneJob(b, r) && OneActive(b, r);
      forall k ensures IsRunJob(e, k, r) <==> IsRunJob(b, k, r) {
      }
    }
    forall i: nat ensures ProcessFits(e, i) {
      assert ProcessFits(b, i);
    }
  }

  // ---- every step ----

  lemma ProcessStepKeeps(b: Book, step: Step)
    requires Linked(b) && (step.ProcessStep? || step.ProcessEndStep? || step.BlockStep? || step.AbandonStep?)
    ensures Linked(Apply(b, step)) && Advances(b, Apply(b, step)) && Apply(b, step).runs == b.runs
  {
    var e := Apply(b, step);
    forall i: nat ensures ProcessFits(e, i) {
      assert ProcessFits(b, i);
      if step.ProcessStep? {
        assert JobFits(b, step.j);
      }
    }
    ProcessesKeep(b, e);
  }

  lemma ProgressKeeps(b: Book, j: Id, owner: Id, epoch: nat, to: Status, reason: Option<Reason>)
    requires Linked(b) && WasClaimed(b, j, owner, epoch) && b.jobs[j].kind == RUN_JOB
    requires Transition(b, b.jobs[j].subject, to, Some(epoch), reason).Ok?
    ensures Linked(Transition(b, b.jobs[j].subject, to, Some(epoch), reason).value)
    ensures Advances(b, Transition(b, b.jobs[j].subject, to, Some(epoch), reason).value)
  {
    assert JobFits(b, j);
    TransitionKeeps(b, b.jobs[j].subject, to, Some(epoch), reason);
  }

  lemma RequestStepKeeps(b: Book, step: Step)
    requires Linked(b) && (step.CreateStep? || step.RetryStep? || step.CancelStep? || step.RevokeStep?
                           || step.EnqueueStep?)
    ensures Linked(Apply(b, step)) && Advances(b, Apply(b, step))
    ensures AllRecorded(b) ==> AllRecorded(Apply(b, step))
  {
    if Apply(b, step) == b {
      SameAdvances(b);
    } else {
      match step
      case CreateStep(o, r, j) => CreateKeeps(b, o.(previous := None), r, j);
      case RetryStep(previous, actor, key, r, j) => RetryKeeps(b, previous, actor, key, r, j);
      case CancelStep(r) => CancelKeeps(b, r);
      case RevokeStep(user, scope) =>
        RevokeKeeps(b, user, scope);
        if AllRecorded(b) {
          RevokeRecords(b, user, scope);
        }
      case EnqueueStep(j, kind, subject, actor, project, slot) =>
        EnqueueKeeps(b, j, kind, subject, actor, project, slot);
        if AllRecorded(b) {
          SameRuns(b, Apply(b, step));
        }
    }
  }

  lemma WorkerStepKeeps(b: Book, step: Step)
    requires Linked(b)
    requires step.ClaimStep? || step.HeartbeatStep? || step.ProgressStep? || step.RecoverStep? || step.FinaliseStep?
    ensures Linked(Apply(b, step)) && Advances(b, Apply(b, step))
    ensures AllRecorded(b) ==> AllRecorded(Apply(b, step))
  {
    if Apply(b, step) == b {
      SameAdvances(b);
    } else {
      match step
      case ClaimStep(name, owner, now) => ClaimKeeps(b, name, owner, now);
      case HeartbeatStep(j, owner, epoch, now) =>
        HeartbeatKeeps(b, j, owner, epoch, now);
        if AllRecorded(b) {
          SameRuns(b, Apply(b, step));
        }
      case ProgressStep(j, owner, epoch, to, reason) =>
        ProgressKeeps(b, j, owner, epoch, to, reason);
        if AllRecorded(b) {
          TransitionRecords(b, b.jobs[j].subject, to, Some(epoch), reason);
        }
      case RecoverStep(j, owner, epoch) => RecoverEnds(b, j, owner, epoch);
      case FinaliseStep(j, owner, epoch, failed) => FinaliseEnds(b, j, owner, epoch, failed);
    }
  }

  lemma ApplyKeeps(b: Book, step: Step)
    requires Linked(b)
    ensures Linked(Apply(b, step))
    ensures forall j :: JobAdvances(b, Apply(b, step), j)
    ensures forall name :: SlotAdvances(b, Apply(b, step), name)
    ensures !step.RestoreStep? ==> Advances(b, Apply(b, step))
    ensures !step.RestoreStep? && AllRecorded(b) ==> AllRecorded(Apply(b, step))
  {
    if step.RestoreStep? {
      RestoreKeeps(b, step.instance);
    } else {
      if step.ProcessStep? || step.ProcessEndStep? || step.BlockStep? || step.AbandonStep? {
        ProcessStepKeeps(b, step);
        if AllRecorded(b) {
          SameRuns(b, Apply(b, step));
        }
      } else if step.CreateStep? || step.RetryStep? || step.CancelStep? || step.RevokeStep? || step.EnqueueStep? {
        RequestStepKeeps(b, step);
      } else {
        WorkerStepKeeps(b, step);
      }
      forall j ensures JobAdvances(b, Apply(b, step), j) {
      }
      forall name ensures SlotAdvances(b, Apply(b, step), name) {
      }
    }
  }

  lemma EmptyLinked(b: Book)
    requires Empty(b)
    ensures Linked(b) && AllRecorded(b)
  {
    forall name ensures SlotFits(b, name) {
    }
  }

  /** In every reachable book slots and jobs agree, runs follow their jobs, and a request has at most one run in
      progress. */
  lemma {:induction false} PlayKeeps(b: Book, steps: seq<Step>)
    requires Linked(b)
    ensures Linked(Play(b, steps))
  {
    if steps != [] {
      PlayKeeps(b, steps[..|steps| - 1]);
      ApplyKeeps(Play(b, steps[..|steps| - 1]), steps[|steps| - 1]);
    }
  }

  lemma ReachableLinked(start: Book, steps: seq<Step>)
    requires Empty(start)
    ensures Linked(Play(start, steps))
  {
    EmptyLinked(start);
    PlayKeeps(start, steps);
  }

  predicate NeverRestored(steps: seq<Step>) {
    forall i | 0 <= i < |steps| :: !steps[i].RestoreStep?
  }

  /** Without a restore the event log of every run is its exact history; it has at most six entries. */
  lemma {:induction false} HistoryIsExact(start: Book, steps: seq<Step>)
    requires Empty(start) && NeverRestored(steps)
    ensures Linked(Play(start, steps)) && AllRecorded(Play(start, steps))
    ensures forall r | r in Play(start, steps).runs :: Play(start, steps).runs[r].version <= 6
  {
    if steps == [] {
      EmptyLinked(start);
    } else {
      var before := steps[..|steps| - 1];
      HistoryIsExact(start, before);
      ApplyKeeps(Play(start, before), steps[|steps| - 1]);
    }
    forall r | r in Play(start, steps).runs ensures Play(start, steps).runs[r].version <= 6 {
      Bounded(Play(start, steps).runs[r]);
    }
  }

  /** How far a status is from the start; every legal move goes further. */
  function Rank(s: Status): nat {
    match s
    case QUEUED => 0
    case PREPARING => 1
    case RUNNING => 2
    case VERIFYING => 3
    case CANCEL_REQUESTED => 4
    case _ => 5
  }

  lemma {:induction false} RankBounds(run: Run, i: nat)
    requires Recorded(run) && i < |run.events|
    ensures i <= Rank(run.events[i].to)
  {
    if i > 0 {
      RankBounds(run, i - 1);
    }
  }

  lemma Bounded(run: Run)
    requires Recorded(run)
    ensures run.version <= Rank(run.status) + 1 <= 6
  {
    RankBounds(run, |run.events| - 1);
  }

  /** A run that ended stays as it ended, and its log only grows until then. */
  lemma {:induction false} EndIsFinal(b: Book, steps: seq<Step>, r: Id)
    requires Linked(b) && NeverRestored(steps)
    ensures RunAdvances(b, Play(b, steps), r)
  {
    if steps != [] {
      var before := steps[..|steps| - 1];
      EndIsFinal(b, before, r);
      PlayKeeps(b, before);
      ApplyKeeps(Play(b, before), steps[|steps| - 1]);
      assert RunAdvances(Play(b, before), Play(b, steps), r);
    }
  }

  /** A job that is over is never waiting and never runs again, whatever happens, restores included. */
  lemma {:induction false} OverIsFinal(b: Book, steps: seq<Step>, j: Id)
    requires Linked(b) && j in b.jobs && Over(b.jobs[j])
    ensures j in Play(b, steps).jobs && Over(Play(b, steps).jobs[j])
    ensures Play(b, steps).jobs[j].instance == b.jobs[j].instance
    ensures Play(b, steps).jobs[j].kind == b.jobs[j].kind && Play(b, steps).jobs[j].subject == b.jobs[j].subject
  {
    if steps != [] {
      var before := steps[..|steps| - 1];
      OverIsFinal(b, before, j);
      PlayKeeps(b, before);
      ApplyKeeps(Play(b, before), steps[|steps| - 1]);
      assert JobAdvances(Play(b, before), Play(b, steps), j);
    }
  }

  /** Slot epochs never go back, and each new holder of a slot has a greater one. */
  lemma {:induction false} EpochsGrow(b: Book, steps: seq<Step>, name: SlotName)
    requires Linked(b)
    ensures b.Slot(name).epoch <= Play(b, steps).Slot(name).epoch
    ensures Play(b, steps).Slot(name).job.Some? && Play(b, steps).Slot(name).job != b.Slot(name).job ==>
              b.Slot(name).epoch < Play(b, steps).Slot(name).epoch
  {
    if steps != [] {
      var before := steps[..|steps| - 1];
      EpochsGrow(b, before, name);
      PlayKeeps(b, before);
      ApplyKeeps(Play(b, before), steps[|steps| - 1]);
      assert SlotAdvances(Play(b, before), Play(b, steps), name);
    }
  }

  // ---- the cut made by a restore ----

  predicate OtherInstances(steps: seq<Step>, former: Id) {
    forall i | 0 <= i < |steps| :: steps[i].RestoreStep? ==> steps[i].instance != former
  }

  lemma {:induction false} InstanceStaysOther(b: Book, steps: seq<Step>, former: Id)
    requires b.instance != former && OtherInstances(steps, former)
    ensures Play(b, steps).instance != former
  {
    if steps != [] {
      var before, step := steps[..|steps| - 1], steps[|steps| - 1];
      InstanceStaysOther(b, before, former);
      InstanceStep(Play(b, before), step);
    }
  }

  lemma InstanceStep(b: Book, step: Step)
    ensures Apply(b, step).instance == if step.RestoreStep? then step.instance else b.instance
  {
  }

  /** The restored data gets an instance that none of its jobs ever had, and that later restores give up again. */
  predicate NewInstance(b: Book, instance: Id, steps: seq<Step>) {
    forall j | j in b.jobs :: b.jobs[j].instance != instance && OtherInstances(steps, b.jobs[j].instance)
  }

  /** After a restore to a new instance, in every later state: no job of before waits or runs, of whatever kind, and no
      run of before can be retried. */
  lemma RestoreCuts(b: Book, instance: Id, steps: seq<Step>, j: Id, previous: Id, actor: Id, key: Id, r: Id, k: Id)
    requires Linked(b) && NewInstance(b, instance, steps)
    requires var e := Play(Restore(b, instance), steps); r !in e.runs && k !in e.jobs
    ensures var e := Play(Restore(b, instance), steps); j in b.jobs ==> j in e.jobs && Over(e.jobs[j])
    ensures var e := Play(Restore(b, instance), steps);
            previous in b.runs && previous in e.runs && Terminal(e.runs[previous].status) ==>
              Retry(e, previous, actor, key, r, k) == Err(REQUEST_RECONFIRM_REQUIRED)
  {
    RestoreKeeps(b, instance);
    if j in b.jobs {
      OverIsFinal(Restore(b, instance), steps, j);
    }
    if previous in b.runs && previous in Play(Restore(b, instance), steps).runs {
      RetryIsRefused(b, instance, steps, previous, actor, key, r, k);
    }
  }

  lemma RetryIsRefused(b: Book, instance: Id, steps: seq<Step>, previous: Id, actor: Id, key: Id, r: Id, k: Id)
    requires Linked(b) && NewInstance(b, instance, steps) && previous in b.runs
             && previous in Play(Restore(b, instance), steps).runs
    requires var e := Play(Restore(b, instance), steps); r !in e.runs && k !in e.jobs
    ensures var e := Play(Restore(b, instance), steps);
            Terminal(e.runs[previous].status) ==>
              Retry(e, previous, actor, key, r, k) == Err(REQUEST_RECONFIRM_REQUIRED)
  {
    var d := Restore(b, instance);
    var j := TheJob(b, previous);
    RestoreKeeps(b, instance);
    OverIsFinal(d, steps, j);
    PlayKeeps(d, steps);
    InstanceStaysOther(d, steps, b.jobs[j].instance);
    var first := TheJob(Play(d, steps), previous);
    assert OneJob(Play(d, steps), previous) && IsRunJob(Play(d, steps), j, previous);
  }
}
