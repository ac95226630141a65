/** The tables of runs, jobs and slots, and the services that update them in place. */
module RunLedger {
  import opened Outcomes
  import opened RunSteps
  import opened RunInvariant

  class Ledger {
    var runs: map<Id, Run>
    var jobs: map<Id, Job>
    var queue: seq<Id>
    var conversation: Slot
    var execution: Slot
    var processes: seq<Process>
    var instance: Id

    function Tables(): Book
      reads this
    {
      Book(runs, jobs, queue, conversation, execution, processes, instance)
    }

    constructor (instance: Id)
      ensures Tables() == Book(map[], map[], [], Slot.Slot(None, 0, 0, None, false),
                               Slot.Slot(None, 0, 0, None, false), [], instance)
    {
      runs, jobs, queue, processes := map[], map[], [], [];
      conversation, execution := Slot.Slot(None, 0, 0, None, false), Slot.Slot(None, 0, 0, None, false);
      this.instance := instance;
    }

    method PutSlot(name: SlotName, slot: Slot)
      modifies this`conversation, this`execution
      ensures Tables() == old(Tables()).WithSlot(name, slot)
    {
      match name
      case CONVERSATION => conversation := slot;
      case EXECUTION => execution := slot;
    }

    /** The guarded status change of one run, with its event. */
    method TransitionRun(r: Id, to: Status, epoch: Option<nat>, reason: Option<Reason>) returns (result: Result<()>)
      modifies this`runs
      ensures Agrees(result, old(Tables()), Tables(), Transition(old(Tables()), r, to, epoch, reason))
    {
      if r !in runs {
        return Err(NOT_FOUND);
      }
      var run := runs[r];
      if epoch.Some? && run.epoch != epoch.value {
        return Err(STALE_WORKER);
      }
      if !Allowed(run.status, to) {
        return Err(INVALID_RUN_TRANSITION);
      }
      if Terminal(to) {
        var open := FindUnfinished(r, to == SUCCEEDED);
        if open {
          return Err(PROCESS_TERMINATION_UNCONFIRMED);
        }
      }
      var sequence := LastSequence(run.events) + 1;
      var kept := if reason.Some? then reason.value else run.reason;
      runs := runs[r := run.(status := to, version := run.version + 1, reason := kept,
                     events := run.events + [Event(sequence, Some(run.status), to)])];
      return Ok(());
    }

    method FindUnfinished(r: Id, withAbandoned: bool) returns (open: bool)
      ensures open == Unfinished(processes, r, withAbandoned)
    {
      open := false;
      var i := 0;
      while i < |processes|
        invariant 0 <= i <= |processes|
        invariant !Unfinished(processes[..i], r, withAbandoned)
      {
        var process := processes[i];
        if process.run == Some(r) && !process.ended && (withAbandoned || !process.abandoned) {
          return true;
        }
        i := i + 1;
      }
      assert processes[..i] == processes;
    }

    /** A new run with its job, unless this order was placed before. */
    method CreateRun(o: Order, r: Id, j: Id) returns (result: Result<()>)
      requires r !in runs && j !in jobs
      modifies this`runs, this`jobs, this`queue
      ensures Agrees(result, old(Tables()), Tables(), Create(old(Tables()), o, r, j))
    {
      if exists q | q in runs :: SameKey(Tables(), o, q) {
        var same := exists q | q in runs ::
            SameKey(Tables(), o, q) && runs[q].revision == o.revision && runs[q].previous == o.previous;
        return if same then Ok(()) else Err(IDEMPOTENCY_CONFLICT);
      }
      var primary := exists q | q in runs :: Primary(Tables(), o, q);
      if Active(Tables(), o.request) {
        return if primary && o.previous.None? then Ok(()) else Err(RUN_ACTIVE);
      }
      if o.previous.None? {
        if primary {
          return Ok(());
        }
        if !o.ready {
          return Err(REQUEST_NOT_CONFIRMED);
        }
      }
      runs := runs[r := Run(o.request, o.revision, o.previous, o.actor, o.project, o.key, QUEUED, 1, 0, NO_REASON,
                            [Event(1, None, QUEUED)])];
      jobs := jobs[j := Job(RUN_JOB, r, o.actor, o.project, EXECUTION, instance, WAITING, 0, 0, None, false)];
      queue := queue + [j];
      return Ok(());
    }

    method RetryRun(previous: Id, actor: Id, key: Id, r: Id, j: Id) returns (result: Result<()>)
      requires r !in runs && j !in jobs
      modifies this`runs, this`jobs, this`queue
      ensures Agrees(result, old(Tables()), Tables(), Retry(old(Tables()), previous, actor, key, r, j))
    {
      if previous !in runs {
        return Err(NOT_FOUND);
      }
      var earlier := runs[previous];
      if !Terminal(earlier.status) {
        return Err(RUN_ACTIVE);
      }
      var original := FirstRunJob(Tables(), queue, previous);
      if original.None? || original.value !in jobs || jobs[original.value].instance != instance {
        return Err(REQUEST_RECONFIRM_REQUIRED);
      }
      var o := Order(earlier.request, earlier.revision, actor, earlier.project, key, true, Some(previous));
      if exists q | q in runs :: SameKey(Tables(), o, q) {
        var same := exists q | q in runs :: SameKey(Tables(), o, q) && runs[q].previous == o.previous;
        return if same then Ok(()) else Err(IDEMPOTENCY_CONFLICT);
      }
      var open := FindUnfinished(previous, false);
      if open {
        return Err(PROCESS_TERMINATION_UNCONFIRMED);
      }
      result := CreateRun(o, r, j);
    }

    method CancelRun(r: Id) returns (result: Result<()>)
      requires Linked(Tables())
      modifies this`runs, this`jobs
      ensures Agrees(result, old(Tables()), Tables(), Cancel(old(Tables()), r))
    {
      if r !in runs {
        return Err(NOT_FOUND);
      }
      if Terminal(runs[r].status) {
        return Err(RUN_FINISHED);
      }
      ghost var theJob := TheJob(Tables(), r);
      assert JobFits(Tables(), theJob);
      if runs[r].status == QUEUED {
        var j := FirstRunJob(Tables(), queue, r);
        if j.Some? && j.value in jobs && jobs[j.value].state == WAITING {
          NoProcess(r);
          jobs := jobs[j.value := jobs[j.value].(state := DROPPED)];
          result := TransitionRun(r, CANCELLED, None, Some(USER_CANCELLED));
          return;
        }
      }
      if runs[r].status != CANCEL_REQUESTED {
        result := TransitionRun(r, CANCEL_REQUESTED, None, Some(USER_CANCELLED));
      } else {
        result := Ok(());
      }
    }

    /** A waiting run has no process. */
    lemma NoProcess(r: Id)
      requires Linked(Tables()) && r in runs && runs[r].status == QUEUED
      ensures !Unfinished(processes, r, false)
    {
      forall i | 0 <= i < |processes| ensures processes[i].run != Some(r) {
        assert ProcessFits(Tables(), i);
      }
    }

    /** The user's runs are cancelled one after the other, then the user's jobs. */
    method RevokeActorWork(user: Id, scope: Option<Id>)
      requires Linked(Tables())
      modifies this`runs, this`jobs
      ensures Tables() == Revoke(old(Tables()), user, scope)
    {
      var mine := set r | r in runs && runs[r].actor == user && Within(runs[r].project, scope);
      forall r | r in runs && runs[r].status == QUEUED ensures !Unfinished(processes, r, false) {
        NoProcess(r);
      }
      RevokeRuns(mine);
      jobs := map j | j in jobs ::
        if jobs[j].actor == user && Within(jobs[j].project, scope) then RevokedJob(jobs[j]) else jobs[j];
      assert runs == Revoke(old(Tables()), user, scope).runs;
    }

    method RevokeRun(r: Id)
      requires r in runs && (runs[r].status == QUEUED ==> !Unfinished(processes, r, false))
      modifies this`runs
      ensures runs == old(runs)[r := RevokedRun(old(runs)[r])]
    {
      if runs[r].status == QUEUED {
        var dropped := TransitionRun(r, CANCELLED, None, Some(ACCESS_REVOKED));
      } else if !Terminal(runs[r].status) && runs[r].status != CANCEL_REQUESTED {
        var stopped := TransitionRun(r, CANCEL_REQUESTED, None, Some(ACCESS_REVOKED));
      }
    }

    method RevokeRuns(mine: set<Id>)
      requires mine <= runs.Keys && forall r | r in runs && runs[r].status == QUEUED :: !Unfinished(processes, r, false)
      modifies this`runs
      ensures runs == RevokedRuns(old(runs), mine)
    {
      ghost var before := runs;
      var todo := mine;
      assert mine - todo == {};
      while todo != {}
        invariant todo <= mine && runs == RevokedRuns(before, mine - todo)
        decreases |todo|
      {
        var r :| r in todo;
        RevokedMore(before, mine - todo, r);
        assert mine - todo + {r} == mine - (todo - {r});
        RevokeRun(r);
        todo := todo - {r};
      }
      assert mine - todo == mine;
    }

    /** Claims the first waiting job of a free slot. */
    method ClaimJob(name: SlotName, owner: Id, now: nat) returns (claimed: Option<Id>)
      requires Linked(Tables())
      modifies this
      ensures Claim(old(Tables()), name, owner, now) == Ok((Tables(), claimed))
      ensures Linked(Tables())
    {
      ClaimKeeps(Tables(), name, owner, now);
      var slot := Tables().Slot(name);
      if slot.blocked || slot.job.Some? {
        return None;
      }
      claimed := FindNext(name);
      NextIsWaiting(Tables(), name, queue);
      if claimed.None? {
        return;
      }
      var j, epoch, expires := claimed.value, slot.epoch + 1, Some(now + LEASE_SECONDS);
      PutSlot(name, Slot.Slot(Some(j), owner, epoch, expires, false));
      jobs := jobs[j := jobs[j].(state := ACTIVE, owner := owner, epoch := epoch, expires := expires)];
      if jobs[j].kind == RUN_JOB {
        var r := jobs[j].subject;
        var begun := TransitionRun(r, PREPARING, None, None);
        runs := runs[r := runs[r].(epoch := epoch)];
      }
    }

    method FindNext(name: SlotName) returns (found: Option<Id>)
      ensures found == NextJob(Tables(), name, queue)
    {
      var i := 0;
      while i < |queue|
        invariant 0 <= i <= |queue|
        invariant NextJob(Tables(), name, queue[i..]) == NextJob(Tables(), name, queue)
      {
        if Waiting(Tables(), name, queue[i]) {
          return Some(queue[i]);
        }
        assert queue[i..][1..] == queue[i + 1..];
        i := i + 1;
      }
      return None;
    }

    method BeatJob(j: Id, owner: Id, epoch: nat, now: nat) returns (result: Result<()>)
      requires j in jobs
      modifies this`conversation, this`execution, this`jobs
      ensures Agrees(result, old(Tables()), Tables(), Heartbeat(old(Tables()), j, owner, epoch, now))
    {
      var slot := Tables().Slot(jobs[j].slot);
      if slot.job != Some(j) || slot.owner != owner || slot.epoch != epoch || slot.blocked || slot.expires.None?
        || slot.expires.value <= now {
        return Err(STALE_WORKER);
      }
      var expires := Some(now + LEASE_SECONDS);
      PutSlot(jobs[j].slot, slot.(expires := expires));
      if jobs[j].owner == owner && jobs[j].epoch == epoch {
        jobs := jobs[j := jobs[j].(expires := expires)];
      }
      return Ok(());
    }

    method ReleaseSlot(name: SlotName, j: Id, epoch: nat, owner: Option<Id>)
      modifies this`conversation, this`execution
      ensures Tables() == FreeSlot(old(Tables()), name, j, epoch, owner)
    {
      var slot := Tables().Slot(name);
      if slot.job == Some(j) && slot.epoch == epoch && (owner.None? || slot.owner == owner.value) {
        PutSlot(name, Slot.Slot(None, 0, slot.epoch, None, owner.Some? && slot.blocked));
      }
    }

    /** One slot of a recovery: the run is interrupted, the job fails, the slot is freed if it still holds the epoch. */
    method RecoverJob(j: Id, epoch: nat) returns (result: Result<()>)
      requires j in jobs
      modifies this
      ensures Agrees(result, old(Tables()), Tables(), Recover(old(Tables()), j, epoch))
    {
      var job := jobs[j];
      if job.kind == RUN_JOB && job.subject in runs && !Terminal(runs[job.subject].status) {
        result := TransitionRun(job.subject, INTERRUPTED, None, Some(OTHER_REASON));
        if result.Err? {
          return;
        }
      }
      jobs := jobs[j := job.(state := BROKEN)];
      ReleaseSlot(job.slot, j, epoch, None);
      return Ok(());
    }

    /** The end of a claimed job. */
    method FinaliseJob(j: Id, owner: Id, epoch: nat, failed: bool) returns (result: Result<()>)
      requires j in jobs
      modifies this
      ensures Agrees(result, old(Tables()), Tables(), Finalise(old(Tables()), j, owner, epoch, failed))
    {
      var job := jobs[j];
      var error := failed;
      if job.kind == RUN_JOB && job.subject in runs {
        var run := runs[job.subject];
        if !Terminal(run.status) {
          var to := FAILED;
          if run.status == CANCEL_REQUESTED && (run.reason == USER_CANCELLED || run.reason == ACCESS_REVOKED) {
            to := CANCELLED;
          }
          result := TransitionRun(job.subject, to, Some(epoch), None);
          if result.Err? {
            return;
          }
        }
        if run.status == FAILED {
          error := true;
        }
      }
      if job.epoch == epoch && job.state != DROPPED {
        jobs := jobs[j := job.(state := if job.cancel then DROPPED else if error then BROKEN else DONE)];
      }
      ReleaseSlot(job.slot, j, epoch, Some(owner));
      return Ok(());
    }
  }

  function RevokedRuns(runs: map<Id, Run>, done: set<Id>): map<Id, Run> {
    map r | r in runs :: if r in done then RevokedRun(runs[r]) else runs[r]
  }

  lemma RevokedMore(runs: map<Id, Run>, done: set<Id>, r: Id)
    requires r in runs && r !in done
    ensures RevokedRuns(runs, done)[r] == runs[r]
    ensures RevokedRuns(runs, done)[r := RevokedRun(runs[r])] == RevokedRuns(runs, done + {r})
    ensures RevokedRun(runs[r]) == runs[r] ==> RevokedRuns(runs, done) == RevokedRuns(runs, done + {r})
  {
  }
}
