/** What every transaction keeps: slots and jobs agree, runs follow jobs, a log is the history of its run. */
module RunInvariant {
  import opened Outcomes
  import opened RunSteps

  // ---- the invariant ----

  predicate IsRunJob(b: Book, j: Id, r: Id) {
    j in b.jobs && b.jobs[j].kind == RUN_JOB && b.jobs[j].subject == r
  }

  predicate Over(job: Job) {
    job.state in {DONE, BROKEN, DROPPED}
  }

  /** A run waits exactly while its job does, and is over when its job is. */
  predicate Coupled(b: Book, job: Job) {
    job.kind == RUN_JOB ==>
      && job.subject in b.runs && job.slot == EXECUTION
      && b.runs[job.subject].actor == job.actor && b.runs[job.subject].project == job.project
      && (job.state == WAITING <==> b.runs[job.subject].status == QUEUED)
      && (Over(job) ==> Terminal(b.runs[job.subject].status))
      && (job.state == ACTIVE ==> b.runs[job.subject].epoch == job.epoch)
  }

  /** A job is ACTIVE exactly if its slot names it, and then both hold the same lease. */
  predicate JobFits(b: Book, j: Id) {
    j in b.jobs ==>
      var job, slot := b.jobs[j], b.Slot(b.jobs[j].slot);
      && j in b.queue && job.epoch <= slot.epoch
      && (job.state == ACTIVE <==> slot.job == Some(j))
      && (job.state == ACTIVE ==> job.epoch >= 1 && slot.owner == job.owner && slot.epoch == job.epoch
                                  && slot.expires == job.expires && job.expires.Some?)
      && (job.state == WAITING ==> job.epoch == 0)
      && Coupled(b, job)
  }

  /** No two jobs of a slot were claimed at the same epoch. */
  ghost predicate EpochAlone(b: Book, j: Id) {
    j in b.jobs && b.jobs[j].epoch >= 1 ==>
      forall k | k in b.jobs && k != j && b.jobs[k].slot == b.jobs[j].slot :: b.jobs[k].epoch != b.jobs[j].epoch
  }

  predicate SlotFits(b: Book, name: SlotName) {
    b.Slot(name).job.Some? ==> b.Slot(name).job.value in b.jobs && b.jobs[b.Slot(name).job.value].slot == name
  }

  ghost predicate OneJob(b: Book, r: Id) {
    && (r in b.runs ==> exists j :: IsRunJob(b, j, r))
    && (forall j, k | IsRunJob(b, j, r) && IsRunJob(b, k, r) :: j == k)
    && (r in b.runs && b.runs[r].status == QUEUED ==> b.runs[r].epoch == 0)
  }

  /** No other run of the same request is in progress. */
  ghost predicate OneActive(b: Book, r: Id) {
    r in b.runs && !Terminal(b.runs[r].status) ==>
      forall q | q in b.runs && q != r && b.runs[q].request == b.runs[r].request :: Terminal(b.runs[q].status)
  }

  predicate ProcessFits(b: Book, i: nat) {
    i < |b.processes| && b.processes[i].run.Some? ==>
      b.processes[i].run.value in b.runs && b.runs[b.processes[i].run.value].status != QUEUED
  }

  ghost predicate Linked(b: Book) {
    && (forall j {:trigger JobFits(b, j)} :: JobFits(b, j))
    && (forall j {:trigger EpochAlone(b, j)} :: EpochAlone(b, j))
    && (forall name {:trigger SlotFits(b, name)} :: SlotFits(b, name))
    && (forall r {:trigger OneJob(b, r)} :: OneJob(b, r))
    && (forall r {:trigger OneActive(b, r)} :: OneActive(b, r))
    && (forall i: nat {:trigger ProcessFits(b, i)} :: ProcessFits(b, i))
  }

  /** The log of a run: numbered without a gap, each entry a legal move from the one before, the last one now. */
  ghost predicate Recorded(run: Run) {
    var e := run.events;
    && |e| == run.version && run.version >= 1
    && (forall i | 0 <= i < |e| :: e[i].sequence == i + 1)
    && e[0].from.None? && e[0].to == QUEUED
    && (forall i | 1 <= i < |e| :: e[i].from == Some(e[i - 1].to) && Allowed(e[i - 1].to, e[i].to))
    && e[|e| - 1].to == run.status
  }

  ghost predicate AllRecorded(b: Book) {
    forall r {:trigger Recorded(b.runs[r])} | r in b.runs :: Recorded(b.runs[r])
  }

  // ---- what never comes back ----

  predicate JobAdvances(d: Book, e: Book, j: Id) {
    j in d.jobs ==>
      && j in e.jobs
      && e.jobs[j].kind == d.jobs[j].kind && e.jobs[j].subject == d.jobs[j].subject
         && e.jobs[j].instance == d.jobs[j].instance
      && (e.jobs[j].state == WAITING ==> d.jobs[j].state == WAITING)
      && (e.jobs[j].state == ACTIVE ==> d.jobs[j].state in {WAITING, ACTIVE})
      && (d.jobs[j].state == ACTIVE && e.jobs[j].state == ACTIVE ==> e.jobs[j].epoch == d.jobs[j].epoch)
  }

  predicate SlotAdvances(d: Book, e: Book, name: SlotName) {
    && d.Slot(name).epoch <= e.Slot(name).epoch
    && (e.Slot(name).job.Some? && e.Slot(name).job != d.Slot(name).job ==> d.Slot(name).epoch < e.Slot(name).epoch)
  }

  predicate RunAdvances(d: Book, e: Book, r: Id) {
    r in d.runs ==>
      && r in e.runs && d.runs[r].events <= e.runs[r].events
      && (Terminal(d.runs[r].status) ==> e.runs[r] == d.runs[r])
  }

  ghost predicate Advances(d: Book, e: Book) {
    && (forall j {:trigger JobAdvances(d, e, j)} :: JobAdvances(d, e, j))
    && (forall name {:trigger SlotAdvances(d, e, name)} :: SlotAdvances(d, e, name))
    && (forall r {:trigger RunAdvances(d, e, r)} :: RunAdvances(d, e, r))
    && d.queue <= e.queue
  }

  // ---- one run moves ----

  lemma MovedIsRecorded(run: Run, to: Status, reason: Option<Reason>)
    requires Recorded(run) && Allowed(run.status, to)
    ensures Recorded(Moved(run, to, reason))
  {
  }

  /** The run of a job that is past waiting moves on; nothing else changes. */
  lemma RunMoves(b: Book, r: Id, run: Run)
    requires Linked(b) && r in b.runs && b.runs[r].status != QUEUED && run.status != QUEUED
    requires run.request == b.runs[r].request && run.actor == b.runs[r].actor && run.project == b.runs[r].project
    requires run.epoch == b.runs[r].epoch && !Terminal(b.runs[r].status)
    ensures Linked(b.(runs := b.runs[r := run]))
  {
    var e := b.(runs := b.runs[r := run]);
    forall j ensures JobFits(e, j) && EpochAlone(e, j) {
      assert JobFits(b, j) && EpochAlone(b, j);
    }
    forall name ensures SlotFits(e, name) {
      assert SlotFits(b, name);
    }
    forall q ensures OneJob(e, q) && OneActive(e, q) {
      assert OneJob(b, q) && OneActive(b, q) && OneActive(b, r);
      forall j ensures IsRunJob(e, j, q) <==> IsRunJob(b, j, q) {
      }
    }
    forall i: nat ensures ProcessFits(e, i) {
      assert ProcessFits(b, i);
    }
  }

  lemma MoveAdvances(b: Book, r: Id, to: Status, reason: Option<Reason>)
    requires r in b.runs && Allowed(b.runs[r].status, to)
    ensures Advances(b, b.(runs := b.runs[r := Moved(b.runs[r], to, reason)]))
  {
    var e := b.(runs := b.runs[r := Moved(b.runs[r], to, reason)]);
    forall j ensures JobAdvances(b, e, j) {
    }
    forall name ensures SlotAdvances(b, e, name) {
    }
    forall q ensures RunAdvances(b, e, q) {
    }
  }

  lemma TransitionKeeps(b: Book, r: Id, to: Status, epoch: Option<nat>, reason: Option<Reason>)
    requires Linked(b) && Transition(b, r, to, epoch, reason).Ok? && b.runs[r].status != QUEUED
    ensures Linked(Transition(b, r, to, epoch, reason).value) && Advances(b, Transition(b, r, to, epoch, reason).value)
  {
    RunMoves(b, r, Moved(b.runs[r], to, reason));
    MoveAdvances(b, r, to, reason);
  }

  lemma TransitionRecords(b: Book, r: Id, to: Status, epoch: Option<nat>, reason: Option<Reason>)
    requires AllRecorded(b) && Transition(b, r, to, epoch, reason).Ok?
    ensures AllRecorded(Transition(b, r, to, epoch, reason).value)
  {
    var e := Transition(b, r, to, epoch, reason).value;
    MovedIsRecorded(b.runs[r], to, reason);
    forall q | q in e.runs ensures Recorded(e.runs[q]) {
      if q != r {
        assert Recorded(b.runs[q]);
      }
    }
  }

  // ---- requests ----

  /** The first run job found in the queue is the job of that run. */
  lemma {:induction false} FirstIsTheJob(b: Book, queue: seq<Id>, j: Id, r: Id)
    requires IsRunJob(b, j, r) && j in queue && forall k | IsRunJob(b, k, r) :: k == j
    ensures FirstRunJob(b, queue, r) == Some(j)
  {
    if queue[0] != j {
      assert !IsRunJob(b, queue[0], r);
      FirstIsTheJob(b, queue[1..], j, r);
    }
  }

  lemma TheJob(b: Book, r: Id) returns (j: Id)
    requires Linked(b) && r in b.runs
    ensures IsRunJob(b, j, r) && FirstRunJob(b, b.queue, r) == Some(j)
  {
    assert OneJob(b, r);
    j :| IsRunJob(b, j, r);
    assert JobFits(b, j);
    FirstIsTheJob(b, b.queue, j, r);
  }

  /** A new run arrives together with its waiting job. */
  lemma NewRun(b: Book, r: Id, run: Run, j: Id, job: Job)
    requires Linked(b) && r !in b.runs && j !in b.jobs && run.status == QUEUED && run.epoch == 0
    requires job.kind == RUN_JOB && job.subject == r && job.slot == EXECUTION && job.state == WAITING && job.epoch == 0
    requires job.actor == run.actor && job.project == run.project && !Active(b, run.request)
    ensures var e := b.(runs := b.runs[r := run], jobs := b.jobs[j := job], queue := b.queue + [j]);
            Linked(e) && Advances(b, e)
  {
    var e := b.(runs := b.runs[r := run], jobs := b.jobs[j := job], queue := b.queue + [j]);
    forall k ensures JobFits(e, k) && EpochAlone(e, k) && JobAdvances(b, e, k) {
      assert JobFits(b, k) && EpochAlone(b, k);
      assert SlotFits(b, EXECUTION);
    }
    forall name ensures SlotFits(e, name) && SlotAdvances(b, e, name) {
      assert SlotFits(b, name);
    }
    forall q ensures OneJob(e, q) && OneActive(e, q) && RunAdvances(b, e, q) {
      assert OneJob(b, q) && OneActive(b, q);
      NewRunJob(b, r, run, j, job, q);
    }
    forall i: nat ensures ProcessFits(e, i) {
      assert ProcessFits(b, i);
    }
  }

  lemma NewRunJob(b: Book, r: Id, run: Run, j: Id, job: Job, q: Id)
    requires OneJob(b, q) && r !in b.runs && j !in b.jobs && run.epoch == 0 && job.kind == RUN_JOB && job.subject == r
    requires forall k :: JobFits(b, k)
    ensures OneJob(b.(runs := b.runs[r := run], jobs := b.jobs[j := job], queue := b.queue + [j]), q)
  {
    var e := b.(runs := b.runs[r := run], jobs := b.jobs[j := job], queue := b.queue + [j]);
    forall k ensures IsRunJob(e, k, q) <==> (IsRunJob(b, k, q) || (k == j && q == r)) {
    }
    if q == r {
      assert IsRunJob(e, j, r);
      forall k ensures !IsRunJob(b, k, r) {
        assert JobFits(b, k);
      }
    } else if q in b.runs {
      var k :| IsRunJob(b, k, q);
      assert IsRunJob(e, k, q);
    }
  }

  lemma SameAdvances(b: Book)
    ensures Advances(b, b)
  {
    forall j ensures JobAdvances(b, b, j) {
    }
    forall name ensures SlotAdvances(b, b, name) {
    }
    forall r ensures RunAdvances(b, b, r) {
    }
  }

  lemma CreateKeeps(b: Book, o: Order, r: Id, j: Id)
    requires Linked(b) && r !in b.runs && j !in b.jobs && Create(b, o, r, j).Ok?
    ensures Linked(Create(b, o, r, j).value) && Advances(b, Create(b, o, r, j).value)
    ensures AllRecorded(b) ==> AllRecorded(Create(b, o, r, j).value)
  {
    var e := Create(b, o, r, j).value;
    if e == b {
      SameAdvances(b);
    } else {
      NewRun(b, r, e.runs[r], j, e.jobs[j]);
      if AllRecorded(b) {
        forall q | q in e.runs ensures Recorded(e.runs[q]) {
          if q != r {
            assert Recorded(b.runs[q]);
          }
        }
      }
    }
  }

  /** A waiting run and its job end together. */
  lemma Dropped(b: Book, r: Id, j: Id, run: Run)
    requires Linked(b) && r in b.runs && IsRunJob(b, j, r) && b.jobs[j].state == WAITING && Terminal(run.status)
    requires run.request == b.runs[r].request && run.actor == b.runs[r].actor && run.project == b.runs[r].project
    ensures Linked(SetJob(b, j, b.jobs[j].(state := DROPPED)).(runs := b.runs[r := run]))
  {
    var e := SetJob(b, j, b.jobs[j].(state := DROPPED)).(runs := b.runs[r := run]);
    assert OneJob(b, r);
    forall k ensures JobFits(e, k) && EpochAlone(e, k) {
      assert JobFits(b, k) && EpochAlone(b, k);
      assert IsRunJob(b, k, r) ==> k == j;
    }
    forall name ensures SlotFits(e, name) {
      assert SlotFits(b, name);
    }
    forall q ensures OneJob(e, q) && OneActive(e, q) {
      assert OneJob(b, q) && OneActive(b, q);
      forall k ensures IsRunJob(e, k, q) <==> IsRunJob(b, k, q) {
      }
    }
    forall i: nat ensures ProcessFits(e, i) {
      assert ProcessFits(b, i);
    }
  }

  lemma CancelKeeps(b: Book, r: Id)
    requires Linked(b) && Cancel(b, r).Ok?
    ensures Linked(Cancel(b, r).value) && Advances(b, Cancel(b, r).value)
    ensures AllRecorded(b) ==> AllRecorded(Cancel(b, r).value)
  {
    var j := TheJob(b, r);
    assert JobFits(b, j);
    var e := Cancel(b, r).value;
    if b.runs[r].status == QUEUED {
      var dropped := SetJob(b, j, b.jobs[j].(state := DROPPED));
      Dropped(b, r, j, Moved(b.runs[r], CANCELLED, Some(USER_CANCELLED)));
      DropAdvances(b, e, r, j);
      if AllRecorded(b) {
        TransitionRecords(dropped, r, CANCELLED, None, Some(USER_CANCELLED));
      }
    } else if b.runs[r].status != CANCEL_REQUESTED {
      TransitionKeeps(b, r, CANCEL_REQUESTED, None, Some(USER_CANCELLED));
      if AllRecorded(b) {
        TransitionRecords(b, r, CANCEL_REQUESTED, None, Some(USER_CANCELLED));
      }
    } else {
      SameAdvances(b);
    }
  }

  lemma DropAdvances(b: Book, e: Book, r: Id, j: Id)
    requires r in b.runs && j in b.jobs && b.jobs[j].state == WAITING && b.runs[r].status == QUEUED
    requires e == SetJob(b, j, b.jobs[j].(state := DROPPED)).(runs :=
                                                              b.runs[r := Moved(b.runs[r], CANCELLED,
                                                                  Some(USER_CANCELLED))])
    ensures Advances(b, e)
  {
    forall k ensures JobAdvances(b, e, k) {
    }
    forall name ensures SlotAdvances(b, e, name) {
    }
    forall q ensures RunAdvances(b, e, q) {
    }
  }

  lemma RevokeJobs(b: Book, user: Id, scope: Option<Id>)
    requires Linked(b)
    ensures var e := Revoke(b, user, scope);
            forall j :: JobFits(e, j) && EpochAlone(e, j) && JobAdvances(b, e, j)
  {
    var e := Revoke(b, user, scope);
    forall j ensures JobFits(e, j) && EpochAlone(e, j) && JobAdvances(b, e, j) {
      assert JobFits(b, j) && EpochAlone(b, j);
    }
  }

  lemma RevokeRuns(b: Book, user: Id, scope: Option<Id>)
    requires Linked(b)
    ensures var e := Revoke(b, user, scope);
            forall r :: OneJob(e, r) && OneActive(e, r) && RunAdvances(b, e, r)
  {
    var e := Revoke(b, user, scope);
    forall r ensures OneJob(e, r) && OneActive(e, r) && RunAdvances(b, e, r) {
      assert OneJob(b, r) && OneActive(b, r);
      forall k ensures IsRunJob(e, k, r) <==> IsRunJob(b, k, r) {
      }
    }
  }

  lemma RevokeKeeps(b: Book, user: Id, scope: Option<Id>)
    requires Linked(b)
    ensures Linked(Revoke(b, user, scope)) && Advances(b, Revoke(b, user, scope))
  {
    var e := Revoke(b, user, scope);
    RevokeJobs(b, user, scope);
    RevokeRuns(b, user, scope);
    forall name ensures SlotFits(e, name) && SlotAdvances(b, e, name) {
      assert SlotFits(b, name);
    }
    forall i: nat ensures ProcessFits(e, i) {
      assert ProcessFits(b, i);
    }
  }

  lemma RevokeRecords(b: Book, user: Id, scope: Option<Id>)
    requires AllRecorded(b)
    ensures AllRecorded(Revoke(b, user, scope))
  {
    var e := Revoke(b, user, scope);
    forall r | r in e.runs ensures Recorded(e.runs[r]) {
      assert Recorded(b.runs[r]);
      var run := b.runs[r];
      if run.status == QUEUED {
        MovedIsRecorded(run, CANCELLED, Some(ACCESS_REVOKED));
      } else if !Terminal(run.status) && run.status != CANCEL_REQUESTED {
        MovedIsRecorded(run, CANCEL_REQUESTED, Some(ACCESS_REVOKED));
      }
    }
  }

  lemma RetryKeeps(b: Book, previous: Id, actor: Id, key: Id, r: Id, j: Id)
    requires Linked(b) && r !in b.runs && j !in b.jobs && Retry(b, previous, actor, key, r, j).Ok?
    ensures Linked(Retry(b, previous, actor, key, r, j).value)
            && Advances(b, Retry(b, previous, actor, key, r, j).value)
    ensures AllRecorded(b) ==> AllRecorded(Retry(b, previous, actor, key, r, j).value)
  {
    var e := Retry(b, previous, actor, key, r, j).value;
    if e == b {
      SameAdvances(b);
    } else {
      var earlier := b.runs[previous];
      CreateKeeps(b, Order(earlier.request, earlier.revision, actor, earlier.project, key, true, Some(previous)), r, j);
    }
  }

  lemma EnqueueKeeps(b: Book, j: Id, kind: JobKind, subject: Id, actor: Id, project: Id, slot: SlotName)
    requires Linked(b) && j !in b.jobs && kind != RUN_JOB
    ensures Linked(Enqueue(b, j, kind, subject, actor, project, slot))
            && Advances(b, Enqueue(b, j, kind, subject, actor, project, slot))
  {
    var e := Enqueue(b, j, kind, subject, actor, project, slot);
    forall k ensures JobFits(e, k) && EpochAlone(e, k) && JobAdvances(b, e, k) {
      assert JobFits(b, k) && EpochAlone(b, k);
      assert SlotFits(b, slot);
    }
    forall name ensures SlotFits(e, name) && SlotAdvances(b, e, name) {
      assert SlotFits(b, name);
    }
    forall q ensures OneJob(e, q) && OneActive(e, q) && RunAdvances(b, e, q) {
      assert OneJob(b, q) && OneActive(b, q);
      forall k ensures IsRunJob(e, k, q) <==> IsRunJob(b, k, q) {
      }
    }
    forall i: nat ensures ProcessFits(e, i) {
      assert ProcessFits(b, i);
    }
  }

  // ---- the worker ----

  lemma {:induction false} NextIsWaiting(b: Book, name: SlotName, queue: seq<Id>)
    ensures NextJob(b, name, queue).Some? ==> Waiting(b, name, NextJob(b, name, queue).value)
  {
    if queue != [] && !Waiting(b, name, queue[0]) {
      NextIsWaiting(b, name, queue[1..]);
    }
  }

  /** A waiting job takes a free slot at the next epoch. */
  function Taken(b: Book, name: SlotName, j: Id, owner: Id, now: nat): Book
    requires j in b.jobs
  {
    var epoch, expires := b.Slot(name).epoch + 1, Some(now + LEASE_SECONDS);
    SetJob(b.WithSlot(name, Slot.Slot(Some(j), owner, epoch, expires, false)), j,
           b.jobs[j].(state := ACTIVE, owner := owner, epoch := epoch, expires := expires))
  }

  /** The run of a taken job starts with it. */
  function Begun(b: Book, name: SlotName, j: Id, owner: Id, now: nat): Book
    requires j in b.jobs && b.jobs[j].subject in b.runs
  {
    var r := b.jobs[j].subject;
    Taken(b, name, j, owner,
          now).(runs := b.runs[r := Moved(b.runs[r], PREPARING, None).(epoch := b.Slot(name).epoch + 1)])
  }

  lemma TakenJobs(b: Book, name: SlotName, j: Id, owner: Id, now: nat)
    requires Linked(b) && Waiting(b, name, j) && b.Slot(name).job.None? && b.jobs[j].kind != RUN_JOB
    ensures var e := Taken(b, name, j, owner, now); Linked(e) && Advances(b, e)
  {
    var e := Taken(b, name, j, owner, now);
    forall k ensures JobFits(e, k) && EpochAlone(e, k) && JobAdvances(b, e, k) {
      assert JobFits(b, k) && EpochAlone(b, k);
      forall m | m in b.jobs ensures b.jobs[m].epoch <= b.Slot(b.jobs[m].slot).epoch {
        assert JobFits(b, m);
      }
    }
    forall n ensures SlotFits(e, n) && SlotAdvances(b, e, n) {
      assert SlotFits(b, n);
    }
    forall q ensures OneJob(e, q) && OneActive(e, q) && RunAdvances(b, e, q) {
      assert OneJob(b, q) && OneActive(b, q);
      forall k ensures IsRunJob(e, k, q) <==> IsRunJob(b, k, q) {
      }
    }
    forall i: nat ensures ProcessFits(e, i) {
      assert ProcessFits(b, i);
    }
  }

  lemma BegunJobs(b: Book, name: SlotName, j: Id, owner: Id, now: nat)
    requires Linked(b) && Waiting(b, name, j) && b.Slot(name).job.None? && b.jobs[j].kind == RUN_JOB
    requires b.jobs[j].subject in b.runs
    ensures var e := Begun(b, name, j, owner, now);
            forall k :: JobFits(e, k) && EpochAlone(e, k) && JobAdvances(b, e, k)
  {
    var e, r := Begun(b, name, j, owner, now), b.jobs[j].subject;
    assert OneJob(b, r);
    forall k ensures JobFits(e, k) && EpochAlone(e, k) && JobAdvances(b, e, k) {
      assert JobFits(b, k) && EpochAlone(b, k) && JobFits(b, j);
      assert IsRunJob(b, j, r) && (IsRunJob(b, k, r) ==> k == j);
      forall m | m in b.jobs ensures b.jobs[m].epoch <= b.Slot(b.jobs[m].slot).epoch {
        assert JobFits(b, m);
      }
    }
  }

  lemma BegunKeeps(b: Book, name: SlotName, j: Id, owner: Id, now: nat)
    requires Linked(b) && Waiting(b, name, j) && b.Slot(name).job.None? && b.jobs[j].kind == RUN_JOB
    ensures b.jobs[j].subject in b.runs && b.runs[b.jobs[j].subject].status == QUEUED
    ensures var e := Begun(b, name, j, owner, now); Linked(e) && Advances(b, e)
  {
    assert JobFits(b, j);
    var e, r := Begun(b, name, j, owner, now), b.jobs[j].subject;
    BegunJobs(b, name, j, owner, now);
    forall n ensures SlotFits(e, n) && SlotAdvances(b, e, n) {
      assert SlotFits(b, n);
    }
    forall q ensures OneJob(e, q) && OneActive(e, q) && RunAdvances(b, e, q) {
      assert OneJob(b, q) && OneActive(b, q) && OneActive(b, r);
      forall k ensures IsRunJob(e, k, q) <==> IsRunJob(b, k, q) {
      }
    }
    forall i: nat ensures ProcessFits(e, i) {
      assert ProcessFits(b, i);
    }
  }

  /** A claim always succeeds: it never finds a run that has left the queue before its job. */
  lemma ClaimKeeps(b: Book, name: SlotName, owner: Id, now: nat)
    requires Linked(b)
    ensures Claim(b, name, owner, now).Ok?
    ensures Linked(Claim(b, name, owner, now).value.0) && Advances(b, Claim(b, name, owner, now).value.0)
    ensures AllRecorded(b) ==> AllRecorded(Claim(b, name, owner, now).value.0)
  {
    var slot, next := b.Slot(name), NextJob(b, name, b.queue);
    NextIsWaiting(b, name, b.queue);
    if slot.blocked || slot.job.Some? || next.None? {
      SameAdvances(b);
    } else if b.jobs[next.value].kind != RUN_JOB {
      TakenJobs(b, name, next.value, owner, now);
    } else {
      BegunKeeps(b, name, next.value, owner, now);
      assert Claim(b, name, owner, now).value.0 == Begun(b, name, next.value, owner, now);
      if AllRecorded(b) {
        BegunRecords(b, name, next.value, owner, now);
      }
    }
  }

  lemma BegunRecords(b: Book, name: SlotName, j: Id, owner: Id, now: nat)
    requires AllRecorded(b) && j in b.jobs && b.jobs[j].subject in b.runs && b.runs[b.jobs[j].subject].status == QUEUED
    ensures AllRecorded(Begun(b, name, j, owner, now))
  {
    var e, r := Begun(b, name, j, owner, now), b.jobs[j].subject;
    MovedIsRecorded(b.runs[r], PREPARING, None);
    forall q | q in e.runs ensures Recorded(e.runs[q]) {
      assert Recorded(b.runs[q]);
    }
  }

  lemma HeartbeatKeeps(b: Book, j: Id, owner: Id, epoch: nat, now: nat)
    requires Linked(b) && j in b.jobs && Heartbeat(b, j, owner, epoch, now).Ok?
    ensures Linked(Heartbeat(b, j, owner, epoch, now).value) && Advances(b, Heartbeat(b, j, owner, epoch, now).value)
  {
    var e := Heartbeat(b, j, owner, epoch, now).value;
    assert JobFits(b, j);
    forall k ensures JobFits(e, k) && EpochAlone(e, k) && JobAdvances(b, e, k) {
      assert JobFits(b, k) && EpochAlone(b, k);
    }
    forall n ensures SlotFits(e, n) && SlotAdvances(b, e, n) {
      assert SlotFits(b, n);
    }
    forall q ensures OneJob(e, q) && OneActive(e, q) && RunAdvances(b, e, q) {
      assert OneJob(b, q) && OneActive(b, q);
      forall k ensures IsRunJob(e, k, q) <==> IsRunJob(b, k, q) {
      }
    }
    forall i: nat ensures ProcessFits(e, i) {
      assert ProcessFits(b, i);
    }
  }

  /** Only processes and the blocking of slots differ. */
  lemma ProcessesKeep(b: Book, e: Book)
    requires Linked(b)
    requires e.runs == b.runs && e.jobs == b.jobs && e.queue == b.queue
    requires forall name :: e.Slot(name) == b.Slot(name).(blocked := e.Slot(name).blocked)
    requires forall i: nat :: ProcessFits(e, i)
    ensures Linked(e) && Advances(b, e)
  {
    forall k ensures JobFits(e, k) && EpochAlone(e, k) && JobAdvances(b, e, k) {
      assert JobFits(b, k) && EpochAlone(b, k);
    }
    forall n ensures SlotFits(e, n) && SlotAdvances(b, e, n) {
      assert SlotFits(b, n);
    }
    forall q ensures OneJob(e, q) && OneActive(e, q) && RunAdvances(b, e, q) {
      assert OneJob(b, q) && OneActive(b, q);
      forall k ensures IsRunJob(e, k, q) <==> IsRunJob(b, k, q) {
      }
    }
  }

  /** A claimed job becomes over, and leaves its slot if the slot still holds its epoch. */
  ghost predicate EndsJob(b: Book, e: Book, j: Id, epoch: nat, owner: Option<Id>) {
    && j in b.jobs && b.jobs[j].state != WAITING && j in e.jobs && Over(e.jobs[j])
    && (b.jobs[j].kind == RUN_JOB && b.jobs[j].subject in b.runs ==> Terminal(b.runs[b.jobs[j].subject].status))
    && (b.jobs[j].state == ACTIVE ==> b.jobs[j].epoch == epoch && (owner.Some? ==> owner.value == b.jobs[j].owner))
    && e == FreeSlot(SetJob(b, j, b.jobs[j].(state := e.jobs[j].state)), b.jobs[j].slot, j, epoch, owner)
  }

  lemma EndJobs(b: Book, e: Book, j: Id, epoch: nat, owner: Option<Id>, k: Id)
    requires Linked(b) && EndsJob(b, e, j, epoch, owner)
    ensures JobFits(e, k) && JobAdvances(b, e, k)
  {
    assert JobFits(b, j) && JobFits(b, k);
  }

  lemma EndEpochs(b: Book, e: Book, j: Id, epoch: nat, owner: Option<Id>, k: Id)
    requires Linked(b) && EndsJob(b, e, j, epoch, owner)
    ensures EpochAlone(e, k)
  {
    assert EpochAlone(b, k);
  }

  lemma EndSlots(b: Book, e: Book, j: Id, epoch: nat, owner: Option<Id>, n: SlotName)
    requires Linked(b) && EndsJob(b, e, j, epoch, owner)
    ensures SlotFits(e, n) && SlotAdvances(b, e, n)
    ensures e.Slot(b.jobs[j].slot).job != Some(j)
  {
    assert JobFits(b, j) && SlotFits(b, n);
  }

  lemma EndRuns(b: Book, e: Book, j: Id, epoch: nat, owner: Option<Id>, q: Id)
    requires Linked(b) && EndsJob(b, e, j, epoch, owner)
    ensures OneJob(e, q) && OneActive(e, q) && RunAdvances(b, e, q)
  {
    assert OneJob(b, q) && OneActive(b, q);
    forall k ensures IsRunJob(e, k, q) <==> IsRunJob(b, k, q) {
    }
  }

  lemma EndProcesses(b: Book, e: Book, j: Id, epoch: nat, owner: Option<Id>, i: nat)
    requires Linked(b) && EndsJob(b, e, j, epoch, owner)
    ensures ProcessFits(e, i)
  {
    assert ProcessFits(b, i);
  }

  /** A claimed job ends in any of the ending states, and leaves its slot if the slot still holds its epoch. */
  lemma EndKeeps(b: Book, e: Book, j: Id, epoch: nat, owner: Option<Id>)
    requires Linked(b) && EndsJob(b, e, j, epoch, owner)
    ensures Linked(e) && Advances(b, e)
    ensures e.Slot(b.jobs[j].slot).job != Some(j)
  {
    forall k ensures JobFits(e, k) && EpochAlone(e, k) && JobAdvances(b, e, k) {
      EndJobs(b, e, j, epoch, owner, k);
      EndEpochs(b, e, j, epoch, owner, k);
    }
    forall n ensures SlotFits(e, n) && SlotAdvances(b, e, n) {
      EndSlots(b, e, j, epoch, owner, n);
    }
    forall q ensures OneJob(e, q) && OneActive(e, q) && RunAdvances(b, e, q) {
      EndRuns(b, e, j, epoch, owner, q);
    }
    forall i: nat ensures ProcessFits(e, i) {
      EndProcesses(b, e, j, epoch, owner, i);
    }
    EndSlots(b, e, j, epoch, owner, b.jobs[j].slot);
  }

  lemma AdvanceOn(c: Book, d: Book, e: Book)
    requires Advances(c, d) && Advances(d, e)
    ensures forall r :: RunAdvances(c, e, r)
    ensures forall name :: c.Slot(name).epoch <= e.Slot(name).epoch
    ensures c.queue <= e.queue
  {
    forall r ensures RunAdvances(c, e, r) {
      assert RunAdvances(c, d, r) && RunAdvances(d, e, r);
    }
    forall name ensures c.Slot(name).epoch <= e.Slot(name).epoch {
      assert SlotAdvances(c, d, name) && SlotAdvances(d, e, name);
    }
  }
}
