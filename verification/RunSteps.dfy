/** Runs, jobs and worker slots, and every transaction on them as a function on the whole book. */
module RunSteps {
  import opened Outcomes

  type Id = nat

  datatype Status =
    | QUEUED | PREPARING | RUNNING | VERIFYING | CANCEL_REQUESTED | SUCCEEDED | FAILED | CANCELLED | INTERRUPTED

  predicate Terminal(s: Status) {
    s in {SUCCEEDED, FAILED, CANCELLED, INTERRUPTED}
  }

  /** The table of legal status changes. */
  predicate Allowed(from: Status, to: Status) {
    match from
    case QUEUED => to in {PREPARING, CANCELLED, FAILED}
    case PREPARING => to in {RUNNING, FAILED, CANCEL_REQUESTED, INTERRUPTED}
    case RUNNING => to in {VERIFYING, FAILED, CANCEL_REQUESTED, INTERRUPTED}
    case VERIFYING => to in {SUCCEEDED, FAILED, CANCEL_REQUESTED, INTERRUPTED}
    case CANCEL_REQUESTED => to in {CANCELLED, FAILED, INTERRUPTED}
    case _ => false
  }

  /** One entry of a run's event log. */
  datatype Event = Event(sequence: nat, from: Option<Status>, to: Status)

  datatype Reason = NO_REASON | USER_CANCELLED | ACCESS_REVOKED | OTHER_REASON

  datatype Run = Run(
    request: Id, revision: Id, previous: Option<Id>, actor: Id, project: Id, key: Id,
    status: Status, version: nat, epoch: nat, reason: Reason, events: seq<Event>)

  datatype JobKind = RUN_JOB | AI_JOB | PUBLICATION_JOB

  datatype JobState = WAITING | ACTIVE | DONE | BROKEN | DROPPED

  datatype SlotName = CONVERSATION | EXECUTION

  /** WAITING, ACTIVE, BROKEN and DROPPED stand for the states QUEUED, RUNNING, FAILED and CANCELLED of a job. */
  datatype Job = Job(
    kind: JobKind, subject: Id, actor: Id, project: Id, slot: SlotName, instance: Id,
    state: JobState, owner: Id, epoch: nat, expires: Option<nat>, cancel: bool)

  datatype Slot = Slot(job: Option<Id>, owner: Id, epoch: nat, expires: Option<nat>, blocked: bool)

  datatype Process = Process(job: Id, run: Option<Id>, ended: bool, abandoned: bool)

  /** `queue` lists the jobs in the order in which they were enqueued. */
  datatype Book = Book(
    runs: map<Id, Run>, jobs: map<Id, Job>, queue: seq<Id>, conversation: Slot, execution: Slot,
    processes: seq<Process>, instance: Id)
  {
    function Slot(name: SlotName): Slot {
      match name
      case CONVERSATION => conversation
      case EXECUTION => execution
    }

    function WithSlot(name: SlotName, slot: Slot): Book {
      match name
      case CONVERSATION => this.(conversation := slot)
      case EXECUTION => this.(execution := slot)
    }
  }

  const LEASE_SECONDS: nat := 45

  // ---- the status machine of one run ----

  /** A process of this run has not ended; abandoned processes count only against success. */
  predicate Unfinished(processes: seq<Process>, run: Id, withAbandoned: bool) {
    exists i | 0 <= i < |processes| ::
      processes[i].run == Some(run) && !processes[i].ended && (withAbandoned || !processes[i].abandoned)
  }

  function LastSequence(events: seq<Event>): nat {
    if events == [] then 0 else events[|events| - 1].sequence
  }

  function Moved(run: Run, to: Status, reason: Option<Reason>): Run {
    run.(status := to, version := run.version + 1, reason := if reason.Some? then reason.value else run.reason,
    events := run.events + [Event(LastSequence(run.events) + 1, Some(run.status), to)])
  }

  function Transition(b: Book, r: Id, to: Status, epoch: Option<nat>, reason: Option<Reason>): Result<Book> {
    var _ :- Require(r in b.runs, NOT_FOUND);
    var run := b.runs[r];
    var _ :- Require(epoch.Some? ==> run.epoch == epoch.value, STALE_WORKER);
    var _ :- Require(Allowed(run.status, to), INVALID_RUN_TRANSITION);
    var _ :- Require(Terminal(to) ==> !Unfinished(b.processes, r, to == SUCCEEDED), PROCESS_TERMINATION_UNCONFIRMED);
    Ok(b.(runs := b.runs[r := Moved(run, to, reason)]))
  }

  // ---- requests ----

  predicate Active(b: Book, request: Id) {
    exists r | r in b.runs :: b.runs[r].request == request && !Terminal(b.runs[r].status)
  }

  /** What a new run is made of. */
  datatype Order = Order(request: Id, revision: Id, actor: Id, project: Id, key: Id, ready: bool, previous: Option<Id>)

  predicate SameKey(b: Book, o: Order, r: Id) {
    r in b.runs && b.runs[r].actor == o.actor && b.runs[r].key == o.key
  }

  predicate Primary(b: Book, o: Order, r: Id) {
    r in b.runs && b.runs[r].revision == o.revision && b.runs[r].previous.None?
  }

  /** A new run with its job, unless the same order was placed before. */
  function Create(b: Book, o: Order, r: Id, j: Id): Result<Book>
    requires r !in b.runs && j !in b.jobs
  {
    if exists q | q in b.runs :: SameKey(b, o, q) then
      if exists q | q in b.runs ::
          SameKey(b, o, q) && b.runs[q].revision == o.revision && b.runs[q].previous == o.previous
      then Ok(b) else Err(IDEMPOTENCY_CONFLICT)
    else if Active(b, o.request) then
      if o.previous.None? && exists q | q in b.runs :: Primary(b, o, q) then Ok(b) else Err(RUN_ACTIVE)
    else if o.previous.None? && exists q | q in b.runs :: Primary(b, o, q) then Ok(b)
    else if o.previous.None? && !o.ready then Err(REQUEST_NOT_CONFIRMED)
    else
      Ok(b.(
         runs := b.runs[r := Run(o.request, o.revision, o.previous, o.actor, o.project, o.key, QUEUED, 1, 0, NO_REASON,
                                 [Event(1, None, QUEUED)])],
         jobs := b.jobs[j := Job(RUN_JOB, r, o.actor, o.project, EXECUTION, b.instance, WAITING, 0, 0, None, false)],
         queue := b.queue + [j]))
  }

  /** The first job enqueued for a run. */
  function FirstRunJob(b: Book, queue: seq<Id>, r: Id): Option<Id> {
    if queue == [] then None
    else if queue[0] in b.jobs && b.jobs[queue[0]].kind == RUN_JOB && b.jobs[queue[0]].subject == r then Some(queue[0])
    else FirstRunJob(b, queue[1..], r)
  }

  /** A new run for the revision of a finished one. */
  function Retry(b: Book, previous: Id, actor: Id, key: Id, r: Id, j: Id): Result<Book>
    requires r !in b.runs && j !in b.jobs
  {
    var _ :- Require(previous in b.runs, NOT_FOUND);
    var earlier := b.runs[previous];
    var o := Order(earlier.request, earlier.revision, actor, earlier.project, key, true, Some(previous));
    var _ :- Require(Terminal(earlier.status), RUN_ACTIVE);
    var original := FirstRunJob(b, b.queue, previous);
    var _ :- Require(
      original.Some? && original.value in b.jobs && b.jobs[original.value].instance == b.instance,
      REQUEST_RECONFIRM_REQUIRED);
    if exists q | q in b.runs :: SameKey(b, o, q) then
      if exists q | q in b.runs :: SameKey(b, o, q) && b.runs[q].previous == o.previous then Ok(b)
        else Err(IDEMPOTENCY_CONFLICT)
    else
      var _ :- Require(!Unfinished(b.processes, previous, false), PROCESS_TERMINATION_UNCONFIRMED);
      Create(b, o, r, j)
  }

  function SetJob(b: Book, j: Id, job: Job): Book {
    b.(jobs := b.jobs[j := job])
  }

  function Cancel(b: Book, r: Id): Result<Book> {
    var _ :- Require(r in b.runs, NOT_FOUND);
    var run := b.runs[r];
    var _ :- Require(!Terminal(run.status), RUN_FINISHED);
    var j := FirstRunJob(b, b.queue, r);
    if run.status == QUEUED && j.Some? && j.value in b.jobs && b.jobs[j.value].state == WAITING then
      Transition(SetJob(b, j.value, b.jobs[j.value].(state := DROPPED)), r, CANCELLED, None, Some(USER_CANCELLED))
    else if run.status != CANCEL_REQUESTED then Transition(b, r, CANCEL_REQUESTED, None, Some(USER_CANCELLED))
    else Ok(b)
  }

  predicate Within(project: Id, scope: Option<Id>) {
    scope.Some? ==> project == scope.value
  }

  /** A run after its requester lost access. */
  function RevokedRun(run: Run): Run {
    if run.status == QUEUED then Moved(run, CANCELLED, Some(ACCESS_REVOKED))
    else if !Terminal(run.status) && run.status != CANCEL_REQUESTED
      then Moved(run, CANCEL_REQUESTED, Some(ACCESS_REVOKED))
    else run
  }

  function RevokedJob(job: Job): Job {
    if job.state == WAITING then job.(state := DROPPED)
    else if job.state == ACTIVE && job.kind != RUN_JOB then job.(cancel := true)
    else job
  }

  function Revoke(b: Book, user: Id, scope: Option<Id>): Book {
    b.(
    runs := map r | r in b.runs ::
      if b.runs[r].actor == user && Within(b.runs[r].project, scope) then RevokedRun(b.runs[r]) else b.runs[r],
    jobs := map j | j in b.jobs ::
      if b.jobs[j].actor == user && Within(b.jobs[j].project, scope) then RevokedJob(b.jobs[j]) else b.jobs[j])
  }

  /** A job of another kind. */
  function Enqueue(b: Book, j: Id, kind: JobKind, subject: Id, actor: Id, project: Id, slot: SlotName): Book
    requires j !in b.jobs
  {
    b.(jobs := b.jobs[j := Job(kind, subject, actor, project, slot, b.instance, WAITING, 0, 0, None, false)],
    queue := b.queue + [j])
  }

  // ---- the worker ----

  predicate Waiting(b: Book, name: SlotName, j: Id) {
    j in b.jobs && b.jobs[j].state == WAITING && b.jobs[j].slot == name && b.jobs[j].instance == b.instance
  }

  function NextJob(b: Book, name: SlotName, queue: seq<Id>): Option<Id> {
    if queue == [] then None
    else if Waiting(b, name, queue[0]) then Some(queue[0])
    else NextJob(b, name, queue[1..])
  }

  /** Claims the first waiting job for a free slot; a run leaves its queue in the same transaction. */
  function Claim(b: Book, name: SlotName, owner: Id, now: nat): Result<(Book, Option<Id>)> {
    var slot, next := b.Slot(name), NextJob(b, name, b.queue);
    if slot.blocked || slot.job.Some? || next.None? || next.value !in b.jobs then Ok((b, None))
    else
      var j, epoch, expires := next.value, slot.epoch + 1, Some(now + LEASE_SECONDS);
      var job := b.jobs[j].(state := ACTIVE, owner := owner, epoch := epoch, expires := expires);
      var taken := SetJob(b.WithSlot(name, Slot.Slot(Some(j), owner, epoch, expires, false)), j, job);
      if job.kind != RUN_JOB then Ok((taken, next))
      else
        var _ :- Require(job.subject in b.runs && b.runs[job.subject].status == QUEUED, JOB_CLAIM_CONFLICT);
        var moved :- Transition(taken, job.subject, PREPARING, None, None);
        Ok((moved.(runs := moved.runs[job.subject := moved.runs[job.subject].(epoch := epoch)]), next))
  }

  /** A heartbeat of the worker that holds `owner` and `epoch`. */
  function Heartbeat(b: Book, j: Id, owner: Id, epoch: nat, now: nat): Result<Book>
    requires j in b.jobs
  {
    var name := b.jobs[j].slot;
    var slot := b.Slot(name);
    var _ :- Require(
      slot.job == Some(j) && slot.owner == owner && slot.epoch == epoch && !slot.blocked
      && slot.expires.Some? && slot.expires.value > now, STALE_WORKER);
    var expires := Some(now + LEASE_SECONDS);
    var beaten := b.WithSlot(name, slot.(expires := expires));
    Ok(if b.jobs[j].owner == owner && b.jobs[j].epoch == epoch
       then SetJob(beaten, j, b.jobs[j].(expires := expires)) else beaten)
  }

  /** The open processes of a job that is not a publication are given up, and its slot is unblocked. */
  function Abandon(b: Book, j: Id): Book
    requires j in b.jobs
  {
    if b.jobs[j].kind == PUBLICATION_JOB then b
    else
      var slot := b.Slot(b.jobs[j].slot);
      var given := b.(processes := seq(|b.processes|, i requires 0 <= i < |b.processes| =>
        if b.processes[i].job == j && !b.processes[i].ended then b.processes[i].(abandoned := true)
          else b.processes[i]));
      if slot.job == Some(j) then given.WithSlot(b.jobs[j].slot, slot.(blocked := false)) else given
  }

  function FreeSlot(b: Book, name: SlotName, j: Id, epoch: nat, owner: Option<Id>): Book {
    var slot := b.Slot(name);
    if slot.job == Some(j) && slot.epoch == epoch && (owner.Some? ==> slot.owner == owner.value)
    then b.WithSlot(name, Slot.Slot(None, 0, slot.epoch, None, owner.Some? && slot.blocked)) else b
  }

  /** The transaction of a recovery; what it knows of the slot may be out of date. */
  function Recover(b: Book, j: Id, epoch: nat): Result<Book>
    requires j in b.jobs
  {
    var job := b.jobs[j];
    var interrupted :-
      if job.kind == RUN_JOB && job.subject in b.runs && !Terminal(b.runs[job.subject].status)
      then Transition(b, job.subject, INTERRUPTED, None, Some(OTHER_REASON)) else Ok(b);
    Ok(FreeSlot(SetJob(interrupted, j, job.(state := BROKEN)), job.slot, j, epoch, None))
  }

  function FinalStatus(run: Run): Status {
    if run.status == CANCEL_REQUESTED && run.reason in {USER_CANCELLED, ACCESS_REVOKED} then CANCELLED else FAILED
  }

  /** The last transaction of the worker that claimed the job with `owner` and `epoch`. */
  function Finalise(b: Book, j: Id, owner: Id, epoch: nat, failed: bool): Result<Book>
    requires j in b.jobs
  {
    var job := b.jobs[j];
    var known := job.kind == RUN_JOB && job.subject in b.runs;
    var ended :-
      if known && !Terminal(b.runs[job.subject].status)
      then Transition(b, job.subject, FinalStatus(b.runs[job.subject]), Some(epoch), None) else Ok(b);
    var error := failed || (known && b.runs[job.subject].status == FAILED);
    var state := if job.cancel then DROPPED else if error then BROKEN else DONE;
    var settled := if job.epoch == epoch && job.state != DROPPED then SetJob(ended, j, job.(state := state)) else ended;
    Ok(FreeSlot(settled, job.slot, j, epoch, Some(owner)))
  }

  // ---- restoring a backup ----

  function RestoredRun(run: Run): Run {
    if Terminal(run.status) then run
    else run.(status := if run.status == QUEUED then CANCELLED else INTERRUPTED, version := run.version + 1,
              epoch := 0, reason := OTHER_REASON)
  }

  function RestoredJob(job: Job): Job {
    if job.state in {DONE, BROKEN, DROPPED} then job
      else job.(state := DROPPED, owner := 0, epoch := 0, expires := None)
  }

  function RestoredSlot(slot: Slot): Slot {
    Slot.Slot(None, 0, slot.epoch + 1, None, false)
  }

  /** Everything in progress ends, and the data belongs to a new instance. */
  function Restore(b: Book, instance: Id): Book {
    Book(
      map r | r in b.runs :: RestoredRun(b.runs[r]),
      map j | j in b.jobs :: RestoredJob(b.jobs[j]),
      b.queue, RestoredSlot(b.conversation), RestoredSlot(b.execution),
      seq(|b.processes|, i requires 0 <= i < |b.processes| => b.processes[i].(ended := true)),
      instance)
  }

  // ---- every step ----

  datatype Step =
    | CreateStep(order: Order, r: Id, j: Id)
    | RetryStep(previous: Id, actor: Id, key: Id, r: Id, j: Id)
    | CancelStep(r: Id)
    | RevokeStep(user: Id, scope: Option<Id>)
    | EnqueueStep(j: Id, kind: JobKind, subject: Id, actor: Id, project: Id, slot: SlotName)
    | ClaimStep(name: SlotName, owner: Id, now: nat)
    | HeartbeatStep(j: Id, owner: Id, epoch: nat, now: nat)
    | ProgressStep(j: Id, owner: Id, epoch: nat, to: Status, reason: Option<Reason>)
    | ProcessStep(j: Id)
    | ProcessEndStep(i: nat)
    | BlockStep(name: SlotName)
    | AbandonStep(j: Id)
    | RecoverStep(j: Id, owner: Id, epoch: nat)
    | FinaliseStep(j: Id, owner: Id, epoch: nat, failed: bool)
    | RestoreStep(instance: Id)

  function Committed(b: Book, r: Result<Book>): Book {
    match r
    case Ok(after) => after
    case Err(_) => b
  }

  /** The worker claimed this job once, under this owner and epoch. */
  predicate WasClaimed(b: Book, j: Id, owner: Id, epoch: nat) {
    && j in b.jobs && epoch >= 1 && b.jobs[j].state != WAITING
    && ((b.jobs[j].epoch == epoch && b.jobs[j].owner == owner) || b.jobs[j].epoch == 0)
  }

  function Apply(b: Book, step: Step): Book {
    match step
    case CreateStep(o, r, j) => if r in b.runs || j in b.jobs then b
      else Committed(b, Create(b, o.(previous := None), r, j))
    case RetryStep(previous, actor, key, r, j) =>
      if r in b.runs || j in b.jobs then b else Committed(b, Retry(b, previous, actor, key, r, j))
    case CancelStep(r) => Committed(b, Cancel(b, r))
    case RevokeStep(user, scope) => Revoke(b, user, scope)
    case EnqueueStep(j, kind, subject, actor, project, slot) =>
      if j in b.jobs || kind == RUN_JOB then b else Enqueue(b, j, kind, subject, actor, project, slot)
    case ClaimStep(name, owner, now) => (
      match Claim(b, name, owner, now)
      case Ok((after, _)) => after
      case Err(_) => b)
    case HeartbeatStep(j, owner, epoch, now) => if j in b.jobs then Committed(b, Heartbeat(b, j, owner, epoch, now))
      else b
    case ProgressStep(j, owner, epoch, to, reason) =>
      if WasClaimed(b, j, owner, epoch) && b.jobs[j].kind == RUN_JOB
      then Committed(b, Transition(b, b.jobs[j].subject, to, Some(epoch), reason)) else b
    case ProcessStep(j) =>
      if j in b.jobs && b.jobs[j].state != WAITING
      then b.(processes := b.processes + [Process(j, if b.jobs[j].kind == RUN_JOB then Some(b.jobs[j].subject)
                                                  else None, false, false)])
      else b
    case ProcessEndStep(i) =>
      if i < |b.processes| then b.(processes := b.processes[i := b.processes[i].(ended := true)]) else b
    case BlockStep(name) => b.WithSlot(name, b.Slot(name).(blocked := true))
    case AbandonStep(j) => if j in b.jobs then Abandon(b, j) else b
    case RecoverStep(j, owner, epoch) => if WasClaimed(b, j, owner, epoch) then Committed(b, Recover(b, j, epoch))
      else b
    case FinaliseStep(j, owner, epoch, failed) =>
      if WasClaimed(b, j, owner, epoch) then Committed(b, Finalise(b, j, owner, epoch, failed)) else b
    case RestoreStep(instance) => Restore(b, instance)
  }

  function Play(b: Book, steps: seq<Step>): Book {
    if steps == [] then b else Apply(Play(b, steps[..|steps| - 1]), steps[|steps| - 1])
  }

  predicate Empty(b: Book) {
    && b.runs == map[] && b.jobs == map[] && b.queue == [] && b.processes == []
    && b.conversation.job.None? && b.execution.job.None?
  }
}
