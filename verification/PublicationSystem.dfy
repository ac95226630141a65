/** The publication protocol as one transition system: web requests, the single
    worker process with its crashes and recovery, and the remote repositories. */
module PublicationSystem {
  import opened Outcomes
  import opened PublicationRows
  import opened PublicationSteps

  /** The generated branch of one run in one repository. */
  datatype Place = Place(repository: Id, run: Id)

  datatype PullRequest = PullRequest(number: nat, head: Sha)

  /** One remote branch and the pull requests opened from it. */
  datatype Remote = Remote(branch: Option<Sha>, prs: seq<PullRequest>)

  const ABSENT := Remote(None, [])

  /** One remote write that took effect. */
  datatype Effect = Effect(publication: Id, run: Id, place: Place, write: Write, commit: Sha)

  /** Where the worker's thread stands between two commit points. */
  datatype Pc =
    | Claimed
    | PrepareStart
    | PrepareLook(prepared: Snapshot)
    | PrepareSave(prepared: Snapshot, seen: Observation)
    | Begin
    | Approve
    | FirstLook
    | FirstSaw(seen: Observation)
    | DispatchWrite(write: Write)
    | InnerLook(write: Write)
    | AuthorizeStep(write: Write)
    | Launch(write: Write)
    | Wait(write: Write, record: nat)
    | LookBack
    | SawBack(seen: Observation)
    | Confirm(seen: Observation)
    | PrLook
    | PrSaw(seen: Observation)
    | FinalLook(dispatched: bool)
    | FinalSaw(dispatched: bool, seen: Observation)
    | PublishStep(seen: Observation)
    | SettleStep(unknown: bool, dispatched: bool)
    | ReconcileStart
    | ReconcileLook(held: Publication, index: nat)
    | ReconcileSaw(held: Publication, index: nat, seen: Observation)
    | ReconcileSettle(held: Publication, index: nat, seen: Observation, target: PublicationState)
    | ReconcileFail(held: Publication, index: nat)
    | Finish(error: bool)
    | Close(error: bool)

  datatype Thread = Idle | Working(job: Id, pc: Pc)

  /** Everything but the thread: the database, the execution slot, and the remote with its history. `landed` holds the
      write commands of the database that took effect, `log` what all commands ever did, in order; `backups` are the
      databases as they were when a backup was taken. */
  datatype State = State(
    db: Db,
    slot: Option<Id>,
    remote: map<Place, Remote>,
    landed: set<nat>,
    log: seq<Effect>,
    backups: seq<Db>)

  datatype System = System(state: State, thread: Thread)

  /** What the surroundings of the worker decide in one step of its thread. */
  datatype Input =
    | Proceed
    | Raise(unknown: bool)
    | Look(base: Sha, draft: bool)
    | Prepared(commit: Sha)
    | NewRow(id: Id)
    | LeaseLost

  datatype Step =
    | PrepareRequest(actor: Id, run: Id, job: Id)
    | DecideRequest(actor: Id, id: Id, hash: Digest, approve: bool, approval: Id, job: Id)
    | ReconcileRequest(actor: Id, id: Id, job: Id)
    | RecoveryRequest(actor: Id, id: Id, hash: Digest, remaining: bool, approval: Id, job: Id)
    | AbandonRequest(actor: Id, id: Id, hash: Digest)
    | PolicyRequest(actor: Id, project: Id, expected: nat, enabled: bool, repository: Id, mode: Mode)
    | Revocation(user: Id, within: Option<Id>)
    | JobCancelled(job: Id)
    | WorldChange(world: World)
    | Claim(job: Id)
    | Advance(input: Input)
    | Crash
    | BackupTaken
    | BackupRestored(n: nat, world: World)
    | RecoverStale
    | WriteLands(record: nat)
    | ProcessEnds(record: nat)

  // ---- the remote ----

  function At(remote: map<Place, Remote>, place: Place): Remote {
    if place in remote then remote[place] else ABSENT
  }

  function PlaceOf(row: Publication): Place {
    Place(row.snapshot.policy.repository, row.run)
  }

  /** One read of the remote; the base branch and the draft flag belong to other people. */
  function Observe(r: Remote, base: Sha, draft: bool): Result<Observation> {
    if |r.prs| > 1 then Err(REMOTE_PR_CONFLICT)
    else Ok(Observation(base, r.branch,
                        if r.prs == [] then None else Some(ObservedPr(r.prs[0].number, r.prs[0].head, draft))))
  }

  /** The effect of a write command: the push creates an absent ref only, and a pull request needs the branch. */
  function Applied(r: Remote, write: Write, commit: Sha): Option<Remote> {
    match write
    case PushWrite => if r.branch.None? then Some(r.(branch := Some(commit))) else None
    case PrWrite =>
      if r.branch == Some(commit) then Some(r.(prs := r.prs + [PullRequest(|r.prs| + 1, commit)])) else None
  }

  // ---- one step of the worker's thread ----

  function Goto(s: System, pc: Pc): System
    requires s.thread.Working?
  {
    s.(thread := s.thread.(pc := pc))
  }

  /** A transaction of the thread, after which it stands at `pc`. */
  function Commit(s: System, db: Db, pc: Pc): System
    requires s.thread.Working?
  {
    System(s.state.(db := db), s.thread.(pc := pc))
  }

  /** The job of the slot ends and the slot becomes free. */
  function Freed(s: State, db: Db, job: Id, end: JobState): State
    requires job in db.jobs
  {
    s.(db := db.(jobs := db.jobs[job := db.jobs[job].(state := end)]), slot := None)
  }

  /** The value of `dispatched` in the failure handler when the statement at `pc` raises. */
  predicate DispatchedAt(pc: Pc) {
    match pc
    case InnerLook(_) => true
    case AuthorizeStep(_) => true
    case Launch(_) => true
    case Wait(_, _) => true
    case LookBack => true
    case SawBack(_) => true
    case FinalLook(d) => d
    case FinalSaw(d, _) => d
    case _ => false
  }

  predicate InTry(pc: Pc) {
    || pc.Approve? || pc.FirstLook? || pc.FirstSaw? || pc.DispatchWrite? || pc.InnerLook? || pc.AuthorizeStep?
    || pc.Launch? || pc.Wait? || pc.LookBack? || pc.SawBack? || pc.Confirm? || pc.PrLook? || pc.PrSaw?
    || pc.FinalLook? || pc.FinalSaw? || pc.PublishStep?
  }

  function Raised(s: System, unknown: bool): System
    requires s.thread.Working?
  {
    var pc := s.thread.pc;
    if InTry(pc) then Goto(s, SettleStep(unknown, DispatchedAt(pc)))
    else if pc.ReconcileLook? || pc.ReconcileSaw? || pc.ReconcileSettle? then Goto(s, ReconcileFail(pc.held, pc.index))
    else if pc.Finish? || pc.Close? then s.(thread := Idle)
    else Goto(s, Finish(true))
  }

  predicate KnownJob(s: System) {
    && s.thread.Working? && s.thread.job in s.state.db.jobs
    && var job := s.state.db.jobs[s.thread.job];
       match job.kind
       case PREPARE => true
       case EXECUTE => job.subject in s.state.db.publications && job.approval.Some?
         && job.approval.value in s.state.db.approvals
       case RECONCILE_JOB => job.subject in s.state.db.publications
  }

  ghost function Work(s: System, input: Input): System {
    if !KnownJob(s) then s
    else if input.Raise? then Raised(s, input.unknown)
    else
      match s.state.db.jobs[s.thread.job].kind
      case PREPARE => WorkPrepare(s, input)
      case EXECUTE => WorkExecute(s, input)
      case RECONCILE_JOB => WorkReconcile(s, input)
  }

  predicate Prepares(s: System) {
    KnownJob(s) && s.state.db.jobs[s.thread.job].kind == PREPARE
  }

  /** Identifiers are never used twice, not even those of rows that a restore lost. */
  predicate Unused(s: State, id: Id) {
    && id !in s.db.publications
    && (forall n | 0 <= n < |s.backups| :: id !in s.backups[n].publications)
    && (forall i | 0 <= i < |s.log| :: s.log[i].publication != id)
  }

  function WorkPrepare(s: System, input: Input): System
    requires Prepares(s)
  {
    match s.thread.pc
    case Claimed => Goto(s, PrepareStart)
    case PrepareStart => if input.Prepared? then SnapshotStep(s, input.commit) else s
    case PrepareLook(t) => LookBeforeSave(s, t, input)
    case PrepareSave(t, seen) =>
      if input.NewRow? && Unused(s.state, input.id) then SaveStep(s, t, seen, input.id) else s
    case _ => WorkFinish(s, input)
  }

  /** The snapshot is fixed from what the guard returned; `commit` is what the transport prepared. */
  function SnapshotStep(s: System, commit: Sha): System
    requires Prepares(s)
  {
    var w, job := s.state.db.world, s.state.db.jobs[s.thread.job];
    match Conditions(w, job.actor, job.subject, None)
    case Err(_) => Raised(s, false)
    case Ok((bundleId, policy)) =>
      var bundle := w.bundles[bundleId];
      Goto(s, PrepareLook(Snapshot(job.subject, w.runs[job.subject].project, bundleId, bundle.version, bundle.manifest,
                                   bundle.baseline, bundle.config, bundle.tree, policy, commit)))
  }

  function LookBeforeSave(s: System, t: Snapshot, input: Input): System
    requires Prepares(s)
  {
    if !input.Look? then s
    else
      match Observe(At(s.state.remote, Place(t.policy.repository, t.run)), input.base, input.draft)
      case Err(_) => Raised(s, false)
      case Ok(seen) =>
        if CheckObservation(t, seen, true).Err? || seen.branch.Some? || seen.pr.Some? then Raised(s, false)
        else Goto(s, PrepareSave(t, seen))
  }

  function SaveStep(s: System, t: Snapshot, seen: Observation, id: Id): System
    requires Prepares(s) && id !in s.state.db.publications
  {
    match CreatePublication(s.state.db, s.state.db.jobs[s.thread.job].actor, id, t, seen)
    case Err(_) => Raised(s, false)
    case Ok(db) => Commit(s, db, Finish(false))
  }

  function LookFrom(s: System, id: Id, input: Input, next: Observation -> Pc): System
    requires s.thread.Working? && id in s.state.db.publications
  {
    if !input.Look? then s
    else
      match Observe(At(s.state.remote, PlaceOf(s.state.db.publications[id])), input.base, input.draft)
      case Err(_) => Raised(s, false)
      case Ok(seen) => Goto(s, next(seen))
  }

  /** The last observation accounts for the write that was dispatched. */
  predicate Accounted(snapshot: Snapshot, seen: Observation) {
    && Complete(snapshot, seen)
    && (snapshot.policy.mode == PUSH_AND_PR ==> seen.pr.value.head == snapshot.commit)
  }

  predicate Executes(s: System) {
    KnownJob(s) && s.state.db.jobs[s.thread.job].kind == EXECUTE
  }

  /** The publication that the thread executes. */
  function Subject(s: System): Id
    requires KnownJob(s)
  {
    s.state.db.jobs[s.thread.job].subject
  }

  /** The approval that the thread executes. */
  function Consent(s: System): Id
    requires Executes(s)
  {
    s.state.db.jobs[s.thread.job].approval.value
  }

  function Row(s: System): Publication
    requires Executes(s)
  {
    s.state.db.publications[Subject(s)]
  }

  function WorkExecute(s: System, input: Input): System
    requires Executes(s)
  {
    match s.thread.pc
    case Claimed => Goto(s, Begin)
    case Begin =>
      if s.state.db.approvals[Consent(s)].publication != Subject(s) || Row(s).state != APPROVED
      then Raised(s, false) else Goto(s, Approve)
    case Approve => StartStep(s)
    case FirstLook => LookFrom(s, Subject(s), input, seen => FirstSaw(seen))
    case FirstSaw(seen) => Commit(s, Remember(s.state.db, Subject(s), seen), AfterFirst(s, seen))
    case DispatchWrite(w) => DispatchStep(s, w)
    case InnerLook(w) => LookBeforeWrite(s, w, input)
    case AuthorizeStep(w) =>
      if AuthorizeWrite(s.state.db, Subject(s), Consent(s), s.thread.job).Err? then Raised(s, false)
      else Goto(s, Launch(w))
    case Launch(w) => LaunchStep(s, w)
    case Wait(w, i) =>
      if i < |s.state.db.records| && s.state.db.records[i].ended
      then Goto(s, if w == PushWrite then LookBack else FinalLook(true)) else s
    case LookBack => LookFrom(s, Subject(s), input, seen => SawBack(seen))
    case SawBack(seen) => Commit(s, Remember(s.state.db, Subject(s), seen), AfterPush(s, seen))
    case Confirm(seen) => ConfirmStep(s, seen)
    case PrLook => LookFrom(s, Subject(s), input, seen => PrSaw(seen))
    case PrSaw(seen) => Commit(s, Remember(s.state.db, Subject(s), seen), BeforePr(s, seen))
    case FinalLook(d) => LookFrom(s, Subject(s), input, seen => FinalSaw(d, seen))
    case FinalSaw(d, seen) => Commit(s, Remember(s.state.db, Subject(s), seen), AfterAll(s, d, seen))
    case PublishStep(_) => PublishedStep(s)
    case SettleStep(unknown, dispatched) => SettledStep(s, unknown, dispatched)
    case _ => WorkFinish(s, input)
  }

  function StartStep(s: System): System
    requires Executes(s)
  {
    match StartPublishing(s.state.db, Subject(s), Consent(s))
    case Err(_) => Raised(s, false)
    case Ok(db) => Commit(s, db, FirstLook)
  }

  function AfterFirst(s: System, seen: Observation): Pc
    requires Executes(s)
  {
    if CheckObservation(Row(s).snapshot, seen, true).Err? then SettleStep(false, false)
    else if s.state.db.approvals[Consent(s)].scope == REMAINING_PR && seen.branch != Some(Row(s).snapshot.commit)
    then SettleStep(false, false)
    else if seen.branch.None? then DispatchWrite(PushWrite)
    else Confirm(seen)
  }

  function DispatchStep(s: System, write: Write): System
    requires Executes(s)
  {
    var stage := if write == PushWrite then PUSH_DISPATCH else PR_DISPATCH;
    match Dispatch(s.state.db, Subject(s), Consent(s), s.thread.job, stage)
    case Err(_) => Raised(s, false)
    case Ok(db) => Commit(s, db, InnerLook(write))
  }

  /** The transport reads the remote once more before it writes. */
  function LookBeforeWrite(s: System, write: Write, input: Input): System
    requires Executes(s)
  {
    if !input.Look? then s
    else
      match Observe(At(s.state.remote, PlaceOf(Row(s))), input.base, input.draft)
      case Err(_) => Raised(s, false)
      case Ok(seen) =>
        if CheckObservation(Row(s).snapshot, seen, true).Err? then Raised(s, false)
        else if write == PushWrite then
          if seen.branch.Some? then Raised(s, false) else Goto(s, AuthorizeStep(write))
        else if seen.pr.Some? then Goto(s, FinalLook(true))
        else if seen.branch != Some(Row(s).snapshot.commit) then Raised(s, false)
        else Goto(s, AuthorizeStep(write))
  }

  function LaunchStep(s: System, write: Write): System
    requires Executes(s)
  {
    if s.state.slot != Some(s.thread.job) || s.state.db.jobs[s.thread.job].state != RUNNING then Raised(s, false)
    else
      Commit(s, s.state.db.(records := s.state.db.records + [Record(s.thread.job, Subject(s), write, false)]),
             Wait(write, |s.state.db.records|))
  }

  function AfterPush(s: System, seen: Observation): Pc
    requires Executes(s)
  {
    var confirmed := seen.branch == Some(Row(s).snapshot.commit);
    if CheckObservation(Row(s).snapshot, seen, true).Err? then SettleStep(false, !confirmed)
    else if !confirmed then SettleStep(true, true)
    else Confirm(seen)
  }

  function ConfirmStep(s: System, seen: Observation): System
    requires Executes(s)
  {
    if CurrentApproval(s.state.db, Subject(s), Consent(s)).Err? then Raised(s, false)
    else if Row(s).snapshot.policy.mode == PUSH_AND_PR && seen.pr.None? then Goto(s, PrLook)
    else Goto(s, FinalLook(false))
  }

  function BeforePr(s: System, seen: Observation): Pc
    requires Executes(s)
  {
    if CheckObservation(Row(s).snapshot, seen, true).Err? then SettleStep(false, false)
    else if seen.pr.None? then DispatchWrite(PrWrite)
    else FinalLook(false)
  }

  function AfterAll(s: System, dispatched: bool, seen: Observation): Pc
    requires Executes(s)
  {
    var open := dispatched && !Accounted(Row(s).snapshot, seen);
    if CheckObservation(Row(s).snapshot, seen, true).Err? then SettleStep(false, open)
    else if !Complete(Row(s).snapshot, seen) then SettleStep(true, open)
    else PublishStep(seen)
  }

  function PublishedStep(s: System): System
    requires Executes(s)
  {
    match Publish(s.state.db, Subject(s), Consent(s))
    case Err(_) => Raised(s, false)
    case Ok(db) => Commit(s, db, Finish(false))
  }

  function SettledStep(s: System, unknown: bool, dispatched: bool): System
    requires Executes(s)
  {
    match Settle(s.state.db, Subject(s), unknown, dispatched)
    case Err(_) => Goto(s, Finish(true))
    case Ok(db) => Commit(s, db, Finish(false))
  }

  predicate CompletableApproval(db: Db, id: Id, a: Id) {
    a in db.approvals && db.approvals[a].publication == id && db.approvals[a].approve && db.approvals[a].valid
  }

  /** The approval a reconciliation may still complete; there is at most one. */
  ghost function SomeCompletable(db: Db, id: Id): Option<Id> {
    if exists a :: CompletableApproval(db, id, a) then
      var a :| CompletableApproval(db, id, a);
      Some(a)
    else None
  }

  predicate Reconciles(s: System) {
    KnownJob(s) && s.state.db.jobs[s.thread.job].kind == RECONCILE_JOB
  }

  ghost function WorkReconcile(s: System, input: Input): System
    requires Reconciles(s)
  {
    match s.thread.pc
    case Claimed => Goto(s, ReconcileStart)
    case ReconcileStart =>
      if s.state.db.jobs[s.thread.job].actor !in s.state.db.world.admins then Raised(s, false)
      else Commit(s, StartReconcile(s.state.db, Subject(s), s.thread.job), ReconcileLook(Seen(s), |Seen(s).attempts|))
    case ReconcileLook(held, n) => LookFrom(s, Subject(s), input, seen => ReconcileSaw(held, n, seen))
    case ReconcileSaw(held, n, seen) =>
      Commit(s, Remember(s.state.db, Subject(s), seen), AfterReconcile(s, held, n, seen))
    case ReconcileSettle(held, n, seen, target) =>
      if n < |Seen(s).attempts| then ReconciledStep(s, held, n, seen, target) else s
    case ReconcileFail(held, n) => if n < |Seen(s).attempts| then ReconcileFailedStep(s, held, n) else s
    case _ => WorkFinish(s, input)
  }

  function Seen(s: System): Publication
    requires Reconciles(s)
  {
    s.state.db.publications[Subject(s)]
  }

  /** The verdict is taken on the row as remembered; completing an approval refreshes the held copy of the row. */
  ghost function AfterReconcile(s: System, held: Publication, n: nat, seen: Observation): Pc
    requires Reconciles(s)
  {
    var db := Remember(s.state.db, Subject(s), seen);
    if CheckObservation(Seen(s).snapshot, seen, false).Err? then ReconcileFail(held, n)
    else
      var approval := SomeCompletable(db, Subject(s));
      var refreshed :=
        if seen.branch.Some? && Complete(Seen(s).snapshot, seen) && approval.Some? then db.publications[Subject(s)]
        else held;
      ReconcileSettle(refreshed, n, seen, ReconcileTarget(db, Subject(s), seen, approval))
  }

  function ReconciledStep(s: System, held: Publication, n: nat, seen: Observation, target: PublicationState): System
    requires Reconciles(s) && n < |Seen(s).attempts|
  {
    match SettleReconcile(s.state.db, Subject(s), held, target, n, seen)
    case Err(_) => Raised(s, false)
    case Ok(db) => Commit(s, db, Finish(false))
  }

  function ReconcileFailedStep(s: System, held: Publication, n: nat): System
    requires Reconciles(s) && n < |Seen(s).attempts|
  {
    match FailReconcile(s.state.db, Subject(s), held, n)
    case Err(_) => Goto(s, Finish(true))
    case Ok(db) => Commit(s, db, Finish(false))
  }

  /** The end of a claimed job: an unconfirmed process keeps the slot, an error interrupts the publication. */
  function WorkFinish(s: System, input: Input): System
    requires s.thread.Working? && s.thread.job in s.state.db.jobs
  {
    var job := s.thread.job;
    match s.thread.pc
    case Finish(error) =>
      if input.LeaseLost? then Goto(s, Finish(true))
      else if HasUnended(s.state.db.records, job) then s.(thread := Idle)
      else if !error then Goto(s, Close(false))
      else (
        match MarkInterrupted(s.state.db, job)
        case Err(_) => s.(thread := Idle)
        case Ok(db) => Commit(s, db, Close(true)))
    case Close(error) =>
      System(Freed(s.state, s.state.db, job, if error then STOPPED else DONE), Idle)
    case _ => s
  }

  // ---- all steps ----

  /** Projects keep their policy history, and runs keep their project. */
  predicate Prolongs(before: World, after: World) {
    && after.retired == before.retired
    && before.projects.Keys <= after.projects.Keys && before.runs.Keys <= after.runs.Keys
    && (forall p | p in before.projects :: after.projects[p].policies == before.projects[p].policies)
    && (forall p | p in after.projects && p !in before.projects :: after.projects[p].policies == [])
    && (forall r | r in before.runs :: after.runs[r].project == before.runs[r].project)
  }

  /** Everything else outside may change, only that retired runs stay without a current result. */
  predicate Evolves(before: World, after: World) {
    Prolongs(before, after) && RetiredStale(after)
  }

  predicate HasUnended(records: seq<Record>, job: Id) {
    exists i | 0 <= i < |records| :: records[i].job == job && !records[i].ended
  }

  /** Recovery at the start of a worker: it never frees a slot while a process may still run. */
  function Recover(s: State): State {
    if s.slot.None? || s.slot.value !in s.db.jobs || HasUnended(s.db.records, s.slot.value) then s
    else
      match MarkInterrupted(s.db, s.slot.value)
      case Err(_) => s
      case Ok(db) => Freed(s, db, s.slot.value, STOPPED)
  }

  /** A released write command takes effect, if the remote accepts it. */
  function Land(s: State, i: nat): State {
    if i >= |s.db.records| || s.db.records[i].ended || i in s.landed
      || s.db.records[i].publication !in s.db.publications then s
    else
      var record := s.db.records[i];
      var row := s.db.publications[record.publication];
      var place := PlaceOf(row);
      match Applied(At(s.remote, place), record.write, row.snapshot.commit)
      case None => s
      case Some(r) =>
        s.(remote := s.remote[place := r], landed := s.landed + {i},
           log := s.log + [Effect(record.publication, row.run, place, record.write, row.snapshot.commit)])
  }

  function EndProcess(db: Db, i: nat): Db {
    if i < |db.records| && !db.records[i].ended
    then db.(records := db.records[i := db.records[i].(ended := true)]) else db
  }

  function RestoredRow(row: Publication): Publication {
    if row.state in {PUBLISHED, REJECTED, INVALIDATED} || row.abandoned then row
    else row.(state := UNKNOWN, version := row.version + 1)
  }

  function RestoredJob(job: Job): Job {
    if job.Pending() then job.(state := CANCELLED) else job
  }

  /** What restoring a backup does to the publication tables: all decisions are withdrawn, open publications become
      UNKNOWN, pending jobs end, and so do all process records. */
  function Restored(db: Db): Db {
    db.(
    approvals := map a | a in db.approvals :: db.approvals[a].(valid := false),
    publications := map p | p in db.publications :: RestoredRow(db.publications[p]),
    jobs := map j | j in db.jobs :: RestoredJob(db.jobs[j]),
    records := seq(|db.records|, i requires 0 <= i < |db.records| => db.records[i].(ended := true)))
  }

  /** The runs that a restore retires: all that publications or effects were ever of. */
  function Retiring(s: State): set<Id> {
    s.db.world.retired
    + (set i | 0 <= i < |s.log| :: s.log[i].run)
    + (set p | p in s.db.publications :: s.db.publications[p].run)
    + (set n, p | 0 <= n < |s.backups| && p in s.backups[n].publications :: s.backups[n].publications[p].run)
  }

  /** The backup exists, and the rest of its world is as after a restore: nothing retired is current. */
  predicate MayRestore(s: State, n: nat, world: World) {
    n < |s.backups| && Evolves(s.backups[n].world.(retired := Retiring(s)), world)
  }

  /** The database of the backup takes the place of the present one; the remote and its history stay. No command of
      before is left that could still write. */
  function RestoredState(s: State, n: nat, world: World): State
    requires n < |s.backups|
  {
    s.(db := Restored(s.backups[n]).(world := world), slot := None, landed := {})
  }

  /** A request that fails leaves the database as it was. */
  function Requested(db: Db, step: Step): Db {
    match step
    case PrepareRequest(actor, run, job) =>
      if job in db.jobs then db else Committed(db, RequestPrepare(db, actor, run, job))
    case DecideRequest(actor, id, hash, approve, approval, job) =>
      if job in db.jobs || approval in db.approvals then db
      else Committed(db, Decide(db, actor, id, hash, approve, approval, job))
    case ReconcileRequest(actor, id, job) =>
      if job in db.jobs then db else Committed(db, RequestReconcile(db, actor, id, job))
    case RecoveryRequest(actor, id, hash, remaining, approval, job) =>
      if job in db.jobs || approval in db.approvals then db
      else Committed(db, ApproveRecovery(db, actor, id, hash, remaining, approval, job))
    case AbandonRequest(actor, id, hash) => Committed(db, Abandon(db, actor, id, hash))
    case PolicyRequest(actor, project, expected, enabled, repository, mode) =>
      Committed(db, ConfigurePolicy(db, actor, project, expected, enabled, repository, mode))
    case Revocation(user, within) => RevokePublications(db, user, within)
    case JobCancelled(job) => CancelJob(db, job)
    case WorldChange(world) => if Evolves(db.world, world) then db.(world := world) else db
    case _ => db
  }

  function Committed(db: Db, r: Result<Db>): Db {
    match r
    case Ok(after) => after
    case Err(_) => db
  }

  predicate IsRequest(step: Step) {
    !(step.Claim? || step.Advance? || step.Crash? || step.BackupTaken? || step.BackupRestored? || step.RecoverStale?
      || step.WriteLands? || step.ProcessEnds?)
  }

  ghost function Apply(s: System, step: Step): System {
    match step
    case Claim(job) =>
      if s.state.slot.Some? || s.thread.Working? || job !in s.state.db.jobs || s.state.db.jobs[job].state != QUEUED
        then s
      else System(s.state.(db := s.state.db.(jobs := s.state.db.jobs[job := s.state.db.jobs[job].(state := RUNNING)]),
                           slot := Some(job)),
                  Working(job, Claimed))
    case Advance(input) => Work(s, input)
    case Crash => s.(thread := Idle)
    case BackupTaken => s.(state := s.state.(backups := s.state.backups + [s.state.db]))
    case BackupRestored(n, world) =>
      if MayRestore(s.state, n, world) then System(RestoredState(s.state, n, world), Idle) else s
    case RecoverStale => if s.thread.Working? then s else s.(state := Recover(s.state))
    case WriteLands(i) => s.(state := Land(s.state, i))
    case ProcessEnds(i) => s.(state := s.state.(db := EndProcess(s.state.db, i)))
    case _ => s.(state := s.state.(db := Requested(s.state.db, step)))
  }

  ghost function Run(s: System, steps: seq<Step>): System {
    if steps == [] then s else Apply(Run(s, steps[..|steps| - 1]), steps[|steps| - 1])
  }

  /** The step replaces no database: it is no restore, or one that is refused. */
  predicate Calm(s: System, step: Step) {
    step.BackupRestored? ==> !MayRestore(s.state, step.n, step.world)
  }

  /** The system before any publication work. */
  predicate Initial(s: System) {
    && s.state.db.publications == map[] && s.state.db.approvals == map[] && s.state.db.jobs == map[]
       && s.state.db.records == []
    && s.state.slot.None? && s.thread.Idle? && s.state.remote == map[] && s.state.landed == {} && s.state.log == []
    && s.state.backups == [] && s.state.db.world.retired == {}
    && (forall p | p in s.state.db.world.projects :: s.state.db.world.projects[p].policies == [])
  }
}
