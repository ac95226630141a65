/** Drafts, revisions and the two decisions on a result: the owner accepts, an administrator approves. */
module Reviews {
  import opened Outcomes

  type Id = nat

  datatype RequestState = DRAFT | READY | SUBMITTED

  datatype WorkRequest = WorkRequest(owner: Id, version: nat, state: RequestState, ready: Option<Id>)

  /** A confirmed specification; `version` is the draft version it was taken from. */
  datatype Revision = Revision(request: Id, version: nat, config: nat, base: nat)

  /** Runs are numbered in the order of their creation. */
  datatype Run = Run(request: Id, revision: Id, number: nat, succeeded: bool)

  datatype Bundle = Bundle(run: Id, version: nat, manifest: nat, complete: bool, normal: bool)

  datatype ReviewState = AWAITING_ADMIN | CHANGES_REQUESTED | APPROVED | REJECTED

  datatype Review = Review(state: ReviewState, acceptedBy: Option<Id>, decidedBy: Option<Id>, manifest: nat)

  /** `pinned` are the results a review keeps from expiring; `admins` are the accounts that are administrators now. */
  datatype Desk = Desk(
    requests: map<Id, WorkRequest>, revisions: map<Id, Revision>, submitted: set<Id>,
    runs: map<Id, Run>, bundles: map<Id, Bundle>, reviews: map<Id, Review>, pinned: set<Id>, admins: set<Id>)

  // ---- drafts and revisions ----

  function Save(d: Desk, actor: Id, q: Id, expected: nat): Result<Desk> {
    var _ :- Require(q in d.requests && d.requests[q].owner == actor, NOT_FOUND);
    var _ :- Require(d.requests[q].version == expected, VERSION_CONFLICT);
    Ok(d.(requests := d.requests[q := d.requests[q].(version := expected + 1, state := DRAFT, ready := None)]))
  }

  predicate OfDraft(d: Desk, q: Id, r: Id) {
    q in d.requests && r in d.revisions && d.revisions[r].request == q
      && d.revisions[r].version == d.requests[q].version
  }

  /** Confirms the draft; `complete` says that the draft and its basis hold up. A draft is confirmed once only. */
  function Confirm(d: Desk, actor: Id, q: Id, expected: nat, config: nat, base: nat, complete: bool,
                   r: Id): Result<Desk>
    requires r !in d.revisions
  {
    var _ :- Require(q in d.requests && d.requests[q].owner == actor, NOT_FOUND);
    var _ :- Require(d.requests[q].version == expected, VERSION_CONFLICT);
    if exists x | x in d.revisions :: OfDraft(d, q, x) then
      if exists x | x in d.revisions :: OfDraft(d, q, x) && d.revisions[x].config == config
        && d.revisions[x].base == base
      then Ok(d) else Err(BASIS_CONFLICT)
    else
      var _ :- Require(complete, SPEC_INCOMPLETE);
      Ok(d.(
         revisions := d.revisions[r := Revision(q, expected, config, base)],
         requests := d.requests[q := d.requests[q].(state := READY, ready := Some(r))]))
  }

  /** A new run is the newest of all. */
  function Started(d: Desk, q: Id, r: Id, run: Id): Desk {
    d.(runs := d.runs[run := Run(q, r, |d.runs|, false)])
  }

  /** Starts the run of a confirmed revision, once. `busy` says that another run of the request is in progress. */
  function Submit(d: Desk, actor: Id, q: Id, r: Id, busy: bool, run: Id): Result<Desk>
    requires run !in d.runs
  {
    var _ :- Require(
      q in d.requests && d.requests[q].owner == actor && r in d.revisions && d.revisions[r].request == q, NOT_FOUND);
    if r in d.submitted then Ok(d)
    else
      var _ :- Require(d.requests[q].state == READY && d.requests[q].ready == Some(r), REQUEST_NOT_READY);
      var _ :- Require(!busy, REQUEST_BUSY);
      Ok(Started(d, q, r, run).(
         requests := d.requests[q := d.requests[q].(state := SUBMITTED)], submitted := d.submitted + {r}))
  }

  // ---- results ----

  predicate HasRun(d: Desk, b: Id) {
    b in d.bundles && d.bundles[b].run in d.runs
  }

  function RunOf(d: Desk, b: Id): Run
    requires HasRun(d, b)
  {
    d.runs[d.bundles[b].run]
  }

  /** The result of the newest run of a request whose draft has not changed since, in its newest bundle. */
  predicate IsCurrent(d: Desk, b: Id) {
    && HasRun(d, b) && RunOf(d, b).request in d.requests && RunOf(d, b).revision in d.revisions
    && (forall k | k in d.runs && d.runs[k].request == RunOf(d, b).request :: d.runs[k].number <= RunOf(d, b).number)
    && d.requests[RunOf(d, b).request].version == d.revisions[RunOf(d, b).revision].version
    && (forall c | c in d.bundles && d.bundles[c].run == d.bundles[b].run ::
        d.bundles[c].version <= d.bundles[b].version)
  }

  /** Its run succeeded, and it may be shown as a whole. */
  predicate IsReady(d: Desk, b: Id) {
    HasRun(d, b) && RunOf(d, b).succeeded && d.bundles[b].complete && d.bundles[b].normal
  }

  /** A new bundle takes the next version of its run. */
  function Seal(d: Desk, run: Id, b: Id, manifest: nat, complete: bool, normal: bool): Desk
    requires b !in d.bundles && run in d.runs
  {
    d.(bundles := d.bundles[b := Bundle(run, NextVersion(d, run), manifest, complete, normal)])
  }

  function NextVersion(d: Desk, run: Id): nat {
    1 + MaxOf(Versions(d, run))
  }

  function Versions(d: Desk, run: Id): set<nat> {
    set c | c in d.bundles && d.bundles[c].run == run :: d.bundles[c].version
  }

  /** The greatest member of a set, or zero. */
  function MaxOf(s: set<nat>): (m: nat)
    ensures forall x | x in s :: x <= m
    ensures m == 0 || m in s
  {
    if s == {} then 0
    else
      Bounded(s);
      var m: nat :| Greatest(s, m);
      m
  }

  predicate Greatest(s: set<nat>, m: nat) {
    m in s && forall x | x in s :: x <= m
  }

  lemma {:induction false} Bounded(s: set<nat>)
    requires s != {}
    ensures exists m: nat :: Greatest(s, m)
    decreases s
  {
    var y: nat :| y in s;
    if s == {y} {
      assert Greatest(s, y);
    } else {
      Bounded(s - {y});
      var m: nat :| Greatest(s - {y}, m);
      assert s == s - {y} + {y};
      assert Greatest(s, if m < y then y else m);
    }
  }

  datatype Action = Accept | Rework | Approve | Reject

  function TargetOf(action: Action): ReviewState {
    match action
    case Accept => AWAITING_ADMIN
    case Rework => CHANGES_REQUESTED
    case Approve => APPROVED
    case Reject => REJECTED
  }

  function ReviewOf(d: Desk, b: Id): Option<Review> {
    if b in d.reviews then Some(d.reviews[b]) else None
  }

  /** The states from which an action is allowed; `None` is a result nobody decided on. */
  predicate MayFollow(review: Option<Review>, action: Action) {
    match action
    case Accept => review.None?
    case Rework => review.None? || review.value.state == REJECTED
    case Approve => review.Some? && review.value.state == AWAITING_ADMIN
    case Reject => review.Some? && review.value.state == AWAITING_ADMIN
  }

  function Decided(review: Option<Review>, action: Action, actor: Id, manifest: nat): Review {
    var before := if review.Some? then review.value else Review(TargetOf(action), None, None, manifest);
    before.(state := TargetOf(action),
    acceptedBy := if action.Accept? then Some(actor) else before.acceptedBy,
    decidedBy := if action.Approve? || action.Reject? then Some(actor) else before.decidedBy)
  }

  /** The review row and its pin after a decision: what waits for an administrator is pinned. */
  function Reviewed(d: Desk, b: Id, action: Action, actor: Id, manifest: nat): Desk {
    d.(
    reviews := d.reviews[b := Decided(ReviewOf(d, b), action, actor, manifest)],
    pinned := if action.Accept? then d.pinned + {b} else d.pinned - {b})
  }

  /** The owner decides first, an administrator afterwards. */
  predicate MayDecide(d: Desk, actor: Id, q: Id, action: Action)
    requires q in d.requests
  {
    if action.Approve? || action.Reject? then actor in d.admins else d.requests[q].owner == actor
  }

  /** One decision on a result. `verified` is the verdict on the bundle's files; `sameFeedback` marks the repetition of
      a refusal; `explained` says that feedback was given. */
  function Decide(
    d: Desk, actor: Id, b: Id, action: Action, manifest: nat, verified: Result<()>, sameFeedback: bool, explained: bool)
    : Result<Desk>
  {
    var _ :- Require(HasRun(d, b) && RunOf(d, b).request in d.requests, NOT_FOUND);
    var q := RunOf(d, b).request;
    var _ :- Require(MayDecide(d, actor, q, action), ACCESS_DENIED);
    var _ :- Require(manifest == d.bundles[b].manifest, RESULT_CHANGED);
    var review := ReviewOf(d, b);
    if review.Some? && review.value.state == TargetOf(action) && (action.Accept? || action.Approve? || sameFeedback)
      then Ok(d)
    else
      var _ :- Require(IsCurrent(d, b), RESULT_CHANGED);
      var _ :- Require(IsReady(d, b), RESULT_NOT_READY);
      var _ :- verified;
      var _ :- Require(MayFollow(review, action), STATE_CONFLICT);
      var _ :- Require(action.Accept? || action.Approve? || explained, INVALID_INPUT);
      var saved :- if action.Rework? then Save(d, actor, q, d.requests[q].version) else Ok(d);
      Ok(Reviewed(saved, b, action, actor, manifest))
  }

  /** Restoring a backup sends every request back to a new draft. */
  function Restore(d: Desk): Desk {
    d.(requests := map q | q in d.requests ::
      d.requests[q].(version := d.requests[q].version + 1, state := DRAFT, ready := None))
  }

  // ---- every step ----

  datatype Step =
    | OpenStep(q: Id, owner: Id)
    | SaveStep(actor: Id, q: Id, expected: nat)
    | ConfirmStep(actor: Id, q: Id, expected: nat, config: nat, base: nat, complete: bool, r: Id)
    | SubmitStep(actor: Id, q: Id, r: Id, busy: bool, run: Id)
    | RetryStep(previous: Id, run: Id)
    | SucceedStep(run: Id)
    | SealStep(run: Id, b: Id, manifest: nat, complete: bool, normal: bool)
    | DecideStep(
        actor: Id, b: Id, action: Action, manifest: nat, verified: Result<()>, sameFeedback: bool, explained: bool)
    | AccountsStep(admins: set<Id>)

  function Committed(d: Desk, r: Result<Desk>): Desk {
    match r
    case Ok(after) => after
    case Err(_) => d
  }

  /** One step; identifiers of new rows are new. */
  function Apply(d: Desk, step: Step): Desk {
    match step
    case OpenStep(q, owner) =>
      if q in d.requests then d else d.(requests := d.requests[q := WorkRequest(owner, 1, DRAFT, None)])
    case SaveStep(actor, q, expected) => Committed(d, Save(d, actor, q, expected))
    case ConfirmStep(actor, q, expected, config, base, complete, r) =>
      if r in d.revisions then d else Committed(d, Confirm(d, actor, q, expected, config, base, complete, r))
    case SubmitStep(actor, q, r, busy, run) =>
      if run in d.runs then d else Committed(d, Submit(d, actor, q, r, busy, run))
    case RetryStep(previous, run) =>
      if previous !in d.runs || run in d.runs then d
      else Started(d, d.runs[previous].request, d.runs[previous].revision, run)
    case SucceedStep(run) =>
      if run in d.runs then d.(runs := d.runs[run := d.runs[run].(succeeded := true)]) else d
    case SealStep(run, b, manifest, complete, normal) =>
      if b in d.bundles || run !in d.runs then d else Seal(d, run, b, manifest, complete, normal)
    case DecideStep(actor, b, action, manifest, verified, sameFeedback, explained) =>
      Committed(d, Decide(d, actor, b, action, manifest, verified, sameFeedback, explained))
    case AccountsStep(admins) => d.(admins := admins)
  }

  function Play(d: Desk, steps: seq<Step>): Desk {
    if steps == [] then d else Apply(Play(d, steps[..|steps| - 1]), steps[|steps| - 1])
  }

  predicate Empty(d: Desk) {
    d == Desk(map[], map[], {}, map[], map[], map[], {}, d.admins)
  }

  // ---- the invariant ----

  /** What is ready is a revision of the draft as it is now. */
  predicate RequestFits(d: Desk, q: Id) {
    q in d.requests ==>
      && (d.requests[q].ready.Some? ==> OfDraft(d, q, d.requests[q].ready.value))
      && (d.requests[q].state != DRAFT ==> d.requests[q].ready.Some?)
  }

  predicate RevisionFits(d: Desk, r: Id) {
    r in d.revisions ==>
      && d.revisions[r].request in d.requests
      && d.revisions[r].version <= d.requests[d.revisions[r].request].version
      && forall x | x in d.revisions && x != r && d.revisions[x].request == d.revisions[r].request ::
           d.revisions[x].version != d.revisions[r].version
  }

  predicate RunFits(d: Desk, i: Id) {
    i in d.runs ==>
      && d.runs[i].revision in d.revisions && d.revisions[d.runs[i].revision].request == d.runs[i].request
      && d.runs[i].request in d.requests && d.runs[i].number < |d.runs|
      && forall k | k in d.runs && k != i :: d.runs[k].number != d.runs[i].number
  }

  /** Two bundles of one run do not share a version. */
  predicate BundleFits(d: Desk, b: Id) {
    b in d.bundles ==>
      && HasRun(d, b)
      && forall c | c in d.bundles && c != b && d.bundles[c].run == d.bundles[b].run ::
           d.bundles[c].version != d.bundles[b].version
  }

  /** What waits for an administrator was accepted by the owner, and it is pinned; what is approved was also decided
      on. */
  predicate ReviewFits(d: Desk, b: Id) {
    && (b in d.pinned <==> b in d.reviews && d.reviews[b].state == AWAITING_ADMIN)
    && (b in d.reviews ==>
          && HasRun(d, b) && RunOf(d, b).request in d.requests && d.reviews[b].manifest == d.bundles[b].manifest
          && (d.reviews[b].state in {AWAITING_ADMIN, APPROVED, REJECTED} ==>
                d.reviews[b].acceptedBy == Some(d.requests[RunOf(d, b).request].owner) && IsReady(d, b))
          && (d.reviews[b].state in {APPROVED, REJECTED} ==> d.reviews[b].decidedBy.Some?))
  }

  ghost predicate Orderly(d: Desk) {
    && (forall q {:trigger RequestFits(d, q)} :: RequestFits(d, q))
    && (forall r {:trigger RevisionFits(d, r)} :: RevisionFits(d, r))
    && (forall i {:trigger RunFits(d, i)} :: RunFits(d, i))
    && (forall b {:trigger BundleFits(d, b)} :: BundleFits(d, b))
    && (forall b {:trigger ReviewFits(d, b)} :: ReviewFits(d, b))
  }

  /** A new run of a confirmed revision is numbered apart from all others. */
  lemma StartedRuns(d: Desk, q: Id, r: Id, run: Id)
    requires Orderly(d) && q in d.requests && r in d.revisions && d.revisions[r].request == q && run !in d.runs
    ensures forall i :: RunFits(Started(d, q, r, run), i)
  {
    var e := Started(d, q, r, run);
    forall i ensures RunFits(e, i) {
      assert RunFits(d, i);
      forall k | k in d.runs ensures d.runs[k].number < |d.runs| {
        assert RunFits(d, k);
      }
    }
  }

  lemma DraftKeeps(d: Desk, step: Step)
    requires Orderly(d) && (step.OpenStep? || step.SaveStep? || step.AccountsStep?)
    ensures Orderly(Apply(d, step))
  {
    hide Decide, Confirm, Submit, Seal, Started;
    var e := Apply(d, step);
    forall q ensures RequestFits(e, q) {
      assert RequestFits(d, q);
    }
    forall r ensures RevisionFits(e, r) {
      assert RevisionFits(d, r);
    }
    forall i ensures RunFits(e, i) {
      assert RunFits(d, i);
    }
    forall b ensures BundleFits(e, b) && ReviewFits(e, b) {
      assert BundleFits(d, b) && ReviewFits(d, b);
    }
  }

  lemma ConfirmKeeps(d: Desk, step: Step)
    requires Orderly(d) && step.ConfirmStep?
    ensures Orderly(Apply(d, step))
  {
    hide Decide, Submit;
    var e := Apply(d, step);
    forall q ensures RequestFits(e, q) {
      assert RequestFits(d, q);
    }
    forall r ensures RevisionFits(e, r) {
      assert RevisionFits(d, r);
    }
    forall i ensures RunFits(e, i) {
      assert RunFits(d, i);
    }
    forall b ensures BundleFits(e, b) && ReviewFits(e, b) {
      assert BundleFits(d, b) && ReviewFits(d, b);
    }
  }

  lemma SubmitKeeps(d: Desk, step: Step)
    requires Orderly(d) && step.SubmitStep?
    ensures Orderly(Apply(d, step))
  {
    hide Decide, Confirm;
    var e := Apply(d, step);
    if e != d {
      StartedRuns(d, step.q, step.r, step.run);
      forall q ensures RequestFits(e, q) {
        assert RequestFits(d, q);
      }
      forall r ensures RevisionFits(e, r) {
        assert RevisionFits(d, r);
      }
      forall i ensures RunFits(e, i) {
        assert RunFits(Started(d, step.q, step.r, step.run), i);
      }
      forall b ensures BundleFits(e, b) && ReviewFits(e, b) {
        assert BundleFits(d, b) && ReviewFits(d, b);
      }
    }
  }

  /** What is ready stays a revision of the present draft, and a draft is confirmed once. */
  lemma RevisionKeeps(d: Desk, step: Step)
    requires Orderly(d) && (step.ConfirmStep? || step.SubmitStep?)
    ensures Orderly(Apply(d, step))
  {
    hide Apply, Orderly;
    if step.ConfirmStep? {
      ConfirmKeeps(d, step);
    } else {
      SubmitKeeps(d, step);
    }
  }

  lemma RetryKeeps(d: Desk, step: Step)
    requires Orderly(d) && (step.RetryStep? || step.SucceedStep?)
    ensures Orderly(Apply(d, step))
  {
    hide Decide, Confirm, Submit;
    var e := Apply(d, step);
    if step.RetryStep? && e != d {
      assert RunFits(d, step.previous);
      StartedRuns(d, d.runs[step.previous].request, d.runs[step.previous].revision, step.run);
    }
    forall q ensures RequestFits(e, q) {
      assert RequestFits(d, q);
    }
    forall r ensures RevisionFits(e, r) {
      assert RevisionFits(d, r);
    }
    forall i ensures RunFits(e, i) {
      assert RunFits(d, i);
    }
    forall b ensures BundleFits(e, b) && ReviewFits(e, b) {
      assert BundleFits(d, b) && ReviewFits(d, b);
    }
  }

  lemma SealKeeps(d: Desk, step: Step)
    requires Orderly(d) && step.SealStep?
    ensures Orderly(Apply(d, step))
  {
    hide Decide, Confirm, Submit, NextVersion;
    var e := Apply(d, step);
    SealIsNewer(d, step.run);
    forall q ensures RequestFits(e, q) {
      assert RequestFits(d, q);
    }
    forall r ensures RevisionFits(e, r) {
      assert RevisionFits(d, r);
    }
    forall i ensures RunFits(e, i) {
      assert RunFits(d, i);
    }
    forall b ensures BundleFits(e, b) && ReviewFits(e, b) {
      assert BundleFits(d, b) && ReviewFits(d, b);
    }
  }

  /** The next version is above all versions of the run. */
  lemma SealIsNewer(d: Desk, run: Id)
    ensures forall c | c in d.bundles && d.bundles[c].run == run :: d.bundles[c].version < NextVersion(d, run)
  {
    forall c | c in d.bundles && d.bundles[c].run == run ensures d.bundles[c].version < NextVersion(d, run) {
      assert d.bundles[c].version in Versions(d, run);
    }
  }

  /** The decision may be entered into the review row. */
  predicate MayEnter(d: Desk, b: Id, action: Action, actor: Id, manifest: nat) {
    && IsReady(d, b) && RunOf(d, b).request in d.requests && manifest == d.bundles[b].manifest
    && MayFollow(ReviewOf(d, b), action) && MayDecide(d, actor, RunOf(d, b).request, action)
  }

  lemma EnteringKeeps(d: Desk, b: Id, action: Action, actor: Id, manifest: nat)
    requires Orderly(d) && MayEnter(d, b, action, actor, manifest)
    ensures Orderly(Reviewed(d, b, action, actor, manifest))
  {
    var e := Reviewed(d, b, action, actor, manifest);
    forall q ensures RequestFits(e, q) {
      assert RequestFits(d, q);
    }
    forall r ensures RevisionFits(e, r) {
      assert RevisionFits(d, r);
    }
    forall i ensures RunFits(e, i) {
      assert RunFits(d, i);
    }
    forall c ensures BundleFits(e, c) && ReviewFits(e, c) {
      assert BundleFits(d, c) && ReviewFits(d, c);
    }
  }

  lemma DecisionKeeps(d: Desk, step: Step)
    requires Orderly(d) && step.DecideStep?
    ensures Orderly(Apply(d, step))
  {
    if Apply(d, step) != d {
      var q := RunOf(d, step.b).request;
      if step.action.Rework? {
        var saving := SaveStep(step.actor, q, d.requests[q].version);
        DraftKeeps(d, saving);
        EnteringKeeps(Apply(d, saving), step.b, step.action, step.actor, step.manifest);
      } else {
        EnteringKeeps(d, step.b, step.action, step.actor, step.manifest);
      }
    }
  }

  lemma StepKeeps(d: Desk, step: Step)
    requires Orderly(d)
    ensures Orderly(Apply(d, step))
  {
    hide Apply, Orderly;
    if step.DecideStep? {
      DecisionKeeps(d, step);
    } else if step.RetryStep? || step.SucceedStep? {
      RetryKeeps(d, step);
    } else if step.SealStep? {
      SealKeeps(d, step);
    } else if step.ConfirmStep? || step.SubmitStep? {
      RevisionKeeps(d, step);
    } else {
      DraftKeeps(d, step);
    }
  }

  lemma {:induction false} PlayKeeps(d: Desk, steps: seq<Step>)
    requires Orderly(d)
    ensures Orderly(Play(d, steps))
  {
    hide Apply;
    if steps != [] {
      PlayKeeps(d, steps[..|steps| - 1]);
      StepKeeps(Play(d, steps[..|steps| - 1]), steps[|steps| - 1]);
    }
  }

  // ---- what never comes back ----

  predicate RunGrows(before: Run, after: Run) {
    after == before.(succeeded := after.succeeded) && (before.succeeded ==> after.succeeded)
  }

  /** What a later state keeps of an earlier one: rows stay, runs may succeed, drafts only move on. */
  predicate Grows(d: Desk, e: Desk) {
    && (forall b | b in d.bundles :: b in e.bundles && e.bundles[b] == d.bundles[b])
    && (forall r | r in d.revisions :: r in e.revisions && e.revisions[r] == d.revisions[r])
    && (forall i | i in d.runs :: i in e.runs && RunGrows(d.runs[i], e.runs[i]))
    && (forall q | q in d.requests ::
          q in e.requests && d.requests[q].version <= e.requests[q].version
            && e.requests[q].owner == d.requests[q].owner)
  }

  lemma DraftGrows(d: Desk, step: Step)
    requires step.ConfirmStep? || step.SubmitStep?
    ensures Grows(d, Apply(d, step))
  {
    hide Decide, NextVersion;
  }

  lemma ResultGrows(d: Desk, step: Step)
    requires step.RetryStep? || step.SucceedStep? || step.SealStep?
    ensures Grows(d, Apply(d, step))
  {
    hide Confirm, Submit, NextVersion, Decide, Save;
  }

  lemma DecisionGrows(d: Desk, step: Step)
    requires step.DecideStep?
    ensures Grows(d, Apply(d, step))
  {
    hide Confirm, Submit, NextVersion, IsCurrent, IsReady, MayFollow;
  }

  lemma StepGrows(d: Desk, step: Step)
    ensures Grows(d, Apply(d, step))
  {
    hide Confirm, Submit, Seal, Started, Decide;
    if step.ConfirmStep? || step.SubmitStep? {
      DraftGrows(d, step);
    } else if step.RetryStep? || step.SucceedStep? || step.SealStep? {
      ResultGrows(d, step);
    } else if step.DecideStep? {
      DecisionGrows(d, step);
    }
  }

  /** A result that is not current never becomes current again. */
  lemma StaleStays(d: Desk, e: Desk, b: Id)
    requires Orderly(d) && Grows(d, e) && b in d.bundles && !IsCurrent(d, b)
    ensures b in e.bundles && !IsCurrent(e, b)
  {
    assert BundleFits(d, b) && RunFits(d, d.bundles[b].run);
    var run := RunOf(d, b);
    assert RevisionFits(d, run.revision);
    if exists k | k in d.runs && d.runs[k].request == run.request :: d.runs[k].number > run.number {
      var k :| k in d.runs && d.runs[k].request == run.request && d.runs[k].number > run.number;
      assert RunGrows(d.runs[k], e.runs[k]);
    } else if exists c | c in d.bundles && d.bundles[c].run == d.bundles[b].run ::
      d.bundles[c].version > d.bundles[b].version {
      var c :| c in d.bundles && d.bundles[c].run == d.bundles[b].run && d.bundles[c].version > d.bundles[b].version;
      assert e.bundles[c] == d.bundles[c];
    }
  }

  lemma GrowsOn(d: Desk, e: Desk, f: Desk)
    requires Grows(d, e) && Grows(e, f)
    ensures Grows(d, f)
  {
    forall i | i in d.runs ensures RunGrows(d.runs[i], f.runs[i]) {
      assert RunGrows(d.runs[i], e.runs[i]);
    }
  }

  lemma {:induction false} LaterGrows(start: Desk, steps: seq<Step>, n: nat)
    requires n <= |steps|
    ensures Grows(Play(start, steps[..n]), Play(start, steps))
  {
    hide Apply, Grows;
    if n == |steps| {
      assert steps[..n] == steps;
      SameGrows(Play(start, steps));
    } else {
      var before := steps[..|steps| - 1];
      LaterGrows(start, before, n);
      assert before[..n] == steps[..n];
      StepGrows(Play(start, before), steps[|steps| - 1]);
      GrowsOn(Play(start, steps[..n]), Play(start, before), Play(start, steps));
    }
  }

  lemma SameGrows(d: Desk)
    ensures Grows(d, d)
  {
  }

  lemma PlayGrows(start: Desk, steps: seq<Step>)
    ensures Grows(start, Play(start, steps))
  {
    LaterGrows(start, steps, 0);
    assert steps[..0] == [];
  }

  /** An approval of a result stands in every later state. */
  lemma {:induction false} ApprovalStands(start: Desk, steps: seq<Step>, n: nat, b: Id)
    requires n <= |steps| && b in Play(start, steps[..n]).reviews
             && Play(start, steps[..n]).reviews[b].state == APPROVED
    ensures b in Play(start, steps).reviews && Play(start, steps).reviews[b] == Play(start, steps[..n]).reviews[b]
  {
    if n == |steps| {
      assert steps[..n] == steps;
    } else {
      var before := steps[..|steps| - 1];
      assert before[..n] == steps[..n];
      ApprovalStands(start, before, n, b);
      ApprovalStep(Play(start, before), steps[|steps| - 1], b);
    }
  }

  lemma ApprovalStep(d: Desk, step: Step, b: Id)
    requires b in d.reviews && d.reviews[b].state == APPROVED
    ensures b in Apply(d, step).reviews && Apply(d, step).reviews[b] == d.reviews[b]
  {
  }

  lemma {:induction false} StaleForever(d: Desk, steps: seq<Step>, b: Id)
    requires Orderly(d) && b in d.bundles && !IsCurrent(d, b)
    ensures b in Play(d, steps).bundles && !IsCurrent(Play(d, steps), b)
  {
    hide IsCurrent;
    PlayGrows(d, steps);
    StaleStays(d, Play(d, steps), b);
  }

  /** A request has at most one current result. */
  lemma OneCurrent(start: Desk, steps: seq<Step>, b: Id, c: Id)
    requires Orderly(start)
    ensures var d := Play(start, steps);
            IsCurrent(d, b) && IsCurrent(d, c) && RunOf(d, b).request == RunOf(d, c).request ==> b == c
  {
    var d := Play(start, steps);
    PlayKeeps(start, steps);
    assert BundleFits(d, b);
    if IsCurrent(d, b) && IsCurrent(d, c) && RunOf(d, b).request == RunOf(d, c).request {
      assert RunFits(d, d.bundles[b].run);
    }
  }

  /** Once an owner asked for changes, the old result can neither be accepted nor approved. */
  lemma ReworkEnds(d: Desk, step: Step, steps: seq<Step>)
    requires Orderly(d) && step.DecideStep? && step.action == Rework && IsCurrent(d, step.b) && Apply(d, step) != d
    ensures !IsCurrent(Play(Apply(d, step), steps), step.b)
  {
    DecisionKeeps(d, step);
    StaleForever(Apply(d, step), steps, step.b);
  }

  // ---- the cut made by a restore ----

  /** The revision is of an earlier draft than the present one of its request. */
  predicate Outrun(d: Desk, r: Id) {
    r in d.revisions && d.revisions[r].request in d.requests ==>
      d.revisions[r].version < d.requests[d.revisions[r].request].version
  }

  ghost predicate Cut(d: Desk) {
    Orderly(d) && forall r {:trigger Outrun(d, r)} :: Outrun(d, r)
  }

  lemma RestoreCutsAll(d: Desk)
    requires Orderly(d)
    ensures Cut(Restore(d))
  {
    var e := Restore(d);
    forall q ensures RequestFits(e, q) {
      assert RequestFits(d, q);
    }
    forall r ensures RevisionFits(e, r) && Outrun(e, r) {
      assert RevisionFits(d, r);
    }
    forall i ensures RunFits(e, i) {
      assert RunFits(d, i);
    }
    forall b ensures BundleFits(e, b) && ReviewFits(e, b) {
      assert BundleFits(d, b) && ReviewFits(d, b);
    }
  }

  lemma CutLeavesNone(d: Desk, b: Id)
    requires Cut(d)
    ensures !IsCurrent(d, b)
  {
    if HasRun(d, b) {
      assert RunFits(d, d.bundles[b].run) && Outrun(d, RunOf(d, b).revision);
    }
  }

  /** No result of a revision from before the cut is current in any later state, whenever it was sealed. */
  lemma CutForever(d: Desk, steps: seq<Step>, b: Id)
    requires Cut(d) && IsCurrent(Play(d, steps), b)
    ensures RunOf(Play(d, steps), b).revision !in d.revisions
  {
    var e := Play(d, steps);
    var r := RunOf(e, b).revision;
    PlayKeeps(d, steps);
    PlayGrows(d, steps);
    assert RevisionFits(d, r) && Outrun(d, r) && RunFits(e, e.bundles[b].run);
  }

  /** After a restore no result of a revision confirmed before is current in any later state, whenever it was sealed. */
  lemma RestoreCuts(d: Desk, steps: seq<Step>, b: Id)
    requires Orderly(d) && IsCurrent(Play(Restore(d), steps), b)
    ensures RunOf(Play(Restore(d), steps), b).revision !in d.revisions
  {
    RestoreCutsAll(d);
    CutForever(Restore(d), steps, b);
  }

  // ---- who decided, and in which order ----

  /** The owner confirms the draft as revision `r`. */
  predicate Confirms(d: Desk, step: Step, r: Id, owner: Id) {
    && step.ConfirmStep? && step.r == r && step.complete && r !in d.revisions
    && step.actor == owner && step.q in d.requests && d.requests[step.q].owner == owner
    && Apply(d, step).revisions == d.revisions[r := Revision(step.q, d.requests[step.q].version, step.config,
                                                             step.base)]
  }

  /** The run succeeds. */
  predicate Succeeds(d: Desk, step: Step, run: Id) {
    step == SucceedStep(run) && run in d.runs && !d.runs[run].succeeded
  }

  /** The decision is on a current, complete result of a run that succeeded, by its manifest. */
  predicate Judges(d: Desk, step: Step, b: Id, actor: Id, manifest: nat) {
    && step.DecideStep? && step.b == b && step.verified.Ok? && step.manifest == manifest && step.actor == actor
    && IsCurrent(d, b) && IsReady(d, b) && d.bundles[b].manifest == manifest && b in Apply(d, step).reviews
  }

  /** The owner of the request accepts a result nobody decided on. */
  predicate Accepts(d: Desk, step: Step, b: Id, owner: Id, manifest: nat) {
    && Judges(d, step, b, owner, manifest) && step.action == Accept
    && d.requests[RunOf(d, b).request].owner == owner && b !in d.reviews
    && Apply(d, step).reviews[b].state == AWAITING_ADMIN
  }

  /** An account that is an administrator now approves an accepted result. */
  predicate Approves(d: Desk, step: Step, b: Id, admin: Id, manifest: nat) {
    && Judges(d, step, b, admin, manifest) && step.action == Approve
    && admin in d.admins && b in d.reviews && d.reviews[b].state == AWAITING_ADMIN
    && Apply(d, step).reviews[b].state == APPROVED
  }

  lemma ConfirmOrigin(d: Desk, step: Step, r: Id)
    requires r in Apply(d, step).revisions && r !in d.revisions
    ensures step.ConfirmStep? && Confirms(d, step, r, step.actor)
  {
  }

  lemma SuccessOrigin(d: Desk, step: Step, run: Id)
    requires run in Apply(d, step).runs && Apply(d, step).runs[run].succeeded
    requires !(run in d.runs && d.runs[run].succeeded)
    ensures Succeeds(d, step, run)
  {
  }

  lemma AcceptOrigin(d: Desk, step: Step, b: Id)
    requires b in Apply(d, step).reviews && Apply(d, step).reviews[b].state == AWAITING_ADMIN
    requires !(b in d.reviews && d.reviews[b].state == AWAITING_ADMIN)
    ensures step.DecideStep? && Accepts(d, step, b, step.actor, step.manifest)
  {
  }

  lemma ApproveOrigin(d: Desk, step: Step, b: Id)
    requires b in Apply(d, step).reviews && Apply(d, step).reviews[b].state == APPROVED
    requires !(b in d.reviews && d.reviews[b].state == APPROVED)
    ensures step.DecideStep? && Approves(d, step, b, step.actor, step.manifest)
  {
  }

  predicate ConfirmedAt(start: Desk, steps: seq<Step>, n: nat, r: Id, owner: Id) {
    n < |steps| && Confirms(Play(start, steps[..n]), steps[n], r, owner)
  }

  predicate SucceededAt(start: Desk, steps: seq<Step>, n: nat, run: Id) {
    n < |steps| && Succeeds(Play(start, steps[..n]), steps[n], run)
  }

  predicate AcceptedAt(start: Desk, steps: seq<Step>, n: nat, b: Id, owner: Id, manifest: nat) {
    n < |steps| && Accepts(Play(start, steps[..n]), steps[n], b, owner, manifest)
  }

  predicate ApprovedAt(start: Desk, steps: seq<Step>, n: nat, b: Id, admin: Id, manifest: nat) {
    n < |steps| && Approves(Play(start, steps[..n]), steps[n], b, admin, manifest)
  }

  /** What happened in a part of the steps happened in all of them. */
  lemma Earlier(start: Desk, steps: seq<Step>, n: nat)
    requires n <= |steps|
    ensures forall c: nat, r, owner | ConfirmedAt(start, steps[..n], c, r, owner) ::
              c < n && ConfirmedAt(start, steps, c, r, owner)
    ensures forall s: nat, run | SucceededAt(start, steps[..n], s, run) :: s < n && SucceededAt(start, steps, s, run)
    ensures forall i: nat, b, owner, manifest: nat | AcceptedAt(start, steps[..n], i, b, owner, manifest) ::
              i < n && AcceptedAt(start, steps, i, b, owner, manifest)
    ensures forall k: nat, b, admin, manifest: nat | ApprovedAt(start, steps[..n], k, b, admin, manifest) ::
              k < n && ApprovedAt(start, steps, k, b, admin, manifest)
  {
    hide Confirms, Succeeds, Accepts, Approves;
    assert forall k | 0 <= k < n :: steps[..n][..k] == steps[..k];
  }

  lemma {:induction false} WasConfirmed(start: Desk, steps: seq<Step>, r: Id) returns (n: nat, owner: Id)
    requires r !in start.revisions && r in Play(start, steps).revisions
    ensures ConfirmedAt(start, steps, n, r, owner)
  {
    hide Apply;
    var last := |steps| - 1;
    var before, step := Play(start, steps[..last]), steps[last];
    if r in before.revisions {
      n, owner := WasConfirmed(start, steps[..last], r);
      Earlier(start, steps, last);
    } else {
      ConfirmOrigin(before, step, r);
      n, owner := last, step.actor;
    }
  }

  lemma {:induction false} WasSucceeded(start: Desk, steps: seq<Step>, run: Id) returns (n: nat)
    requires run !in start.runs && run in Play(start, steps).runs && Play(start, steps).runs[run].succeeded
    ensures SucceededAt(start, steps, n, run)
  {
    hide Apply;
    var last := |steps| - 1;
    var before, step := Play(start, steps[..last]), steps[last];
    if run in before.runs && before.runs[run].succeeded {
      n := WasSucceeded(start, steps[..last], run);
      Earlier(start, steps, last);
    } else {
      SuccessOrigin(before, step, run);
      n := last;
    }
  }

  lemma {:induction false} WasAccepted(start: Desk, steps: seq<Step>, b: Id) returns (n: nat, owner: Id, manifest: nat)
    requires b !in start.reviews && b in Play(start, steps).reviews
             && Play(start, steps).reviews[b].state == AWAITING_ADMIN
    ensures AcceptedAt(start, steps, n, b, owner, manifest)
  {
    hide Apply;
    var last := |steps| - 1;
    var before, step := Play(start, steps[..last]), steps[last];
    if b in before.reviews && before.reviews[b].state == AWAITING_ADMIN {
      n, owner, manifest := WasAccepted(start, steps[..last], b);
      Earlier(start, steps, last);
    } else {
      AcceptOrigin(before, step, b);
      n, owner, manifest := last, step.actor, step.manifest;
    }
  }

  lemma {:induction false} WasApproved(start: Desk, steps: seq<Step>, b: Id) returns (n: nat, admin: Id, manifest: nat)
    requires b !in start.reviews && b in Play(start, steps).reviews && Play(start, steps).reviews[b].state == APPROVED
    ensures ApprovedAt(start, steps, n, b, admin, manifest)
  {
    hide Apply;
    var last := |steps| - 1;
    var before, step := Play(start, steps[..last]), steps[last];
    if b in before.reviews && before.reviews[b].state == APPROVED {
      n, admin, manifest := WasApproved(start, steps[..last], b);
      Earlier(start, steps, last);
    } else {
      ApproveOrigin(before, step, b);
      n, admin, manifest := last, step.actor, step.manifest;
    }
  }

  /** Result `b` belongs to this run of revision `r` and has this manifest. */
  predicate ResultOf(d: Desk, b: Id, run: Id, r: Id, manifest: nat) {
    HasRun(d, b) && d.bundles[b].run == run && d.runs[run].revision == r && d.bundles[b].manifest == manifest
  }

  /** The run, the revision and the manifest of a result never change. */
  lemma SameResult(d: Desk, e: Desk, b: Id, run: Id, r: Id, manifest: nat)
    requires Grows(d, e) && ResultOf(d, b, run, r, manifest)
    ensures ResultOf(e, b, run, r, manifest)
  {
    assert RunGrows(d.runs[run], e.runs[run]);
  }

  /** Who confirmed a revision owns its request ever after. */
  lemma ConfirmerOwns(d: Desk, step: Step, e: Desk, r: Id, owner: Id)
    requires Confirms(d, step, r, owner) && Grows(Apply(d, step), e)
    ensures r in e.revisions && e.revisions[r].request in e.requests
            && e.requests[e.revisions[r].request].owner == owner
  {
    assert e.revisions[r] == Apply(d, step).revisions[r];
    assert step.q in Apply(d, step).requests;
  }

  /** The revision behind a run was confirmed by the owner of its request. */
  lemma OwnerConfirmed(start: Desk, steps: seq<Step>, c: nat, run: Id, owner: Id)
    requires Orderly(start) && run in Play(start, steps).runs
    requires ConfirmedAt(start, steps, c, Play(start, steps).runs[run].revision, owner)
    ensures Play(start, steps).runs[run].request in Play(start, steps).requests
    ensures Play(start, steps).requests[Play(start, steps).runs[run].request].owner == owner
  {
    hide Apply, Confirms, Grows;
    PlayKeeps(start, steps);
    assert RunFits(Play(start, steps), run);
    LaterGrows(start, steps, c + 1);
    assert steps[..c + 1][..c] == steps[..c];
    assert Play(start, steps[..c + 1]) == Apply(Play(start, steps[..c]), steps[c]);
    ConfirmerOwns(Play(start, steps[..c]), steps[c], Play(start, steps), Play(start, steps).runs[run].revision, owner);
  }

  /** A run that succeeded is of a revision that was confirmed before. */
  lemma SucceededAfterConfirmed(start: Desk, steps: seq<Step>, s: nat, run: Id) returns (c: nat, owner: Id)
    requires Orderly(start) && SucceededAt(start, steps, s, run)
             && Play(start, steps[..s]).runs[run].revision !in start.revisions
    ensures c < s && ConfirmedAt(start, steps, c, Play(start, steps[..s]).runs[run].revision, owner)
  {
    hide Apply;
    PlayKeeps(start, steps[..s]);
    assert RunFits(Play(start, steps[..s]), run);
    c, owner := WasConfirmed(start, steps[..s], Play(start, steps[..s]).runs[run].revision);
    Earlier(start, steps, s);
  }

  /** What was accepted is the result of a run that had succeeded, of a revision that the same owner had confirmed. */
  lemma AcceptedAfterSuccess(start: Desk, steps: seq<Step>, i: nat, b: Id, owner: Id, manifest: nat)
    returns (c: nat, s: nat, run: Id, r: Id)
    requires Orderly(start) && AcceptedAt(start, steps, i, b, owner, manifest)
    requires RunOf(Play(start, steps[..i]), b).revision !in start.revisions
    ensures c < s < i && ConfirmedAt(start, steps, c, r, owner) && SucceededAt(start, steps, s, run)
    ensures ResultOf(Play(start, steps[..i]), b, run, r, manifest)
  {
    hide Apply, Grows;
    var d := Play(start, steps[..i]);
    run := d.bundles[b].run;
    r := d.runs[run].revision;
    NewRun(start, steps[..i], run);
    s := WasSucceeded(start, steps[..i], run);
    LaterGrows(start, steps[..i], s);
    SameRun(Play(start, steps[..i][..s]), d, run);
    var confirmer: Id;
    c, confirmer := SucceededAfterConfirmed(start, steps[..i], s, run);
    OwnerConfirmed(start, steps[..i], c, run, confirmer);
    Earlier(start, steps, i);
  }

  lemma SameRun(d: Desk, e: Desk, run: Id)
    requires Grows(d, e) && run in d.runs
    ensures run in e.runs && RunGrows(d.runs[run], e.runs[run])
  {
  }

  /** A run of a revision confirmed in these steps was started in them. */
  lemma NewRun(start: Desk, steps: seq<Step>, run: Id)
    requires Orderly(start) && run in Play(start, steps).runs
             && Play(start, steps).runs[run].revision !in start.revisions
    ensures run !in start.runs
  {
    PlayGrows(start, steps);
    assert RunFits(start, run);
  }

  /** When, by whom and on which manifest a result was decided. */
  datatype Decisions = Decisions(
    confirmed: nat, succeeded: nat, accepted: nat, approved: nat, run: Id, revision: Id, owner: Id, admin: Id,
      manifest: nat)

  /** The owner confirmed the revision, then its run succeeded, then the owner accepted the result, then an
      administrator of that moment approved it; both decisions were on one manifest. */
  ghost predicate Chain(start: Desk, steps: seq<Step>, b: Id, x: Decisions) {
    && x.confirmed < x.succeeded < x.accepted < x.approved
    && ConfirmedAt(start, steps, x.confirmed, x.revision, x.owner)
    && SucceededAt(start, steps, x.succeeded, x.run)
    && AcceptedAt(start, steps, x.accepted, b, x.owner, x.manifest)
    && ApprovedAt(start, steps, x.approved, b, x.admin, x.manifest)
    && ResultOf(Play(start, steps), b, x.run, x.revision, x.manifest)
  }

  /** In every reachable state an approved result of a revision confirmed on the way went through the whole chain, in
      this order. From an empty desk that is every revision. */
  lemma ApprovedByBoth(start: Desk, steps: seq<Step>, b: Id)
    requires Orderly(start) && b in Play(start, steps).reviews && Play(start, steps).reviews[b].state == APPROVED
    requires HasRun(Play(start, steps), b) ==> RunOf(Play(start, steps), b).revision !in start.revisions
    ensures exists x :: Chain(start, steps, b, x)
  {
    hide Apply, Grows, Confirms, Succeeds;
    NewResult(start, steps, b);
    var k, admin, manifest := WasApproved(start, steps, b);
    var i, owner, accepted := WasAccepted(start, steps[..k], b);
    Earlier(start, steps, k);
    LaterGrows(start, steps, i);
    LaterGrows(start, steps, k);
    EarlierResult(Play(start, steps[..i]), Play(start, steps), b);
    var c, s, run, r := AcceptedAfterSuccess(start, steps, i, b, owner, accepted);
    SameResult(Play(start, steps[..i]), Play(start, steps), b, run, r, accepted);
    OneManifest(Play(start, steps[..k]), Play(start, steps), b, run, r, accepted, manifest);
    assert Chain(start, steps, b, Decisions(c, s, i, k, run, r, owner, admin, manifest));
  }

  /** A result of a revision confirmed in these steps was sealed and reviewed in them. */
  lemma NewResult(start: Desk, steps: seq<Step>, b: Id)
    requires Orderly(start) && b in Play(start, steps).reviews
    requires HasRun(Play(start, steps), b) ==> RunOf(Play(start, steps), b).revision !in start.revisions
    ensures HasRun(Play(start, steps), b) && b !in start.reviews
  {
    PlayKeeps(start, steps);
    assert ReviewFits(Play(start, steps), b) && ReviewFits(start, b);
    if b in start.reviews {
      PlayGrows(start, steps);
      assert RunFits(start, start.bundles[b].run);
      SameRun(start, Play(start, steps), start.bundles[b].run);
    }
  }

  lemma EarlierResult(d: Desk, e: Desk, b: Id)
    requires Grows(d, e) && HasRun(d, b)
    ensures HasRun(e, b) && RunOf(e, b).revision == RunOf(d, b).revision
  {
    SameRun(d, e, d.bundles[b].run);
  }

  lemma OneManifest(d: Desk, e: Desk, b: Id, run: Id, r: Id, one: nat, other: nat)
    requires Grows(d, e) && ResultOf(e, b, run, r, one) && b in d.bundles && d.bundles[b].manifest == other
    ensures one == other
  {
  }

  // ---- the tables and their services ----

  class Tables {
    var requests: map<Id, WorkRequest>
    var revisions: map<Id, Revision>
    var submitted: set<Id>
    var runs: map<Id, Run>
    var bundles: map<Id, Bundle>
    var reviews: map<Id, Review>
    var pinned: set<Id>
    var admins: set<Id>

    function Rows(): Desk
      reads this
    {
      Desk(requests, revisions, submitted, runs, bundles, reviews, pinned, admins)
    }

    constructor (admins: set<Id>)
      ensures Empty(Rows()) && Rows().admins == admins
    {
      requests, revisions, submitted, runs, bundles, reviews := map[], map[], {}, map[], map[], map[];
      pinned, this.admins := {}, admins;
    }

    method SaveDraft(actor: Id, q: Id, expected: nat) returns (r: Result<()>)
      modifies this`requests
      ensures Agrees(r, old(Rows()), Rows(), Save(old(Rows()), actor, q, expected))
    {
      if q !in requests || requests[q].owner != actor {
        return Err(NOT_FOUND);
      }
      if requests[q].version != expected {
        return Err(VERSION_CONFLICT);
      }
      requests := requests[q := requests[q].(version := requests[q].version + 1, state := DRAFT, ready := None)];
      return Ok(());
    }

    method ConfirmRevision(actor: Id, q: Id, expected: nat, config: nat, base: nat, complete: bool, r: Id)
      returns (result: Result<()>)
      requires r !in revisions && Orderly(Rows())
      modifies this`requests, this`revisions
      ensures Agrees(result, old(Rows()), Rows(), Confirm(old(Rows()), actor, q, expected, config, base, complete, r))
    {
      if q !in requests || requests[q].owner != actor {
        return Err(NOT_FOUND);
      }
      if requests[q].version != expected {
        return Err(VERSION_CONFLICT);
      }
      var existing := set x | x in revisions && OfDraft(Rows(), q, x);
      assert forall x | x in revisions && OfDraft(Rows(), q, x) :: x in existing;
      if existing != {} {
        var x :| x in existing;
        assert RevisionFits(Rows(), x);
        result := if revisions[x].config == config && revisions[x].base == base then Ok(()) else Err(BASIS_CONFLICT);
        return;
      }
      if !complete {
        return Err(SPEC_INCOMPLETE);
      }
      revisions := revisions[r := Revision(q, requests[q].version, config, base)];
      requests := requests[q := requests[q].(state := READY, ready := Some(r))];
      return Ok(());
    }

    method SubmitRevision(actor: Id, q: Id, r: Id, busy: bool, run: Id) returns (result: Result<()>)
      requires run !in runs
      modifies this`requests, this`submitted, this`runs
      ensures Agrees(result, old(Rows()), Rows(), Submit(old(Rows()), actor, q, r, busy, run))
    {
      if q !in requests || requests[q].owner != actor || r !in revisions || revisions[r].request != q {
        return Err(NOT_FOUND);
      }
      if r in submitted {
        return Ok(());
      }
      if requests[q].state != READY || requests[q].ready != Some(r) {
        return Err(REQUEST_NOT_READY);
      }
      if busy {
        return Err(REQUEST_BUSY);
      }
      runs := runs[run := Run(q, r, |runs|, false)];
      submitted := submitted + {r};
      requests := requests[q := requests[q].(state := SUBMITTED)];
      return Ok(());
    }

    method DecideResult(
      actor: Id, b: Id, action: Action, manifest: nat, verified: Result<()>, sameFeedback: bool, explained: bool)
      returns (r: Result<()>)
      modifies this`requests, this`reviews, this`pinned
      ensures var expected := Decide(old(Rows()), actor, b, action, manifest, verified, sameFeedback, explained);
              Agrees(r, old(Rows()), Rows(), expected)
    {
      hide IsCurrent, IsReady, MayFollow;
      if b !in bundles || bundles[b].run !in runs || runs[bundles[b].run].request !in requests {
        return Err(NOT_FOUND);
      }
      var run := runs[bundles[b].run];
      var q := run.request;
      if (action == Approve || action == Reject) && actor !in admins {
        return Err(ACCESS_DENIED);
      }
      if (action == Accept || action == Rework) && requests[q].owner != actor {
        return Err(ACCESS_DENIED);
      }
      if manifest != bundles[b].manifest {
        return Err(RESULT_CHANGED);
      }
      var target := TargetOf(action);
      if b in reviews && reviews[b].state == target && (action == Accept || action == Approve || sameFeedback) {
        return Ok(());
      }
      if !IsCurrent(Rows(), b) {
        return Err(RESULT_CHANGED);
      }
      if !IsReady(Rows(), b) {
        return Err(RESULT_NOT_READY);
      }
      if verified.Err? {
        return verified;
      }
      if !MayFollow(ReviewOf(Rows(), b), action) {
        return Err(STATE_CONFLICT);
      }
      if (action == Rework || action == Reject) && !explained {
        return Err(INVALID_INPUT);
      }
      var review := if b in reviews then reviews[b] else Review(target, None, None, manifest);
      if action == Rework {
        r := SaveDraft(actor, q, requests[q].version);
        if r.Err? {
          return;
        }
      }
      review := review.(state := target);
      if action == Accept {
        review := review.(acceptedBy := Some(actor));
      }
      if action == Approve || action == Reject {
        review := review.(decidedBy := Some(actor));
      }
      reviews := reviews[b := review];
      if target == AWAITING_ADMIN {
        pinned := pinned + {b};
      } else {
        pinned := pinned - {b};
      }
      return Ok(());
    }
  }
}
