/** The rows the publication services read and write, and the guard every
    publication decision and every remote write goes through. */
module PublicationRows {
  import opened Outcomes

  type Id = nat
  type Sha = nat

  datatype Mode = PUSH | PUSH_AND_PR

  /** A publication policy; `version` is the position in the project's history, counted from one. */
  datatype Policy = Policy(version: nat, repository: Id, mode: Mode)

  datatype Snapshot = Snapshot(
    run: Id, project: Id, bundle: Id, bundleVersion: nat, manifest: Sha, baseline: Sha,
    config: nat, tree: Sha, policy: Policy, commit: Sha)

  /** The canonical hash of a snapshot, taken to be injective. */
  datatype Digest = Digest(snapshot: Snapshot)

  datatype PublicationState =
    | PENDING_APPROVAL | APPROVED | PUBLISHING | PUBLISHED | REJECTED
    | INVALIDATED | FAILED | UNKNOWN | PARTIAL

  datatype Stage = PUSH_DISPATCH | PR_DISPATCH | RECONCILE

  datatype Attempt = Attempt(
    stage: Stage, job: Id, finished: bool, failed: bool, confirmed: Option<Sha>, base: Option<Sha>)

  datatype Publication = Publication(
    run: Id, project: Id, snapshot: Snapshot, hash: Digest,
    state: PublicationState, version: nat,
    remoteBranch: Option<Sha>, remotePr: Option<nat>, effects: bool,
    reconciled: bool, abandoned: bool, attempts: seq<Attempt>)
  {
    predicate Live() {
      state !in {REJECTED, INVALIDATED} && !abandoned
    }

    predicate SeenRemotely() {
      effects || remoteBranch.Some? || remotePr.Some?
    }

    predicate SameTarget(other: Publication) {
      && run == other.run && project == other.project
      && snapshot == other.snapshot && hash == other.hash
    }
  }

  datatype Scope = FULL | REMAINING_PR

  /** `starts` counts how often the approval moved its publication to PUBLISHING. */
  datatype Approval = Approval(
    publication: Id, actor: Id, approve: bool, hash: Digest, scope: Scope, valid: bool, starts: nat)

  datatype JobKind = PREPARE | EXECUTE | RECONCILE_JOB

  datatype JobState = QUEUED | RUNNING | DONE | STOPPED | CANCELLED

  /** `subject` is a run for PREPARE and a publication for the other kinds. */
  datatype Job = Job(
    kind: JobKind, subject: Id, project: Id, actor: Id, approval: Option<Id>, state: JobState)
  {
    predicate Pending() {
      state == QUEUED || state == RUNNING
    }
  }

  datatype Write = PushWrite | PrWrite

  /** The process record of one command that writes to the remote. */
  datatype Record = Record(job: Id, publication: Id, write: Write, ended: bool)

  /** What one remote observation reports. */
  datatype Observation = Observation(base: Sha, branch: Option<Sha>, pr: Option<ObservedPr>)

  datatype ObservedPr = ObservedPr(number: nat, head: Sha, draft: bool)

  // ---- rows of the other components that a publication depends on ----

  datatype Check = Check(
    config: nat, passed: bool, exitCode: int, complete: bool, tree: Sha,
    passedCount: Option<nat>, failedCount: Option<nat>)

  datatype ProjectRow = ProjectRow(
    active: bool, config: nat, head: Sha, required: map<Id, bool>, enabled: bool,
    policies: seq<Policy>, sandboxReady: bool)

  datatype RunRow = RunRow(
    project: Id, succeeded: bool, bundle: Option<Id>, baseline: Sha, config: nat, checks: map<Id, Check>)

  datatype BundleRow = BundleRow(
    run: Id, version: nat, manifest: Sha, tree: Sha, baseline: Sha, config: nat,
    complete: bool, normal: bool, verifies: bool, reviewed: Option<Sha>, current: bool)

  /** `retired` are the runs that had publications or effects before the latest restore of a backup. */
  datatype World = World(
    admins: set<Id>, projects: map<Id, ProjectRow>, runs: map<Id, RunRow>, bundles: map<Id, BundleRow>,
      retired: set<Id>)

  /** No result of a retired run is current. */
  predicate RetiredStale(w: World) {
    forall b | b in w.bundles && w.bundles[b].run in w.retired :: !w.bundles[b].current
  }

  /** A policy history numbers its entries 1, 2, 3, ... */
  predicate Numbered(policies: seq<Policy>) {
    forall i | 0 <= i < |policies| :: policies[i].version == i + 1
  }

  function Current(policies: seq<Policy>): Policy
    requires |policies| > 0
  {
    policies[|policies| - 1]
  }

  /** One required command has a passing AFTER check on exactly this tree. `isTest` marks TEST commands. */
  predicate CheckSatisfies(check: Check, config: nat, tree: Sha, isTest: bool) {
    && check.config == config
    && check.passed
    && check.exitCode == 0
    && check.complete
    && check.tree == tree
    && (isTest ==> check.passedCount.Some? && check.passedCount.value > 0 && check.failedCount == Some(0))
  }

  predicate ChecksSatisfied(project: ProjectRow, run: RunRow, tree: Sha) {
    && project.required != map[]
    && forall c | c in project.required ::
      c in run.checks && CheckSatisfies(run.checks[c], run.config, tree, project.required[c])
  }

  /** The shared guard: returns the bundle and the policy a publication may use now. */
  function Conditions(w: World, actor: Id, runId: Id, snapshot: Option<Snapshot>): Result<(Id, Policy)> {
    var _ :- Require(actor in w.admins, ACCESS_DENIED);
    var _ :- Require(runId in w.runs && w.runs[runId].project in w.projects, NOT_FOUND);
    var run := w.runs[runId];
    var project := w.projects[run.project];
    var _ :- Require(project.active, PROJECT_ARCHIVED);
    var _ :- Require(run.succeeded && run.bundle.Some?, RESULT_NOT_PUBLISHABLE);
    var bundleId := if snapshot.Some? then snapshot.value.bundle else run.bundle.value;
    var _ :- Require(bundleId in w.bundles, NOT_FOUND);
    var bundle := w.bundles[bundleId];
    var _ :- Require(bundle.run == runId && Some(bundleId) == run.bundle, RESULT_CHANGED);
    var _ :- Require(
      && (snapshot.Some? ==> snapshot.value.manifest == bundle.manifest)
      && bundle.verifies && bundle.complete && bundle.normal, RESULT_NOT_PUBLISHABLE);
    var _ :- Require(bundle.reviewed == Some(bundle.manifest) && bundle.current, RESULT_REVIEW_REQUIRED);
    var _ :- Require(
      && bundle.baseline == run.baseline && bundle.config == project.config
      && run.config == project.config, PROJECT_CONFIG_CHANGED);
    var _ :- Require(project.head == bundle.baseline, BASE_CHANGED);
    var _ :- Require(ChecksSatisfied(project, run, bundle.tree), CHECKS_INCOMPLETE);
    var _ :- Require(project.enabled && |project.policies| > 0, PUBLICATION_DISABLED);
    var policy := Current(project.policies);
    var _ :- Require(
      snapshot.Some? ==>
        var t := snapshot.value;
        && t.run == runId && t.project == run.project && t.policy == policy
        && t.bundleVersion == bundle.version && t.config == project.config
        && t.baseline == bundle.baseline && t.tree == bundle.tree, SNAPSHOT_CHANGED);
    var _ :- Require(project.sandboxReady, SANDBOX_REQUIRED);
    Ok((bundleId, policy))
  }
}
