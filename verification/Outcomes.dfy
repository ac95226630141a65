/** Result types shared by every component. */
module Outcomes {

  datatype Option<+T> = None | Some(value: T)

  /** The codes of the domain errors raised by the modelled services. */
  datatype Error =
    | ACCESS_DENIED
    | PROJECT_ARCHIVED
    | RESULT_NOT_PUBLISHABLE
    | RESULT_CHANGED
    | RESULT_REVIEW_REQUIRED
    | PROJECT_CONFIG_CHANGED
    | BASE_CHANGED
    | CHECKS_INCOMPLETE
    | PUBLICATION_DISABLED
    | SNAPSHOT_CHANGED
    | SANDBOX_REQUIRED
    | NOT_FOUND
    | STATE_CONFLICT
    | PROJECT_BUSY
    | PUBLICATION_EXISTS
    | PROCESS_STATE_UNKNOWN
    | RECOVERY_NOT_READY
    | APPROVAL_INVALID
    | REMOTE_REF_CONFLICT
    | REMOTE_PR_CONFLICT
    | WORKER_LEASE_REQUIRED
    | STALE_WORKER
    | INVALID_RUN_TRANSITION
    | PROCESS_TERMINATION_UNCONFIRMED
    | JOB_CLAIM_CONFLICT
    | IDEMPOTENCY_CONFLICT
    | RUN_ACTIVE
    | INVALID_INPUT
    | WORKSPACE_BRANCH_CHANGED
    | RUN_FINISHED
    | REQUEST_NOT_CONFIRMED
    | REQUEST_RECONFIRM_REQUIRED
    | VERSION_CONFLICT
    | BASIS_CONFLICT
    | SPEC_INCOMPLETE
    | REQUEST_NOT_READY
    | REQUEST_BUSY
    | RESULT_NOT_READY

  datatype Result<+T> = Ok(value: T) | Err(error: Error) {
    predicate IsFailure() {
      Err?
    }

    function PropagateFailure<U>(): Result<U>
      requires Err?
    {
      Err(error)
    }

    function Extract(): T
      requires Ok?
    {
      value
    }
  }

  /** Raises `error` unless the condition holds. */
  function Require(condition: bool, error: Error): Result<()> {
    if condition then Ok(()) else Err(error)
  }

  /** The outcome of a service and the tables after it are what its specification says, and an error leaves the tables
      as they were. */
  predicate Agrees<T(==)>(r: Result<()>, before: T, after: T, expected: Result<T>) {
    match r
    case Ok(_) => expected == Ok(after)
    case Err(e) => expected == Err(e) && after == before
  }
}
