/** Results shared by every component: an optional value, and the two ways a call can end. */
module Outcomes {
  /** Rows, files and digests are named by numbers; a digest is as good as what it is taken of. */
  type Id = nat

  datatype Option<+T> = None | Some(value: T)

  /** The codes of contracts.ErrorCode that the modelled code raises.  `Integrity` stands for
      sqlite3.IntegrityError, which a violated PRIMARY KEY or UNIQUE constraint raises. */
  datatype ErrorCode =
    | InvalidRequest
    | SessionNotFound
    | RunNotFound
    | IdempotencyConflict
    | StateConflict
    | InvalidTransition
    | MessageBusy
    | CapabilityDenied
    | ExecutionFailed
    | SkillNotFound
    | SkillIncompatible
    | Integrity

  datatype Outcome<+T> = Ok(value: T) | Err(error: ErrorCode)
}
