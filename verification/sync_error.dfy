/**
 * The error kinds of the s6i_sync layer. Every recoverable failure of a
 * mutex or condition-variable operation is reported as one of these inside
 * a `Result`.
 *
 * The enumeration in error.h stops at `CondVarSignalError`; the condition
 * variable code also reports `InvalidCondVarError` and
 * `CondVarBroadcastError`, so both are members here.
 */
module SyncErrors {

  datatype SyncError =
    // mutex
    | MutexCreationError
    | MutexLockError
    | InvalidMutexError
    // thread (declared, produced by no operation of this layer)
    | ThreadCreationError
    | ThreadJoinError
    | InvalidThreadError
    // condition variable
    | CondVarCreationError
    | InvalidCondVarError
    | CondVarWaitError
    | CondVarSignalError
    | CondVarBroadcastError

  /** The groups the error kinds are declared in. */
  datatype Family = MutexFamily | ThreadFamily | CondVarFamily

  /** The group an error kind belongs to. */
  function FamilyOf(e: SyncError): Family {
    match e
    case MutexCreationError | MutexLockError | InvalidMutexError => MutexFamily
    case ThreadCreationError | ThreadJoinError | InvalidThreadError => ThreadFamily
    case _ => CondVarFamily
  }
}
