/** Optional values, the exceptions the module lets escape, and a
    failure-compatible result type so that `:-` propagates them as Python
    propagates an exception. */
module Outcomes {

  datatype Option<+T> = None | Some(value: T)

  /** Every way an operation of the module can end in an exception. */
  datatype Error =
    /** `salt.config.client_config` raised: CommandExecutionError */
    | ConfigUnreadable
    /** `url`, `auth`, `auth.user` or `auth.password` missing: CommandExecutionError */
    | ConfigMissing
    /** `raise_for_status()` raised for a reply with this status */
    | HttpError(status: int)
    /** a `KeyError` nobody catches (the token reply) */
    | KeyMissing(key: string)
    /** a `TypeError` or `AttributeError` from a value of the wrong shape */
    | TypeFault
    /** a `NameError` */
    | NameFault(name: string)

  datatype Result<+T> = Ok(value: T) | Err(error: Error) {

    predicate IsFailure() {
      Err?
    }

    function PropagateFailure<U>(): Result<U>
      requires Err?
    {
      Err(error)
    }

    function Extract(): T
      requires Ok?
    {
      value
    }
  }
}
