/** Absent-or-present values and call results shared by every module. */
module Options {
  datatype Option<+T> = None | Some(value: T)

  /** How a call ends: normally, with an error value, by a panic of the calling goroutine, which runs
      deferred calls, or by the death of the process in another goroutine, which runs none. */
  datatype Outcome = Ok | Failed | Panicked | Died

  /** How one run of a closure under `task.DoRetryWithTimeout` ends: with a nil error, with an error
      worth retrying, with one that is not, or by a panic. The closure has a goroutine of its own. */
  datatype Attempt = Finish | Again | Abort | Panic
}
