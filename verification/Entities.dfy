/** The task entity shared by the API server, the scheduler and the workers. */
module Entities {

  datatype Option<+T> = None | Some(value: T)

  predicate IsInt64(x: int) {
    -0x8000_0000_0000_0000 <= x < 0x8000_0000_0000_0000
  }

  /** A time.Duration: a 64-bit count of nanoseconds. */
  type Duration = x: int | -0x8000_0000_0000_0000 <= x < 0x8000_0000_0000_0000

  datatype TaskState =
    | Pending
    | Scheduled
    | Running
    | Retrying
    | Completed
    | Failed
    | Cancelled
    | Timeout

  predicate Terminal(s: TaskState) {
    s.Completed? || s.Failed? || s.Cancelled? || s.Timeout?
  }

  /** One serialized task: the same value is a MySQL row, a sorted-set member and a worker's
      in-memory object.
      `mentions` holds the ids X for which the raw text "id":"X" occurs in the payload or the labels;
      `rest` stands for every field that no decision of the protocol reads. */
  datatype Task = Task(
    id: string,
    queue: string,
    priority: int,
    timeout: Duration,
    maxRetries: int,
    retryCount: int,
    retryBackoff: Duration,
    state: TaskState,
    version: int,
    mentions: set<string>,
    rest: string)
  {
    predicate IsTerminal() {
      Terminal(state)
    }

    predicate CanRetry() {
      retryCount < maxRetries && !IsTerminal()
    }

    /** The pattern that Remove scans for matches the member's text. */
    predicate Matches(taskId: string) {
      id == taskId || taskId in mentions
    }
  }

  function Max(a: int, b: int): int {
    if a < b then b else a
  }

  function Min(a: int, b: int): int {
    if a < b then a else b
  }
}
