/** What every component shares: options and the roles of the keys it locks. */
module Cache {

  datatype Option<+T> = None | Some(value: T)

  /** Keys are kept apart by role, so two components never touch the same key. */
  datatype Key =
    | QueueHead(queue: nat)
    | QueueTail(queue: nat)
    | Guarded(name: nat)
    | Semaphore(name: nat)
    | Readers(name: nat)
    | Tag(name: nat)

  type Duration = d: nat | d > 0 witness 1

  /** An end that never comes is `None`. */
  predicate Running(ends: Option<nat>, now: nat) {
    ends.None? || now < ends.value
  }

  function EndOf(lease: Option<Duration>, now: nat): Option<nat> {
    if lease.None? then None else Some(now + lease.value)
  }
}
