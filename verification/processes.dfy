/** How a spawned `rethinkdb` subprocess's `close` event settles the promise that
    waits for it. Both the dump and every import use the same rule:
    `if (code) reject(code) else resolve()`. */
module Processes {

  /** What `close` reports: an exit code, or `null` when a signal ended the process. */
  datatype ExitStatus = Exited(code: int) | Signalled

  /** The code is truthy: a non-zero exit. A signal (code `null`) is not a failure. */
  predicate Failed(e: ExitStatus) {
    e.Exited? && e.code != 0
  }

  datatype Settled = Resolved | Rejected(code: int)

  /** The close handler: reject with the exit code when it is truthy, resolve otherwise. */
  function Settle(e: ExitStatus): (r: Settled)
    ensures r.Resolved? <==> !Failed(e)
    ensures r.Rejected? ==> e == Exited(r.code) && r.code != 0
  {
    if Failed(e) then Rejected(e.code) else Resolved
  }

  /** A process killed by a signal counts as a success. */
  lemma SignalResolves()
    ensures Settle(Signalled) == Resolved
  {
  }
}
