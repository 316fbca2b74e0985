/** Shared vocabulary: node names, time, and the status a node shows on the board. */
module Status {

  type Name = string

  // Time is a number, as the machines take it: an instant is a count from some
  // origin, a duration a count between two instants.
  type Instant = nat
  type Duration = nat

  datatype Option<+T> = None | Some(value: T)

  datatype Status =
    | Pending
    | Waiting(dep: Name)
    | Queued
    | Starting
    | Healthy
    | Reloading
    | Unhealthy
    | Running
    | Done(cached: bool, duration: Duration)
    | Failed(code: int)
    | Exited
    | Backoff(delay: Duration)
    | Stopped
    | Stopping
  {
    /** What counts as ready, for every dependent alike. */
    predicate IsReady() {
      Healthy? || Done?
    }
  }

  function Min(a: nat, b: nat): nat {
    if a <= b then a else b
  }
}
