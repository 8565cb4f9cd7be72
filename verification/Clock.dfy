/** Time: one second in nanoseconds, and things that happen at a reading of the clock. */
module Clock {
  const SEC: nat := 1_000_000_000

  datatype Timed<+E> = Timed(now: nat, event: E)

  /** The clock never goes backward. */
  predicate InOrder<E>(calls: seq<Timed<E>>) {
    forall i, j | 0 <= i < j < |calls| :: calls[i].now <= calls[j].now
  }
}
