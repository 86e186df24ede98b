/** What Node's `setTimeout` makes of the delay it is given. Times are milliseconds. */
module NodeTimers {

  const MAX_TIMEOUT_MS := 0x7FFF_FFFF

  /** Delays out of range become 1 ms. */
  function TimerDelay(ms: int): (delay: nat)
    ensures delay == ms <==> 1 <= ms <= MAX_TIMEOUT_MS
  {
    if ms < 1 || ms > MAX_TIMEOUT_MS then 1 else ms
  }
}
