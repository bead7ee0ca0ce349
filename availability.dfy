/**
 * The availability gate of plugin RPC (_wait_for_host). Host liveness is an
 * oracle: `liveness[0]` is what host.is_available() answers before the loop,
 * `liveness[i]` what it answers after the i-th reload of the host record.
 * Sleeping is a counter of elapsed seconds.
 */
module Availability {

  /** UNAVAILABLE_POLL_INTERVAL, in seconds. */
  const PollInterval: nat := 10

  datatype Wait =
    | Ready(elapsed: nat)         // the host became (or was) available
    | HostTimedOut(elapsed: nat)  // Timeout raised
    | StillBlocked(elapsed: nat)  // still polling when the oracle runs out

  /**
   * The host is seen available at some check before the timeout fires: the
   * first check counts whatever the timeout, the k-th reload only while
   * 10 * k seconds are still short of a non-zero timeout.
   */
  ghost predicate BecomesAvailable(liveness: seq<bool>, timeout: int) {
    exists k :: 0 <= k < |liveness| && liveness[k] && (k == 0 || timeout == 0 || PollInterval * k < timeout)
  }

  /**
   * Returns at once when the host is available; otherwise sleeps 10 seconds
   * per round, raising Timeout at the first round whose elapsed time reaches
   * a non-zero `timeout` (0, like Python's None, waits for ever).
   */
  method WaitForHost(liveness: seq<bool>, timeout: int) returns (w: Wait)
    ensures w.elapsed % PollInterval == 0
    ensures var polls := w.elapsed / PollInterval;
      forall j :: 0 <= j < polls && j < |liveness| ==> !liveness[j]
    ensures w.Ready? <==> BecomesAvailable(liveness, timeout)
    ensures w.Ready? ==> w.elapsed / PollInterval < |liveness| && liveness[w.elapsed / PollInterval]
    ensures w.Ready? ==> (w.elapsed == 0 <==> |liveness| > 0 && liveness[0])
    ensures w.HostTimedOut? ==>
      && timeout != 0 && w.elapsed >= timeout
      && (w.elapsed == PollInterval || w.elapsed - PollInterval < timeout)
      && w.elapsed / PollInterval <= |liveness|
    ensures w.StillBlocked? ==>
      && w.elapsed == PollInterval * |liveness|
      && (timeout == 0 || |liveness| == 0 || w.elapsed < timeout)
    ensures timeout == 0 ==> !w.HostTimedOut?
    ensures !BecomesAvailable(liveness, timeout) ==>
      (w.HostTimedOut? <==> timeout != 0 && |liveness| > 0 && PollInterval * |liveness| >= timeout)
  {
    var elapsed: nat := 0;
    var i: nat := 0;
    while i < |liveness| && !liveness[i]
      invariant i <= |liveness| && elapsed == PollInterval * i
      invariant forall j :: 0 <= j < i ==> !liveness[j]
      invariant timeout != 0 && i > 0 ==> elapsed - PollInterval < timeout
      invariant timeout != 0 ==> elapsed < timeout || i == 0
      decreases |liveness| - i
    {
      // time.sleep(UNAVAILABLE_POLL_INTERVAL)
      elapsed := elapsed + PollInterval;
      if timeout != 0 && elapsed >= timeout {
        return HostTimedOut(elapsed);
      }
      // reload the host record and ask again
      i := i + 1;
    }
    if i == |liveness| {
      return StillBlocked(elapsed);
    }
    return Ready(elapsed);
  }
}
