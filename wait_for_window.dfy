/**
 * `wait_for_window.py`: the desktop re-scanned every half second until a
 * window title contains the argument or the timeout runs out.
 */
module WaitForWindow {
  import opened Wrappers
  import opened Desktop

  /**
   * A run. `desktop(k)` is the desktop at the `k`-th scan and `clock(k)`
   * the milliseconds elapsed before it. Usage and exit 1 without an
   * argument; exit 1 when the timeout argument is no integer; otherwise
   * scans while the elapsed time is under the timeout, exiting 0 at the
   * first scan that finds a matching title and 1 when time runs out.
   */
  method Run(argv: Argv, desktop: nat -> seq<Window>, clock: nat -> int) returns (exit: int, polls: nat)
    requires PollingClock(clock)
    ensures |argv| < 2 || TimeoutArg(argv, 2).None? ==> exit == 1 && polls == 0
    ensures |argv| >= 2 && TimeoutArg(argv, 2).Some? ==>
      var limit := TimeoutArg(argv, 2).value * 1000;
      (forall k :: 0 <= k < polls ==> clock(k) < limit && FirstTitleMatch(desktop(k), argv[1]).None?) &&
      (exit == 0 <==> clock(polls) < limit) &&
      (exit == 0 ==> FirstTitleMatch(desktop(polls), argv[1]).Some?)
    ensures exit == 0 || exit == 1
  {
    if |argv| < 2 {
      return 1, 0;
    }
    var timeout := TimeoutArg(argv, 2);
    if timeout.None? {
      return 1, 0;
    }
    var limit := timeout.value * 1000;
    polls := 0;
    while clock(polls) < limit
      invariant forall k :: 0 <= k < polls ==> clock(k) < limit && FirstTitleMatch(desktop(k), argv[1]).None?
      decreases limit - clock(polls)
    {
      var found := FindWindow(desktop(polls), argv[1]);
      if found.Some? {
        return 0, polls;
      }
      assert PollStep(clock, polls);
      polls := polls + 1;
    }
    return 1, polls;
  }

  /** With the default timeout a run scans at most 60 times before giving up. */
  lemma DefaultTimeoutScans(clock: nat -> int, k: nat)
    requires PollingClock(clock) && clock(k) < DefaultTimeoutS * 1000
    ensures k < 60
  {
    PollsBounded(clock, DefaultTimeoutS * 1000, k);
  }
}
