/**
 * The gateway process supervisor of the main process: its lifecycle states,
 * the choice between an already running (external) gateway and a spawned
 * one, and the health-check failure counter that ends in an error state or
 * a restart after five consecutive failures.
 *
 * Probing the port, spawning and killing the process, timers and the health
 * HTTP request are inputs: each method is given what that I/O produced.
 */
module GatewayManager {
  import opened Wrappers
  import opened Text
  import opened Seqs

  datatype GatewayState = Starting | Ready | Error | Stopped | Restarting

  /** The number of consecutive failed health checks that ends an external gateway or restarts an owned one. */
  const MaxFailures := 5

  /** What one health request produced. */
  datatype HealthResult = Ok200 | HttpStatus(code: int) | TimedOut | RequestError(message: string)

  /** The reason logged for a failed health check. */
  function FailureReason(r: HealthResult): (reason: string)
    ensures r.HttpStatus? || r.Ok200? ==> StartsWith(reason, "HTTP ")
    ensures r.RequestError? ==> reason == r.message
  {
    match r
    case Ok200 => "HTTP 200"
    case HttpStatus(code) => "HTTP " + IntToString(code)
    case TimedOut => "超时"
    case RequestError(message) => message
  }

  /**
   * The message of the `error` event Node emits for a request destroyed
   * before its response, which is what the `timeout` handler's
   * `req.destroy()` does.
   */
  const HangUpMessage := "socket hang up"

  /**
   * The failures one health request reports, in order. A timeout reports
   * itself and then, through the destroyed request's `error` event, the
   * hang-up: two failures.
   */
  function FailureReasons(r: HealthResult): seq<string>
  {
    match r
    case Ok200 => []
    case TimedOut => [FailureReason(r), HangUpMessage]
    case _ => [FailureReason(r)]
  }

  /** The warnings logged for `reasons` reported one after another, starting from `count` failures, with no reset between them. */
  function WarningsFrom(count: nat, reasons: seq<string>): seq<(nat, string)>
    decreases |reasons|
  {
    if |reasons| == 0 then []
    else (if WarnsAt(count + 1) then [(count + 1, reasons[0])] else []) + WarningsFrom(count + 1, reasons[1..])
  }

  /** A failure warning is logged for the first two failures and then every fifth. */
  function WarnsAt(count: nat): (r: bool)
    ensures count in {1, 2, 5, 10, 15} ==> r
    ensures count in {3, 4, 6, 7, 8, 9, 11} ==> !r
  {
    count <= 2 || count % 5 == 0
  }

  /** The entry script candidates under the OpenClaw directory, in the order they are tried. */
  function EntryCandidates(openclawPath: string, sep: string): seq<string>
  {
    [openclawPath + sep + "dist" + sep + "entry.js",
     openclawPath + sep + "dist" + sep + "index.js",
     openclawPath + sep + "openclaw.mjs"]
  }

  function ExistingPath(exists_: string -> bool): string -> Option<string>
  {
    p => if exists_(p) then Some(p) else None
  }

  /**
   * `findEntryScript`: the first candidate that exists; `None` stands for the
   * error thrown when none does.
   */
  function FindEntryScript(openclawPath: string, sep: string, exists_: string -> bool): (r: Option<string>)
    ensures var c := EntryCandidates(openclawPath, sep);
      (r.None? <==> !exists_(c[0]) && !exists_(c[1]) && !exists_(c[2])) &&
      (r.Some? ==> (r == Some(c[0]) && exists_(c[0])) ||
                   (r == Some(c[1]) && !exists_(c[0]) && exists_(c[1])) ||
                   (r == Some(c[2]) && !exists_(c[0]) && !exists_(c[1]) && exists_(c[2])))
  {
    var c := EntryCandidates(openclawPath, sep);
    FirstSomeIsFirst(c, ExistingPath(exists_));
    FirstSome(c, ExistingPath(exists_))
  }

  /**
   * The supervisor's fields: the lifecycle state, whether an owned process
   * is alive, whether the gateway is an external one, the stopping flag,
   * whether the periodic health check runs, the consecutive failure count,
   * whether a stop waits for the process's exit and the kill was sent,
   * whether a restart waits for that stop to finish before it starts again,
   * and the failure warnings logged (count and reason).
   */
  class GatewaySupervisor {
    var state: GatewayState
    var hasProcess: bool
    var externalGateway: bool
    var stopping: bool
    var healthChecking: bool
    var consecutiveFailures: nat
    var awaitingExit: bool
    var killRequested: bool
    var restartPending: bool
    var warnings: seq<(nat, string)>

    constructor()
      ensures state == Stopped && !hasProcess && !externalGateway && !stopping && !healthChecking
      ensures consecutiveFailures == 0 && !awaitingExit && !killRequested && !restartPending && warnings == []
    {
      state := Stopped;
      hasProcess := false;
      externalGateway := false;
      stopping := false;
      healthChecking := false;
      consecutiveFailures := 0;
      awaitingExit := false;
      killRequested := false;
      restartPending := false;
      warnings := [];
    }

    /** `startHealthCheck`: the counter starts again from zero. */
    method StartHealthCheck()
      modifies this
      ensures consecutiveFailures == 0 && healthChecking
      ensures state == old(state) && hasProcess == old(hasProcess) && externalGateway == old(externalGateway)
      ensures stopping == old(stopping) && awaitingExit == old(awaitingExit) && killRequested == old(killRequested)
      ensures warnings == old(warnings) && restartPending == old(restartPending)
    {
      consecutiveFailures := 0;
      healthChecking := true;
    }

    /**
     * `start`. `portInUse` is what probing the port found (a TCP connection
     * and a 200 from `/health`); `entry` is what `findEntryScript` found.
     * Nothing happens when already ready or starting; a gateway already on
     * the port is adopted as external and ready; otherwise the process is
     * spawned, or the state becomes `Error` when there is no entry script.
     */
    method Start(portInUse: bool, entry: Option<string>)
      modifies this
      ensures old(state) == Ready || old(state) == Starting ==>
        state == old(state) && hasProcess == old(hasProcess) && externalGateway == old(externalGateway) &&
        stopping == old(stopping) && healthChecking == old(healthChecking) &&
        consecutiveFailures == old(consecutiveFailures)
      ensures old(state) != Ready && old(state) != Starting ==> !stopping
      ensures old(state) != Ready && old(state) != Starting && portInUse ==>
        externalGateway && state == Ready && hasProcess == old(hasProcess) && healthChecking && consecutiveFailures == 0
      ensures old(state) != Ready && old(state) != Starting && !portInUse && entry.Some? ==>
        !externalGateway && state == Starting && hasProcess && healthChecking && consecutiveFailures == 0
      ensures old(state) != Ready && old(state) != Starting && !portInUse && entry.None? ==>
        !externalGateway && state == Error && hasProcess == old(hasProcess) && healthChecking == old(healthChecking) &&
        consecutiveFailures == old(consecutiveFailures)
      ensures warnings == old(warnings) && awaitingExit == old(awaitingExit) && killRequested == old(killRequested)
      ensures restartPending == old(restartPending)
    {
      if state == Ready || state == Starting {
        return;
      }
      stopping := false;
      state := Starting;
      if portInUse {
        externalGateway := true;
        state := Ready;
        StartHealthCheck();
        return;
      }
      externalGateway := false;
      if entry.None? {
        state := Error;
        return;
      }
      hasProcess := true;
      StartHealthCheck();
    }

    /**
     * The synchronous part of `stop`. The health check stops; an external
     * gateway is only forgotten; with no process the state is `Stopped`;
     * otherwise the process is asked to exit (`killFails` when that throws,
     * which also ends at `Stopped`) and the stop waits for its exit.
     */
    method Stop(killFails: bool)
      modifies this
      ensures stopping && !healthChecking
      ensures old(externalGateway) ==>
        !externalGateway && state == Stopped && hasProcess == old(hasProcess) && !killRequested && !awaitingExit
      ensures !old(externalGateway) && !old(hasProcess) ==> state == Stopped && !hasProcess && !killRequested && !awaitingExit
      ensures !old(externalGateway) && old(hasProcess) && killFails ==> state == Stopped && !hasProcess && !awaitingExit
      ensures !old(externalGateway) && old(hasProcess) && !killFails ==>
        state == old(state) && hasProcess && killRequested && awaitingExit
      ensures !old(externalGateway) ==> externalGateway == old(externalGateway)
      ensures consecutiveFailures == old(consecutiveFailures) && warnings == old(warnings)
      ensures restartPending == old(restartPending)
    {
      stopping := true;
      healthChecking := false;
      killRequested := false;
      awaitingExit := false;
      if externalGateway {
        externalGateway := false;
        state := Stopped;
        return;
      }
      if !hasProcess {
        state := Stopped;
        return;
      }
      if killFails {
        hasProcess := false;
        state := Stopped;
        return;
      }
      killRequested := true;
      awaitingExit := true;
    }

    /**
     * The owned process exited: unexpected while not stopping, which is an
     * error; an awaited exit completes the stop, and a restart waiting for
     * that stop then starts the gateway again (`portInUse` and `entry` are
     * what that start finds).
     */
    method OnProcessExit(portInUse: bool, entry: Option<string>)
      modifies this
      ensures !awaitingExit && !restartPending
      ensures !old(awaitingExit) ==> !hasProcess && consecutiveFailures == old(consecutiveFailures)
      ensures !old(awaitingExit) && !stopping ==> state == Error
      ensures !old(awaitingExit) && stopping ==> state == old(state)
      ensures !old(awaitingExit) ==>
        stopping == old(stopping) && externalGateway == old(externalGateway) && healthChecking == old(healthChecking)
      ensures old(awaitingExit) && !old(restartPending) ==>
        state == Stopped && !hasProcess && stopping == old(stopping) && externalGateway == old(externalGateway) &&
        healthChecking == old(healthChecking) && consecutiveFailures == old(consecutiveFailures)
      ensures old(awaitingExit) && old(restartPending) ==> !stopping
      ensures old(awaitingExit) && old(restartPending) && portInUse ==>
        externalGateway && state == Ready && !hasProcess && healthChecking && consecutiveFailures == 0
      ensures old(awaitingExit) && old(restartPending) && !portInUse && entry.Some? ==>
        !externalGateway && state == Starting && hasProcess && healthChecking && consecutiveFailures == 0
      ensures old(awaitingExit) && old(restartPending) && !portInUse && entry.None? ==>
        !externalGateway && state == Error && !hasProcess && consecutiveFailures == old(consecutiveFailures)
      ensures warnings == old(warnings)
    {
      if !stopping {
        state := Error;
      }
      hasProcess := false;
      if awaitingExit {
        awaitingExit := false;
        state := Stopped;
        if restartPending {
          restartPending := false;
          Start(portInUse, entry);
        }
      }
      restartPending := false;
    }

    /**
     * The process's `error` event: the state is `error` and the process is
     * forgotten, whether or not a stop is under way.
     */
    method OnProcessError()
      modifies this
      ensures state == Error && !hasProcess
      ensures stopping == old(stopping) && externalGateway == old(externalGateway) && healthChecking == old(healthChecking)
      ensures consecutiveFailures == old(consecutiveFailures) && warnings == old(warnings)
      ensures awaitingExit == old(awaitingExit) && killRequested == old(killRequested) && restartPending == old(restartPending)
    {
      state := Error;
      hasProcess := false;
    }

    /**
     * `restart`: `Restarting`, then the stop, then the start once the stop
     * has finished. When the stop ends at once the start follows at once
     * (`portInUse` and `entry` are what it finds); when the owned process
     * must still exit, the start waits for that exit.
     */
    method Restart(killFails: bool, portInUse: bool, entry: Option<string>)
      modifies this
      ensures var waits := !old(externalGateway) && old(hasProcess) && !killFails;
        (waits ==> state == Restarting && hasProcess && awaitingExit && restartPending && stopping && !healthChecking &&
                   !externalGateway && consecutiveFailures == old(consecutiveFailures)) &&
        (!waits ==> !stopping && !awaitingExit && restartPending == old(restartPending)) &&
        (!waits && portInUse ==> externalGateway && state == Ready && healthChecking && consecutiveFailures == 0) &&
        (!waits && !portInUse && entry.Some? ==>
          !externalGateway && state == Starting && hasProcess && healthChecking && consecutiveFailures == 0) &&
        (!waits && !portInUse && entry.None? ==>
          !externalGateway && state == Error && !healthChecking && consecutiveFailures == old(consecutiveFailures))
      ensures warnings == old(warnings)
    {
      state := Restarting;
      Stop(killFails);
      if awaitingExit {
        restartPending := true;
      } else {
        Start(portInUse, entry);
      }
    }

    /**
     * `onHealthCheckFailed`: one more consecutive failure, a warning for the
     * first two and every fifth, and at five or more while not stopping an
     * external gateway becomes `Error` and an owned one restarts
     * (`killFails`, `portInUse` and `entry` are what the restart's stop and
     * start meet).
     */
    method OnHealthCheckFailed(reason: string, killFails: bool, portInUse: bool, entry: Option<string>)
      modifies this
      ensures var n := old(consecutiveFailures) + 1;
        warnings == old(warnings) + (if WarnsAt(n) then [(n, reason)] else [])
      ensures var n := old(consecutiveFailures) + 1;
        n < MaxFailures || old(stopping) ==>
          consecutiveFailures == n && state == old(state) && stopping == old(stopping) && hasProcess == old(hasProcess) &&
          externalGateway == old(externalGateway) && healthChecking == old(healthChecking) &&
          awaitingExit == old(awaitingExit) && restartPending == old(restartPending)
      ensures var n := old(consecutiveFailures) + 1;
        n >= MaxFailures && !old(stopping) && old(externalGateway) ==>
          consecutiveFailures == n && state == Error && stopping == old(stopping) && hasProcess == old(hasProcess) &&
          externalGateway
      ensures var n := old(consecutiveFailures) + 1;
        var waits := old(hasProcess) && !killFails;
        n >= MaxFailures && !old(stopping) && !old(externalGateway) ==>
          (waits ==> state == Restarting && hasProcess && awaitingExit && restartPending && stopping &&
                     !healthChecking && consecutiveFailures == n) &&
          (!waits && portInUse ==> externalGateway && state == Ready && !stopping && healthChecking && consecutiveFailures == 0) &&
          (!waits && !portInUse && entry.Some? ==>
            !externalGateway && state == Starting && hasProcess && !stopping && healthChecking && consecutiveFailures == 0) &&
          (!waits && !portInUse && entry.None? ==> !externalGateway && state == Error && consecutiveFailures == n)
    {
      consecutiveFailures := consecutiveFailures + 1;
      if WarnsAt(consecutiveFailures) {
        warnings := warnings + [(consecutiveFailures, reason)];
      }
      if consecutiveFailures >= MaxFailures && !stopping {
        if externalGateway {
          state := Error;
        } else {
          Restart(killFails, portInUse, entry);
        }
      }
    }

    /**
     * `performHealthCheck` with the health request's result. Nothing happens
     * while stopping; a 200 clears the failure count and makes the state
     * `Ready`; any other answer or an error is one failure, and a timeout is
     * two: the `timeout` handler reports it after destroying the request,
     * and the destroyed request's `error` handler reports the hang-up. The
     * fifth failure in a row ends an external gateway or restarts an owned
     * one.
     */
    method PerformHealthCheck(result: HealthResult, killFails: bool, portInUse: bool, entry: Option<string>)
      modifies this
      ensures old(stopping) ==>
        state == old(state) && consecutiveFailures == old(consecutiveFailures) && warnings == old(warnings) &&
        stopping && hasProcess == old(hasProcess) && externalGateway == old(externalGateway)
      ensures !old(stopping) && result == Ok200 ==>
        consecutiveFailures == 0 && state == Ready && warnings == old(warnings) &&
        hasProcess == old(hasProcess) && externalGateway == old(externalGateway)
      ensures var waits := old(hasProcess) && !killFails;
        !old(stopping) && result != Ok200 &&
        (!result.TimedOut? || old(externalGateway) || old(consecutiveFailures) + 1 < MaxFailures || waits) ==>
          warnings == old(warnings) + WarningsFrom(old(consecutiveFailures), FailureReasons(result))
      ensures var n := old(consecutiveFailures) + |FailureReasons(result)|;
        !old(stopping) && result != Ok200 && n < MaxFailures ==>
          consecutiveFailures == n && state == old(state) && !stopping && hasProcess == old(hasProcess) &&
          externalGateway == old(externalGateway)
      ensures var n := old(consecutiveFailures) + |FailureReasons(result)|;
        !old(stopping) && result != Ok200 && n >= MaxFailures && old(externalGateway) ==>
          consecutiveFailures == n && state == Error && !stopping && externalGateway
      ensures var n := old(consecutiveFailures) + |FailureReasons(result)|;
        var waits := old(hasProcess) && !killFails;
        !old(stopping) && !old(externalGateway) && result != Ok200 &&
        (if result.TimedOut? then n == MaxFailures else n >= MaxFailures) ==>
          (waits ==> state == Restarting && awaitingExit && restartPending && stopping && consecutiveFailures == n) &&
          (!waits && !portInUse && entry.Some? ==> state == Starting && hasProcess && !stopping && consecutiveFailures == 0)
      ensures var waits := old(hasProcess) && !killFails;
        !old(stopping) && !old(externalGateway) && result.TimedOut? && old(consecutiveFailures) + 1 >= MaxFailures ==>
          (waits ==> state == Restarting && awaitingExit && restartPending && stopping &&
                     consecutiveFailures == old(consecutiveFailures) + 2) &&
          (!waits && !portInUse && entry.Some? ==> state == Starting && hasProcess && !stopping && consecutiveFailures == 1)
    {
      if stopping {
        return;
      }
      if result == Ok200 {
        consecutiveFailures := 0;
        if state != Ready {
          state := Ready;
        }
      } else if result == TimedOut {
        ghost var count, reasons := consecutiveFailures, FailureReasons(result);
        assert reasons[1..] == [HangUpMessage] && reasons[1..][1..] == [];
        assert WarningsFrom(count + 1, reasons[1..]) == (if WarnsAt(count + 2) then [(count + 2, HangUpMessage)] else []) + [];
        assert WarningsFrom(count, reasons) ==
          (if WarnsAt(count + 1) then [(count + 1, FailureReason(result))] else []) + WarningsFrom(count + 1, reasons[1..]);
        OnHealthCheckFailed(FailureReason(result), killFails, portInUse, entry);
        OnHealthCheckFailed(HangUpMessage, killFails, portInUse, entry);
      } else {
        assert FailureReasons(result)[1..] == [];
        assert WarningsFrom(consecutiveFailures, FailureReasons(result)) ==
          (if WarnsAt(consecutiveFailures + 1) then [(consecutiveFailures + 1, FailureReason(result))] else []) + [];
        OnHealthCheckFailed(FailureReason(result), killFails, portInUse, entry);
      }
    }
  }

  /**
   * Four failed checks in a row (HTTP 503) leave a running external gateway
   * ready; the fifth puts it in the error state.
   */
  method FiveFailuresEndExternal() returns (afterFour: GatewayState, afterFive: GatewayState)
    ensures afterFour == Ready && afterFive == Error
  {
    var g := new GatewaySupervisor();
    g.Start(true, None);
    var i := 0;
    while i < 4
      invariant 0 <= i <= 4
      invariant g.state == Ready && g.externalGateway && !g.stopping && g.consecutiveFailures == i
    {
      g.PerformHealthCheck(HttpStatus(503), false, true, None);
      i := i + 1;
    }
    afterFour := g.state;
    g.PerformHealthCheck(HttpStatus(503), false, true, None);
    afterFive := g.state;
  }

  /**
   * Each timeout counts twice, so two timeouts in a row leave a running
   * external gateway ready with four failures counted, and the third puts it
   * in the error state.
   */
  method ThirdTimeoutEndsExternal() returns (afterTwo: GatewayState, failures: nat, afterThree: GatewayState)
    ensures afterTwo == Ready && failures == 4 && afterThree == Error
  {
    var g := new GatewaySupervisor();
    g.Start(true, None);
    g.PerformHealthCheck(TimedOut, false, true, None);
    g.PerformHealthCheck(TimedOut, false, true, None);
    afterTwo, failures := g.state, g.consecutiveFailures;
    g.PerformHealthCheck(TimedOut, false, true, None);
    afterThree := g.state;
  }

  /**
   * An owned gateway whose health check fails five times in a row (HTTP 503)
   * is restarting until its process exits, and then starts again with a new
   * process and the failure count back at zero.
   */
  method FiveFailuresRestartOwned() returns (afterFive: GatewayState, afterExit: GatewayState)
    ensures afterFive == Restarting && afterExit == Starting
  {
    var g := new GatewaySupervisor();
    var entry := Some("dist/entry.js");
    g.Start(false, entry);
    var i := 0;
    while i < 4
      invariant 0 <= i <= 4
      invariant g.state == Starting && g.hasProcess && !g.externalGateway && !g.stopping && g.consecutiveFailures == i
    {
      g.PerformHealthCheck(HttpStatus(503), false, false, entry);
      i := i + 1;
    }
    g.PerformHealthCheck(HttpStatus(503), false, false, entry);
    afterFive := g.state;
    g.OnProcessExit(false, entry);
    afterExit := g.state;
    assert g.hasProcess && g.consecutiveFailures == 0;
  }

  /**
   * The third timeout in a row of an owned gateway's health check restarts
   * it: its first report is the fifth failure, and the hang-up that follows
   * finds the stop under way.
   */
  method ThirdTimeoutRestartsOwned() returns (afterTwo: GatewayState, afterThree: GatewayState, failures: nat)
    ensures afterTwo == Starting && afterThree == Restarting && failures == 6
  {
    var g := new GatewaySupervisor();
    var entry := Some("dist/entry.js");
    g.Start(false, entry);
    g.PerformHealthCheck(TimedOut, false, false, entry);
    g.PerformHealthCheck(TimedOut, false, false, entry);
    afterTwo := g.state;
    g.PerformHealthCheck(TimedOut, false, false, entry);
    afterThree, failures := g.state, g.consecutiveFailures;
  }
}
