/**
 * The renderer's view of the gateway: its state, the last log lines, and
 * the port and token the chat connects with, kept up to date from the
 * events the main process pushes. The answers of the asynchronous queries
 * (`getToken`, `getPort`, `getStatus`) are inputs.
 */
module GatewayHook {
  import opened Wrappers
  import opened GatewayManager

  datatype LogLevel = Info | Warn | ErrorLevel
  datatype GatewayLog = GatewayLog(level: LogLevel, message: string)

  /** A request the hook makes of the main process. */
  datatype Call = GetToken | GetPort | StartGateway | StopGateway | RestartGateway

  datatype View = View(state: GatewayState, logs: seq<GatewayLog>, port: int, token: Option<string>)

  /** How many earlier lines are kept when a new one arrives. */
  const LogKeep := 200
  const InitialPort := 39527

  /** The view before any answer arrives: stopped, no logs, the default port, no token. */
  const Initial := View(Stopped, [], InitialPort, None)

  /** `a` is a suffix of `b`. */
  predicate SuffixOf(a: seq<GatewayLog>, b: seq<GatewayLog>)
  {
    |a| <= |b| && b[|b| - |a|..] == a
  }

  /** `[...prev.slice(-200), log]`: the line is appended after at most the 200 newest earlier ones. */
  function AppendLog(prev: seq<GatewayLog>, log: GatewayLog): (r: seq<GatewayLog>)
    ensures 1 <= |r| <= LogKeep + 1 && r[|r| - 1] == log
    ensures SuffixOf(r, prev + [log])
    ensures |prev| <= LogKeep ==> r == prev + [log]
    ensures |prev| >= LogKeep ==> |r| == LogKeep + 1
  {
    var kept := if |prev| <= LogKeep then prev else prev[|prev| - LogKeep..];
    assert (prev + [log])[|prev| + 1 - (|kept| + 1)..] == kept + [log];
    kept + [log]
  }

  /** The log list after the given lines arrived, oldest first, into an empty list. */
  function Replay(lines: seq<GatewayLog>): (r: seq<GatewayLog>)
    ensures |r| == if |lines| <= LogKeep + 1 then |lines| else LogKeep + 1
    ensures |lines| > 0 ==> r[|r| - 1] == lines[|lines| - 1]
  {
    if |lines| == 0 then [] else AppendLog(Replay(lines[..|lines| - 1]), lines[|lines| - 1])
  }

  /** Appending to a full window drops its oldest line. */
  lemma AppendToWindow(front: seq<GatewayLog>, x: GatewayLog)
    requires |front| > LogKeep
    ensures AppendLog(front[|front| - (LogKeep + 1)..], x) == (front + [x])[|front| + 1 - (LogKeep + 1)..]
  {
    var prev := front[|front| - (LogKeep + 1)..];
    assert prev[|prev| - LogKeep..] == front[|front| - LogKeep..];
    assert (front + [x])[|front| + 1 - (LogKeep + 1)..] == front[|front| - LogKeep..] + [x];
  }

  /** The newest 201 lines of `s` (all of them when fewer). */
  function Newest(s: seq<GatewayLog>): seq<GatewayLog>
  {
    if |s| <= LogKeep + 1 then s else s[|s| - (LogKeep + 1)..]
  }

  /** One line appended to the newest lines so far gives the newest lines of the longer list. */
  lemma NewestStep(front: seq<GatewayLog>, x: GatewayLog)
    ensures AppendLog(Newest(front), x) == Newest(front + [x])
  {
    if |front| > LogKeep {
      AppendToWindow(front, x);
    }
  }

  /** Whatever arrives, the list holds exactly the newest 201 lines (all of them when fewer), in arrival order. */
  lemma {:induction false} ReplayKeepsNewest(lines: seq<GatewayLog>)
    ensures |lines| <= LogKeep + 1 ==> Replay(lines) == lines
    ensures |lines| > LogKeep + 1 ==> Replay(lines) == lines[|lines| - (LogKeep + 1)..]
  {
    ReplayIsNewest(lines);
  }

  /** The replayed list is the newest lines of what arrived, by induction on the arrivals. */
  lemma {:induction false} ReplayIsNewest(lines: seq<GatewayLog>)
    ensures Replay(lines) == Newest(lines)
  {
    if |lines| > 0 {
      var front := lines[..|lines| - 1];
      var x := lines[|lines| - 1];
      ReplayIsNewest(front);
      NewestStep(front, x);
      assert lines == front + [x];
    }
  }

  /**
   * A state-change event: the state follows it; on `ready` the token and
   * port are taken afresh from the answers to the re-fetch.
   */
  function OnStateChanged(v: View, newState: GatewayState, token: Option<string>, port: int): (r: View)
    ensures r.state == newState && r.logs == v.logs
    ensures newState == Ready ==> r.token == token && r.port == port
    ensures newState != Ready ==> r.token == v.token && r.port == v.port
  {
    if newState == Ready then v.(state := newState, token := token, port := port)
    else v.(state := newState)
  }

  /** A state-change event with the answers the re-fetch would give if the state is `ready`. */
  datatype StateEvent = StateEvent(state: GatewayState, token: Option<string>, port: int)

  function ApplyEvents(v: View, events: seq<StateEvent>): View
  {
    if |events| == 0 then v
    else
      var e := events[|events| - 1];
      OnStateChanged(ApplyEvents(v, events[..|events| - 1]), e.state, e.token, e.port)
  }

  /**
   * After a run of state events the view shows the last state; its token
   * and port are those fetched at the last `ready`, or unchanged when none
   * came; the logs are untouched.
   */
  lemma {:induction false} StateFollowsEvents(v: View, events: seq<StateEvent>)
    ensures ApplyEvents(v, events).logs == v.logs
    ensures |events| > 0 ==> ApplyEvents(v, events).state == events[|events| - 1].state
    ensures (forall i :: 0 <= i < |events| ==> events[i].state != Ready) ==>
      ApplyEvents(v, events).token == v.token && ApplyEvents(v, events).port == v.port
    ensures forall i :: 0 <= i < |events| && events[i].state == Ready && (forall j :: i < j < |events| ==> events[j].state != Ready) ==>
      ApplyEvents(v, events).token == events[i].token && ApplyEvents(v, events).port == events[i].port
  {
    if |events| > 0 {
      var front := events[..|events| - 1];
      StateFollowsEvents(v, front);
      assert forall i :: 0 <= i < |front| ==> front[i] == events[i];
    }
  }

  /** A log event: the view's log list grows by the line, bounded. */
  function OnLog(v: View, log: GatewayLog): (r: View)
    ensures r.state == v.state && r.port == v.port && r.token == v.token
    ensures 1 <= |r.logs| <= LogKeep + 1 && r.logs[|r.logs| - 1] == log
    ensures r.logs == AppendLog(v.logs, log)
  {
    v.(logs := AppendLog(v.logs, log))
  }

  /** The view after the given log events, oldest first. */
  function OnLogs(v: View, lines: seq<GatewayLog>): View
  {
    if |lines| == 0 then v else OnLog(OnLogs(v, lines[..|lines| - 1]), lines[|lines| - 1])
  }

  /** From a view without logs, log events leave exactly the newest 201 lines in arrival order, and nothing else changes. */
  lemma {:induction false} OnLogsKeepNewest(v: View, lines: seq<GatewayLog>)
    requires v.logs == []
    ensures OnLogs(v, lines).logs == Newest(lines)
    ensures OnLogs(v, lines).state == v.state && OnLogs(v, lines).port == v.port && OnLogs(v, lines).token == v.token
  {
    if |lines| > 0 {
      var front := lines[..|lines| - 1];
      var x := lines[|lines| - 1];
      OnLogsKeepNewest(v, front);
      NewestStep(front, x);
      assert lines == front + [x];
    }
  }

  /**
   * Mounting: the status answer sets state and port, then the token and
   * port answers; the port answer, arriving last, is the one shown.
   */
  function Mount(v: View, statusState: GatewayState, statusPort: int, token: Option<string>, port: int): (r: View)
    ensures r.state == statusState && r.port == port && r.token == token && r.logs == v.logs
  {
    var afterStatus := v.(state := statusState, port := statusPort);
    afterStatus.(token := token).(port := port)
  }

  /** `start`: the token and port are re-fetched first, then the gateway is asked to start. */
  function Start(v: View, freshToken: Option<string>, freshPort: int): (r: (View, seq<Call>))
    ensures r.0 == v.(token := freshToken, port := freshPort)
    ensures |r.1| == 3 && r.1[2] == StartGateway && GetToken in r.1[..2] && GetPort in r.1[..2]
  {
    var calls := [GetToken, GetPort, StartGateway];
    assert calls[..2] == [GetToken, GetPort];
    (v.(token := freshToken, port := freshPort), calls)
  }
}
