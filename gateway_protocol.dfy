/**
 * The renderer's gateway WebSocket client: the table of requests awaiting a
 * response, the queue of requests made before the handshake completed, the
 * connect request sent at most once per socket opening, and the reconnect
 * backoff capped at 15 seconds.
 *
 * The socket, the timers, JSON parsing, device signing and the random
 * request ids are inputs: socket events are methods, a frame arrives
 * already parsed (or `None` when it is not JSON), and `ids(k)` is the k-th
 * generated id. Each caller's promise is a ticket; `outcomes` records how
 * it settled.
 */
module GatewayProtocol {
  import opened Wrappers
  import opened Json
  import Text

  /** The socket as the client sees it: none, connecting, open, or closing after `close()`. */
  datatype Socket = NoSocket | Connecting | Open | Closing

  /** How a caller's promise settled. */
  datatype Outcome = Resolved(payload: Json) | Rejected(message: string)

  /** A request frame written to the socket. */
  datatype ReqFrame = ReqFrame(id: string, name: string, params: Json)

  /** A request waiting for the handshake, with the ticket of its caller. */
  datatype Queued = Queued(ticket: nat, name: string, params: Json)

  /** A parsed incoming frame; a missing `payload` is `JNull`, a missing error message `None`. */
  datatype Frame =
    | EventFrame(event: string, payload: Json)
    | ResFrame(id: string, ok: bool, payload: Json, errorMessage: Option<string>)
    | OtherFrame

  /**
   * The request bookkeeping: the pending table (id to ticket), the queue,
   * how each ticket settled, the frames sent, how many ids were drawn and
   * the next ticket.
   */
  datatype Requests = Requests(
    pending: map<string, nat>,
    queue: seq<Queued>,
    outcomes: map<nat, Outcome>,
    sent: seq<ReqFrame>,
    generated: nat,
    nextTicket: nat)

  /** The constructor's options that reach the protocol, with the host's platform and language. */
  datatype ClientOptions = ClientOptions(
    token: Option<string>,
    clientId: Option<string>,
    clientVersion: Option<string>,
    hasSigner: bool,
    platform: string,
    locale: string)

  const InitialBackoffMs: real := 800.0
  const MaxBackoffMs: real := 15000.0
  const BackoffFactor: real := 1.7

  /** One `scheduleReconnect` step of the backoff: times 1.7, at most 15 s. */
  function Grow(b: real): (r: real)
    ensures r <= MaxBackoffMs
    ensures 0.0 <= b <= MaxBackoffMs ==> b <= r
  {
    if b * BackoffFactor < MaxBackoffMs then b * BackoffFactor else MaxBackoffMs
  }

  /** The delay before the n-th reconnect in a row since the last successful handshake. */
  function Backoff(n: nat): (r: real)
    ensures n == 0 ==> r == InitialBackoffMs
    ensures InitialBackoffMs <= r <= MaxBackoffMs
  {
    if n == 0 then InitialBackoffMs else Grow(Backoff(n - 1))
  }

  /** Reconnect delays start at 800 ms, never shrink and never exceed 15 s. */
  lemma {:induction false} BackoffBounded(n: nat)
    ensures InitialBackoffMs <= Backoff(n) <= MaxBackoffMs
    ensures Backoff(n) <= Backoff(n + 1)
  {
    if n > 0 {
      BackoffBounded(n - 1);
    }
  }

  /** Six failures in a row bring the delay to its 15 s cap; five do not. */
  lemma BackoffReachesCap()
    ensures Backoff(5) < MaxBackoffMs
    ensures Backoff(6) == MaxBackoffMs
  {
    assert Backoff(1) == 1360.0;
    assert Backoff(2) == 2312.0;
    assert Backoff(3) == 3930.4;
    assert Backoff(4) == 6681.68;
    assert Backoff(5) == 11358.856;
  }

  /** The frames the drained queue sends, in queue order, under the ids generated from `g` on. */
  function DrainedFrames(q: seq<Queued>, g: nat, ids: nat -> string): (r: seq<ReqFrame>)
    ensures |r| == |q|
    ensures forall i :: 0 <= i < |q| ==> r[i] == ReqFrame(ids(g + i), q[i].name, q[i].params)
  {
    seq(|q|, i requires 0 <= i < |q| => ReqFrame(ids(g + i), q[i].name, q[i].params))
  }

  /** The pending table after registering the drained requests one after another. */
  function Registered(p: map<string, nat>, q: seq<Queued>, g: nat, ids: nat -> string): map<string, nat>
  {
    if |q| == 0 then p
    else Registered(p, q[..|q| - 1], g, ids)[ids(g + |q| - 1) := q[|q| - 1].ticket]
  }

  /** Draining one more request appends its frame and registers its id. */
  lemma DrainStep(p: map<string, nat>, q: seq<Queued>, g: nat, ids: nat -> string, i: nat)
    requires i < |q|
    ensures DrainedFrames(q[..i + 1], g, ids) == DrainedFrames(q[..i], g, ids) + [ReqFrame(ids(g + i), q[i].name, q[i].params)]
    ensures Registered(p, q[..i + 1], g, ids) == Registered(p, q[..i], g, ids)[ids(g + i) := q[i].ticket]
  {
    assert q[..i + 1][..i] == q[..i];
  }

  /** Every drained request is pending under its id unless a later drained request drew the same id. */
  lemma {:induction false} RegisteredHolds(p: map<string, nat>, q: seq<Queued>, g: nat, ids: nat -> string, i: nat)
    requires i < |q|
    requires var f := DrainedFrames(q, g, ids); forall j :: i < j < |q| ==> f[j].id != f[i].id
    ensures ids(g + i) in Registered(p, q, g, ids) && Registered(p, q, g, ids)[ids(g + i)] == q[i].ticket
  {
    var f := DrainedFrames(q, g, ids);
    if i < |q| - 1 {
      var front := q[..|q| - 1];
      var f' := DrainedFrames(front, g, ids);
      assert forall j :: 0 <= j < |front| ==> f'[j].id == f[j].id;
      assert f[|q| - 1].id != f[i].id;
      RegisteredHolds(p, front, g, ids, i);
    }
  }

  /** Entries under an id no drained request drew stay as they were. */
  lemma {:induction false} RegisteredKeeps(p: map<string, nat>, q: seq<Queued>, g: nat, ids: nat -> string, id: string)
    requires var f := DrainedFrames(q, g, ids); forall j :: 0 <= j < |q| ==> f[j].id != id
    ensures (id in Registered(p, q, g, ids)) == (id in p)
    ensures id in p ==> Registered(p, q, g, ids)[id] == p[id]
  {
    if |q| > 0 {
      var front := q[..|q| - 1];
      var f, f' := DrainedFrames(q, g, ids), DrainedFrames(front, g, ids);
      assert forall j :: 0 <= j < |front| ==> f'[j] == f[j];
      assert f[|q| - 1].id != id;
      RegisteredKeeps(p, front, g, ids, id);
    }
  }

  /** Every ticket in `tickets` rejected with `message`; the other settlements kept. */
  function RejectTickets(outcomes: map<nat, Outcome>, tickets: set<nat>, message: string): (r: map<nat, Outcome>)
    ensures r.Keys == outcomes.Keys + tickets
    ensures forall t :: t in tickets ==> r[t] == Rejected(message)
    ensures forall t :: t in outcomes && t !in tickets ==> r[t] == outcomes[t]
  {
    map t | t in outcomes.Keys + tickets :: if t in tickets then Rejected(message) else outcomes[t]
  }

  /** Every queued ticket rejected with `message`, in queue order. */
  function RejectQueue(outcomes: map<nat, Outcome>, queue: seq<Queued>, message: string): (r: map<nat, Outcome>)
    ensures r.Keys == outcomes.Keys + (set i | 0 <= i < |queue| :: queue[i].ticket)
  {
    if |queue| == 0 then outcomes
    else
      var front := queue[..|queue| - 1];
      assert (set i | 0 <= i < |queue| :: queue[i].ticket) ==
             (set i | 0 <= i < |front| :: front[i].ticket) + {queue[|queue| - 1].ticket} by {
        assert forall i :: 0 <= i < |front| ==> front[i] == queue[i];
      }
      RejectQueue(outcomes, front, message)[queue[|queue| - 1].ticket := Rejected(message)]
  }

  /** Rejecting the queue settles every queued ticket as rejected, and only those. */
  lemma {:induction false} RejectQueueSettles(outcomes: map<nat, Outcome>, queue: seq<Queued>, message: string)
    ensures forall i :: 0 <= i < |queue| ==>
      queue[i].ticket in RejectQueue(outcomes, queue, message) &&
      RejectQueue(outcomes, queue, message)[queue[i].ticket] == Rejected(message)
    ensures forall t :: t in outcomes && (forall i :: 0 <= i < |queue| ==> queue[i].ticket != t) ==>
      t in RejectQueue(outcomes, queue, message) && RejectQueue(outcomes, queue, message)[t] == outcomes[t]
    ensures forall t :: t in RejectQueue(outcomes, queue, message) ==>
      t in outcomes || exists i :: 0 <= i < |queue| && queue[i].ticket == t
  {
    if |queue| > 0 {
      var front := queue[..|queue| - 1];
      RejectQueueSettles(outcomes, front, message);
      assert forall i :: 0 <= i < |front| ==> front[i] == queue[i];
    }
  }

  /**
   * `flushPending` then `flushQueue`: every pending and every queued
   * caller is rejected with `message`, both are left empty, and no other
   * settlement changes.
   */
  function Flush(r: Requests, message: string): (f: Requests)
    ensures f.pending == map[] && f.queue == []
    ensures forall id :: id in r.pending ==> r.pending[id] in f.outcomes && f.outcomes[r.pending[id]] == Rejected(message)
    ensures forall i :: 0 <= i < |r.queue| ==>
      r.queue[i].ticket in f.outcomes && f.outcomes[r.queue[i].ticket] == Rejected(message)
    ensures forall t :: t in r.outcomes && t !in r.pending.Values && (forall i :: 0 <= i < |r.queue| ==> r.queue[i].ticket != t) ==>
      t in f.outcomes && f.outcomes[t] == r.outcomes[t]
    ensures forall t :: t in f.outcomes ==>
      t in r.outcomes || t in r.pending.Values || exists i :: 0 <= i < |r.queue| && r.queue[i].ticket == t
    ensures f.sent == r.sent && f.generated == r.generated && f.nextTicket == r.nextTicket
  {
    var rejected := RejectTickets(r.outcomes, r.pending.Values, message);
    RejectQueueSettles(rejected, r.queue, message);
    Requests(map[], [], RejectQueue(rejected, r.queue, message), r.sent, r.generated, r.nextTicket)
  }

  /** How a response settles its caller: the payload, or the error message or `request failed`. */
  function Settlement(res: Frame): (o: Outcome)
    requires res.ResFrame?
    ensures o.Resolved? <==> res.ok
    ensures o.Resolved? ==> o.payload == res.payload
    ensures o.Rejected? && res.errorMessage.Some? ==> o.message == res.errorMessage.value
    ensures o.Rejected? && res.errorMessage.None? ==> o.message == "request failed"
  {
    if res.ok then Resolved(res.payload) else Rejected(res.errorMessage.GetOr("request failed"))
  }

  /** The error a close rejects requests with: `closed (<code>): <reason>`. */
  function CloseMessage(code: int, reason: string): (m: string)
    ensures Text.StartsWith(m, "closed (") && Text.EndsWith(m, "): " + reason)
  {
    "closed (" + Text.IntToString(code) + "): " + reason
  }

  /** The `client` block of `connect`: id `cli` and version `1.0.0` unless configured, in `cli` mode. */
  function ClientIdentity(o: ClientOptions): (c: Json)
    ensures Get(c, "id") == Some(JStr(o.clientId.GetOr("cli")))
    ensures Get(c, "version") == Some(JStr(o.clientVersion.GetOr("1.0.0")))
    ensures Get(c, "mode") == Some(JStr("cli"))
  {
    JObj(map[
      "id" := JStr(o.clientId.GetOr("cli")),
      "version" := JStr(o.clientVersion.GetOr("1.0.0")),
      "platform" := JStr(o.platform),
      "mode" := JStr("cli")])
  }

  /** The device signature `connect` carries: only with a signer and a token, and only when signing succeeded. */
  function DeviceAuth(o: ClientOptions, signature: Option<Json>): (d: Option<Json>)
    ensures d.Some? <==> o.hasSigner && o.token.Some? && o.token.value != "" && signature.Some?
    ensures d.Some? ==> d == signature
  {
    if o.hasSigner && o.token.Some? && o.token.value != "" then signature else None
  }

  /** The `auth` block: the token when it is a non-empty string. */
  function AuthBlock(o: ClientOptions): (a: Option<Json>)
    ensures a.Some? <==> o.token.Some? && o.token.value != ""
  {
    if o.token.Some? && o.token.value != "" then Some(JObj(map["token" := JStr(o.token.value)])) else None
  }

  /** The `connect` parameters object; an `undefined` auth or device is left out of the JSON. */
  function ConnectObject(client: Json, locale: string, auth: Option<Json>, device: Option<Json>): (p: Json)
    ensures Get(p, "minProtocol") == Some(JNum(3)) && Get(p, "maxProtocol") == Some(JNum(3))
    ensures Get(p, "client") == Some(client) && Get(p, "auth") == auth && Get(p, "device") == device
  {
    var base := map[
      "minProtocol" := JNum(3),
      "maxProtocol" := JNum(3),
      "client" := client,
      "role" := JStr("operator"),
      "scopes" := JArr([JStr("operator.admin"), JStr("operator.write")]),
      "caps" := JArr([]),
      "locale" := JStr(locale)];
    var withAuth := if auth.Some? then base["auth" := auth.value] else base;
    JObj(if device.Some? then withAuth["device" := device.value] else withAuth)
  }

  /**
   * The `connect` request's parameters: protocol 3 only, the client
   * identity, the token when there is one, and the device signature when
   * there is one.
   */
  function ConnectParams(o: ClientOptions, signature: Option<Json>): (p: Json)
    ensures Get(p, "minProtocol") == Some(JNum(3)) && Get(p, "maxProtocol") == Some(JNum(3))
    ensures Get(p, "client") == Some(ClientIdentity(o))
    ensures Get(p, "auth").Some? <==> o.token.Some? && o.token.value != ""
    ensures Get(p, "device") == DeviceAuth(o, signature)
  {
    ConnectObject(ClientIdentity(o), o.locale, AuthBlock(o), DeviceAuth(o, signature))
  }

  /** `GatewayClient`: `ids` is the source of request ids, `options` what the constructor was given. */
  class GatewayClient {
    const ids: nat -> string
    const options: ClientOptions
    var socket: Socket
    var closed: bool
    var handshakeCompleted: bool
    var connectNonce: Option<string>
    var connectSent: bool
    var connectTimerArmed: bool
    var connectTicket: Option<nat>
    var backoffMs: real
    var reconnectDelay: Option<real>
    var requests: Requests
    var events: seq<(string, Json)>
    ghost var connectsSinceOpen: nat

    /** The backoff stays within its bounds, and at most one connect is sent per opening. */
    ghost predicate Valid()
      reads this
    {
      0.0 < backoffMs <= MaxBackoffMs &&
      connectsSinceOpen <= 1 && (connectSent || connectsSinceOpen == 0)
    }

    /** `connected`: the socket is open and the handshake has completed. */
    predicate Connected()
      reads this
    {
      socket == Open && handshakeCompleted
    }

    constructor(ids: nat -> string, options: ClientOptions)
      ensures Valid() && this.ids == ids && this.options == options
      ensures socket == NoSocket && !closed && !handshakeCompleted && backoffMs == InitialBackoffMs
      ensures requests == Requests(map[], [], map[], [], 0, 0) && events == []
    {
      this.ids := ids;
      this.options := options;
      socket := NoSocket;
      closed := false;
      handshakeCompleted := false;
      connectNonce := None;
      connectSent := false;
      connectTimerArmed := false;
      connectTicket := None;
      backoffMs := InitialBackoffMs;
      reconnectDelay := None;
      requests := Requests(map[], [], map[], [], 0, 0);
      events := [];
      connectsSinceOpen := 0;
    }

    /** `scheduleReconnect`: unless closed, waits the current backoff, which then grows by 1.7 up to 15 s. */
    method ScheduleReconnect()
      requires Valid()
      modifies this`backoffMs, this`reconnectDelay
      ensures Valid()
      ensures closed ==> backoffMs == old(backoffMs) && reconnectDelay == old(reconnectDelay)
      ensures !closed ==> reconnectDelay == Some(old(backoffMs)) && backoffMs == Grow(old(backoffMs))
    {
      if closed {
        return;
      }
      var delay := backoffMs;
      backoffMs := if backoffMs * BackoffFactor < MaxBackoffMs then backoffMs * BackoffFactor else MaxBackoffMs;
      reconnectDelay := Some(delay);
    }

    /**
     * `doConnect`, told whether constructing the WebSocket succeeded: unless
     * closed, the handshake starts over on a new connecting socket, or a
     * reconnect is scheduled.
     */
    method DoConnect(constructed: bool)
      requires Valid()
      modifies this`handshakeCompleted, this`socket, this`backoffMs, this`reconnectDelay
      ensures Valid()
      ensures closed ==> socket == old(socket) && handshakeCompleted == old(handshakeCompleted)
      ensures closed ==> backoffMs == old(backoffMs) && reconnectDelay == old(reconnectDelay)
      ensures !closed ==> !handshakeCompleted
      ensures !closed && constructed ==>
        socket == Connecting && backoffMs == old(backoffMs) && reconnectDelay == old(reconnectDelay)
      ensures !closed && !constructed ==>
        socket == old(socket) && reconnectDelay == Some(old(backoffMs)) && backoffMs == Grow(old(backoffMs))
    {
      if closed {
        return;
      }
      handshakeCompleted := false;
      if !constructed {
        ScheduleReconnect();
        return;
      }
      socket := Connecting;
    }

    /** `start`: clears `closed` and connects. */
    method Start(constructed: bool)
      requires Valid()
      modifies this`closed, this`handshakeCompleted, this`socket, this`backoffMs, this`reconnectDelay
      ensures Valid() && !closed && !handshakeCompleted
      ensures constructed ==> socket == Connecting
      ensures !constructed ==> reconnectDelay == Some(old(backoffMs))
    {
      closed := false;
      DoConnect(constructed);
    }

    /**
     * The socket opened (`queueConnect`): the nonce and the connect-sent flag
     * are cleared and the 750 ms fallback timer is armed.
     */
    method OnOpen()
      requires Valid()
      modifies this`socket, this`connectNonce, this`connectSent, this`connectTimerArmed, this`connectsSinceOpen
      ensures Valid()
      ensures socket == Open && connectNonce.None? && !connectSent && connectTimerArmed && connectsSinceOpen == 0
    {
      socket, connectNonce, connectSent, connectTimerArmed := Open, None, false, true;
      connectsSinceOpen := 0;
    }

    /**
     * The sending half of `request`: with no open socket the caller is
     * rejected with `not connected` and nothing is registered; otherwise
     * exactly one pending entry is registered under a fresh id before the
     * frame is sent.
     */
    method Send(ticket: nat, name: string, params: Json)
      modifies this`requests
      ensures var r := old(requests);
        if socket != Open then
          requests == r.(outcomes := r.outcomes[ticket := Rejected("not connected")])
        else
          requests == r.(pending := r.pending[ids(r.generated) := ticket],
                         sent := r.sent + [ReqFrame(ids(r.generated), name, params)],
                         generated := r.generated + 1)
    {
      if socket != Open {
        requests := requests.(outcomes := requests.outcomes[ticket := Rejected("not connected")]);
        return;
      }
      var id := ids(requests.generated);
      requests := requests.(pending := requests.pending[id := ticket],
                            sent := requests.sent + [ReqFrame(id, name, params)],
                            generated := requests.generated + 1);
    }

    /**
     * `request` for the caller whose promise is `ticket`: a request other
     * than `connect` made while the socket is open before the handshake
     * completes is queued; otherwise it is sent (or rejected).
     */
    method Dispatch(ticket: nat, name: string, params: Json)
      modifies this`requests
      ensures var r := old(requests);
        if name != "connect" && socket == Open && !handshakeCompleted then
          requests == r.(queue := r.queue + [Queued(ticket, name, params)])
        else if socket != Open then
          requests == r.(outcomes := r.outcomes[ticket := Rejected("not connected")])
        else
          requests == r.(pending := r.pending[ids(r.generated) := ticket],
                         sent := r.sent + [ReqFrame(ids(r.generated), name, params)],
                         generated := r.generated + 1)
    {
      if name != "connect" && socket == Open && !handshakeCompleted {
        requests := requests.(queue := requests.queue + [Queued(ticket, name, params)]);
        return;
      }
      Send(ticket, name, params);
    }

    /** `request` from a new caller: the ticket handed back identifies its promise. */
    method Request(name: string, params: Json) returns (ticket: nat)
      modifies this`requests
      ensures ticket == old(requests.nextTicket) && requests.nextTicket == ticket + 1
      ensures name != "connect" && socket == Open && !handshakeCompleted ==>
        requests.queue == old(requests.queue) + [Queued(ticket, name, params)] &&
        requests.pending == old(requests.pending) && requests.sent == old(requests.sent) &&
        requests.outcomes == old(requests.outcomes)
      ensures socket != Open ==>
        requests.outcomes == old(requests.outcomes)[ticket := Rejected("not connected")] &&
        requests.pending == old(requests.pending) && requests.sent == old(requests.sent) &&
        requests.queue == old(requests.queue)
      ensures socket == Open && (name == "connect" || handshakeCompleted) ==>
        requests.pending == old(requests.pending)[ids(old(requests.generated)) := ticket] &&
        requests.sent == old(requests.sent) + [ReqFrame(ids(old(requests.generated)), name, params)] &&
        requests.queue == old(requests.queue) && requests.outcomes == old(requests.outcomes)
    {
      ticket := requests.nextTicket;
      requests := requests.(nextTicket := ticket + 1);
      Dispatch(ticket, name, params);
    }

    /**
     * `sendConnect`, run by a challenge or by the fallback timer, given what
     * the device signer produced (`None` when signing failed): at most once
     * per opening, disarms the fallback timer and requests `connect`. The
     * socket is the one seen when `connect` is requested, after the signer's
     * `await`. When it is not open, the request is rejected and the `.catch`
     * marks the handshake failed and closes the socket, as `OnHandshakeFailed`.
     */
    method SendConnect(signature: Option<Json>)
      requires Valid()
      modifies this`connectSent, this`connectTimerArmed, this`connectTicket, this`requests, this`connectsSinceOpen
      modifies this`handshakeCompleted, this`socket
      ensures Valid() && connectSent
      ensures old(connectSent) ==>
        requests == old(requests) && connectTicket == old(connectTicket) && connectTimerArmed == old(connectTimerArmed) &&
        socket == old(socket) && handshakeCompleted == old(handshakeCompleted)
      ensures !old(connectSent) ==>
        connectSent && !connectTimerArmed && connectTicket == Some(old(requests.nextTicket)) &&
        requests.queue == old(requests.queue)
      ensures !old(connectSent) && old(socket) == Open ==>
        requests.sent == old(requests.sent) + [ReqFrame(ids(old(requests.generated)), "connect", ConnectParams(options, signature))] &&
        requests.pending == old(requests.pending)[ids(old(requests.generated)) := old(requests.nextTicket)] &&
        socket == Open && handshakeCompleted == old(handshakeCompleted)
      ensures !old(connectSent) && old(socket) != Open ==>
        requests.sent == old(requests.sent) &&
        requests.outcomes == old(requests.outcomes)[old(requests.nextTicket) := Rejected("not connected")] &&
        !handshakeCompleted && socket == (if old(socket) == NoSocket then NoSocket else Closing)
    {
      if connectSent {
        return;
      }
      connectSent := true;
      connectTimerArmed := false;
      var ticket := Request("connect", ConnectParams(options, signature));
      connectTicket := Some(ticket);
      if socket == Open {
        connectsSinceOpen := connectsSinceOpen + 1;
      } else {
        OnHandshakeFailed();
      }
    }

    /**
     * `drainQueue`: takes the whole queue and requests each entry again, in
     * order, for the same caller; with the handshake complete none is queued
     * again.
     */
    method DrainQueue()
      requires handshakeCompleted
      modifies this`requests
      ensures requests.queue == [] && requests.nextTicket == old(requests.nextTicket)
      ensures socket == Open ==>
        requests.sent == old(requests.sent) + DrainedFrames(old(requests.queue), old(requests.generated), ids) &&
        requests.pending == Registered(old(requests.pending), old(requests.queue), old(requests.generated), ids) &&
        requests.outcomes == old(requests.outcomes)
      ensures socket != Open ==>
        requests.sent == old(requests.sent) && requests.pending == old(requests.pending) &&
        requests.outcomes == RejectQueue(old(requests.outcomes), old(requests.queue), "not connected")
    {
      var queued := requests.queue;
      requests := requests.(queue := []);
      if socket == Open {
        SendAll(queued);
      } else {
        RejectAll(queued);
      }
    }

    /** The loop of `drainQueue` over an open socket: each request sent in order under a fresh id. */
    method SendAll(queued: seq<Queued>)
      requires socket == Open
      modifies this`requests
      ensures requests.sent == old(requests.sent) + DrainedFrames(queued, old(requests.generated), ids)
      ensures requests.pending == Registered(old(requests.pending), queued, old(requests.generated), ids)
      ensures requests.generated == old(requests.generated) + |queued|
      ensures requests.outcomes == old(requests.outcomes) && requests.queue == old(requests.queue)
      ensures requests.nextTicket == old(requests.nextTicket)
    {
      var g0 := requests.generated;
      var i := 0;
      while i < |queued|
        invariant 0 <= i <= |queued| && requests.generated == g0 + i
        invariant requests.sent == old(requests.sent) + DrainedFrames(queued[..i], g0, ids)
        invariant requests.pending == Registered(old(requests.pending), queued[..i], g0, ids)
        invariant requests.outcomes == old(requests.outcomes) && requests.queue == old(requests.queue)
        invariant requests.nextTicket == old(requests.nextTicket)
      {
        Send(queued[i].ticket, queued[i].name, queued[i].params);
        DrainStep(old(requests.pending), queued, g0, ids, i);
        i := i + 1;
      }
      assert queued[..i] == queued;
    }

    /** The loop of `drainQueue` with no open socket: each request rejected with `not connected`. */
    method RejectAll(queued: seq<Queued>)
      requires socket != Open
      modifies this`requests
      ensures requests == old(requests).(outcomes := RejectQueue(old(requests.outcomes), queued, "not connected"))
    {
      var i := 0;
      while i < |queued|
        invariant 0 <= i <= |queued|
        invariant requests == old(requests).(outcomes := RejectQueue(old(requests.outcomes), queued[..i], "not connected"))
      {
        Send(queued[i].ticket, queued[i].name, queued[i].params);
        assert queued[..i + 1][..i] == queued[..i];
        i := i + 1;
      }
      assert queued[..i] == queued;
    }

    /** The handshake succeeded: backoff back to 800 ms, connected, the queue drained in order. */
    method OnHello()
      requires Valid()
      modifies this`backoffMs, this`handshakeCompleted, this`requests
      ensures Valid()
      ensures backoffMs == InitialBackoffMs && handshakeCompleted && requests.queue == []
      ensures socket == Open ==>
        requests.sent == old(requests.sent) + DrainedFrames(old(requests.queue), old(requests.generated), ids) &&
        requests.pending == Registered(old(requests.pending), old(requests.queue), old(requests.generated), ids) &&
        requests.outcomes == old(requests.outcomes)
      ensures socket != Open ==>
        requests.sent == old(requests.sent) && requests.pending == old(requests.pending) &&
        requests.outcomes == RejectQueue(old(requests.outcomes), old(requests.queue), "not connected")
    {
      backoffMs := InitialBackoffMs;
      handshakeCompleted := true;
      DrainQueue();
    }

    /** The handshake failed: not connected, and the socket is closed with 4008. */
    method OnHandshakeFailed()
      modifies this`handshakeCompleted, this`socket
      ensures !handshakeCompleted
      ensures socket == (if old(socket) == NoSocket then NoSocket else Closing)
    {
      handshakeCompleted := false;
      if socket != NoSocket {
        socket := Closing;
      }
    }

    /**
     * `handleMessage`. Unparsable and unknown frames change nothing. A
     * `connect.challenge` event records a non-empty string nonce and sends
     * connect; other events are delivered. A response settles and removes
     * only the pending entry with its id, and unknown ids change nothing;
     * the response to connect completes or fails the handshake.
     */
    method HandleMessage(frame: Option<Frame>, signature: Option<Json>)
      requires Valid()
      modifies this
      ensures Valid()
      ensures frame.None? || frame.value.OtherFrame? ==>
        requests == old(requests) && events == old(events) && socket == old(socket) &&
        handshakeCompleted == old(handshakeCompleted)
      ensures frame.Some? && frame.value.EventFrame? && frame.value.event != "connect.challenge" ==>
        events == old(events) + [(frame.value.event, frame.value.payload)] && requests == old(requests)
      ensures frame.Some? && frame.value.EventFrame? && frame.value.event == "connect.challenge" ==>
        var nonce := Get(frame.value.payload, "nonce");
        connectSent && events == old(events) &&
        connectNonce == (if nonce.Some? && nonce.value.JStr? && nonce.value.s != "" then Some(nonce.value.s) else old(connectNonce))
      ensures frame.Some? && frame.value.EventFrame? && frame.value.event == "connect.challenge" ==>
        (old(connectSent) || old(socket) == Open ==> socket == old(socket) && handshakeCompleted == old(handshakeCompleted)) &&
        (!old(connectSent) && old(socket) != Open ==>
          !handshakeCompleted && socket == (if old(socket) == NoSocket then NoSocket else Closing))
      ensures frame.Some? && frame.value.EventFrame? && frame.value.event == "connect.challenge" ==>
        var r := old(requests);
        (old(connectSent) ==> requests == r && connectTicket == old(connectTicket)) &&
        (!old(connectSent) ==>
          connectTicket == Some(r.nextTicket) && !connectTimerArmed && requests.queue == r.queue) &&
        (!old(connectSent) && socket == Open ==>
          requests.sent == r.sent + [ReqFrame(ids(r.generated), "connect", ConnectParams(options, signature))] &&
          requests.pending == r.pending[ids(r.generated) := r.nextTicket]) &&
        (!old(connectSent) && socket != Open ==>
          requests.sent == r.sent && requests.outcomes == r.outcomes[r.nextTicket := Rejected("not connected")])
      ensures frame.Some? && frame.value.ResFrame? && frame.value.id !in old(requests.pending) ==>
        requests == old(requests) && socket == old(socket) && handshakeCompleted == old(handshakeCompleted)
      ensures frame.Some? && frame.value.ResFrame? && frame.value.id in old(requests.pending) &&
              old(connectTicket) != Some(old(requests.pending)[frame.value.id]) ==>
        requests == old(requests).(pending := old(requests.pending) - {frame.value.id},
                                   outcomes := old(requests.outcomes)[old(requests.pending)[frame.value.id] := Settlement(frame.value)]) &&
        socket == old(socket) && handshakeCompleted == old(handshakeCompleted)
      ensures frame.Some? && frame.value.ResFrame? && frame.value.id in old(requests.pending) &&
              old(connectTicket) == Some(old(requests.pending)[frame.value.id]) ==>
        (frame.value.ok ==> (handshakeCompleted && backoffMs == InitialBackoffMs && requests.queue == [] &&
                             socket == old(socket))) &&
        (frame.value.ok && socket == Open ==>
          var r := old(requests);
          var id := frame.value.id;
          requests.sent == r.sent + DrainedFrames(r.queue, r.generated, ids) &&
          requests.pending == Registered(r.pending - {id}, r.queue, r.generated, ids) &&
          requests.outcomes == r.outcomes[r.pending[id] := Settlement(frame.value)]) &&
        (frame.value.ok && socket != Open ==>
          var r := old(requests);
          var id := frame.value.id;
          requests.sent == r.sent && requests.pending == r.pending - {id} &&
          requests.outcomes == RejectQueue(r.outcomes[r.pending[id] := Settlement(frame.value)], r.queue, "not connected")) &&
        (!frame.value.ok ==>
          !handshakeCompleted && socket == (if old(socket) == NoSocket then NoSocket else Closing) &&
          requests == old(requests).(pending := old(requests.pending) - {frame.value.id},
                                     outcomes := old(requests.outcomes)[old(requests.pending)[frame.value.id] := Settlement(frame.value)]))
    {
      if frame.None? {
        return;
      }
      match frame.value
      case OtherFrame =>
      case EventFrame(event, payload) =>
        if event == "connect.challenge" {
          var nonce := Get(payload, "nonce");
          if nonce.Some? && nonce.value.JStr? && nonce.value.s != "" {
            connectNonce := Some(nonce.value.s);
          }
          SendConnect(signature);
        } else {
          events := events + [(event, payload)];
        }
      case ResFrame(id, ok, payload, errorMessage) =>
        if id !in requests.pending {
          return;
        }
        var t := requests.pending[id];
        requests := requests.(pending := requests.pending - {id},
                              outcomes := requests.outcomes[t := Settlement(frame.value)]);
        if connectTicket == Some(t) {
          if ok {
            OnHello();
          } else {
            OnHandshakeFailed();
          }
        }
    }

    /**
     * The socket closed: every pending and queued request is rejected with
     * `closed (<code>): <reason>`, both are emptied, and a reconnect is scheduled.
     */
    method OnClose(code: int, reason: string)
      requires Valid()
      modifies this`socket, this`handshakeCompleted, this`requests, this`backoffMs, this`reconnectDelay
      ensures Valid()
      ensures socket == NoSocket && !handshakeCompleted
      ensures requests == Flush(old(requests), CloseMessage(code, reason))
      ensures !closed ==> reconnectDelay == Some(old(backoffMs)) && backoffMs == Grow(old(backoffMs))
    {
      socket, handshakeCompleted := NoSocket, false;
      requests := Flush(requests, CloseMessage(code, reason));
      ScheduleReconnect();
    }

    /**
     * `stop`: closed for good, timers cleared, the socket dropped, and every
     * pending and queued request rejected with `client stopped`.
     */
    method Stop()
      requires Valid()
      modifies this`closed, this`handshakeCompleted, this`reconnectDelay, this`connectTimerArmed, this`socket, this`requests
      ensures Valid()
      ensures closed && !handshakeCompleted && socket == NoSocket
      ensures reconnectDelay.None? && !connectTimerArmed
      ensures requests == Flush(old(requests), "client stopped")
    {
      closed, handshakeCompleted, reconnectDelay, connectTimerArmed, socket := true, false, None, false, NoSocket;
      requests := Flush(requests, "client stopped");
    }
  }
}
