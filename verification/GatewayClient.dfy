/**
 * The WebSocket client of the Gateway: socket lifecycle, handshake, heartbeat, reconnect with backoff, reverse adapter
 * calls and replies to incoming calls. Sockets are numbered in the order of their creation; every callback, timer and
 * close event is one step, and any number of sockets may be alive at once. Times are milliseconds.
 */
module GatewayConnection {
  import opened Text
  import opened JsonCodec
  import opened NodeTimers

  const HEARTBEAT_INTERVAL_MS := 30_000
  const HELLO_TIMEOUT_MS := 5_000
  const BACKOFF_INITIAL_MS := 1_000
  const BACKOFF_MAX_MS := 60_000
  const DEFAULT_ADAPTER_CALL_TIMEOUT_MS := 30_000

  // ----- The runtime around the client -----

  /** `Closed` means that the close event has been delivered. */
  datatype Phase = Connecting | Open | Closing | Closed

  /** `greeters` are the one-shot handshake listeners, told by the hello timer each will clear. */
  datatype Sock = Sock(phase: Phase, greeters: seq<nat>, shaken: bool)

  datatype Timer =
    | Hello(due: nat)
    | Heartbeat(due: nat)
    | Reconnect(due: nat)
    | CallTimeout(due: nat, id: string)

  datatype Frame =
    | HelloFrame(hostId: Option<string>)
    | Beat
    | AdapterCall(id: string)
    | Chunk(id: string)
    | Result(id: string)
    | ErrorReply(id: string, code: string)

  datatype Sent = Sent(sock: nat, frame: Frame)

  /** How the promise of an adapter call was settled. */
  datatype Outcome =
    | Response(result: Json)
    | Failure(error: Json)
    | TimedOut
    | Disconnected
    | NotConnected

  /** How a handler of an incoming call came out, and the socket that was open then. */
  datatype Finish = Finish(ok: bool, on: Option<nat>)

  /** A message from the Gateway; `Malformed` is text that does not parse, `NullMessage` the text `null`, which does. */
  datatype Incoming =
    | Connected(hostId: string)
    | Call(id: string, adapter: string)
    | AdapterResponse(id: string, result: Json)
    | AdapterError(id: string, error: Json)
    | OtherMessage
    | NullMessage
    | Malformed

  /** When the connection was lost, attempts since, and what the connected and disconnected callbacks said last. */
  datatype Notes = Notes(reconnectCount: nat, disconnectedAt: Option<nat>, connected: bool)

  /**
   * First the client's own fields, then the runtime's sockets, timers and clock, then what can be observed: frames
   * sent, settlements per call id, incoming calls with handlers running or finished, and reconnect timers that fired
   * since the last handshake. `crashed`: an exception that nobody catches, or the rejection of a promise that nobody
   * awaits, has ended the process.
   */
  datatype State = State(
    ws: Option<nat>, heartbeatTimer: Option<nat>, reconnectTimer: Option<nat>, backoffMs: nat, stopped: bool,
    hostId: Option<string>, pending: map<string, nat>, handlers: set<string>,
    socks: seq<Sock>, timers: map<nat, Timer>, nextTimer: nat, now: nat, crashed: bool,
    sent: seq<Sent>, settled: map<string, seq<Outcome>>, running: set<string>, finished: map<string, Finish>,
    firings: nat, notes: Notes)

  function Initial(handlers: set<string>, now: nat): State
  {
    State(None, None, None, BACKOFF_INITIAL_MS, false, None, map[], handlers,
          [], map[], 0, now, false, [], map[], {}, map[], 0, Notes(0, None, false))
  }

  function PhaseOf(s: State, g: nat): Phase
  {
    if g < |s.socks| then s.socks[g].phase else Closed
  }

  /** The socket `send` would use, if it is open. */
  function OpenSocket(s: State): Option<nat>
  {
    if s.ws.Some? && PhaseOf(s, s.ws.value) == Open then s.ws else None
  }

  function Min(a: nat, b: nat): nat
  {
    if a <= b then a else b
  }

  // ----- What the client's methods do -----

  function Send(s: State, frame: Frame): (t: State)
    ensures t == s.(sent := t.sent) && s.sent <= t.sent
  {
    match OpenSocket(s)
    case Some(g) => s.(sent := s.sent + [Sent(g, frame)])
    case None => s
  }

  function Arm(s: State, t: Timer): State
  {
    s.(timers := s.timers[s.nextTimer := t], nextTimer := s.nextTimer + 1)
  }

  function Clear(s: State, id: nat): State
  {
    s.(timers := s.timers - {id})
  }

  function Handle(id: Option<nat>): set<nat>
  {
    match id case Some(i) => {i} case None => {}
  }

  function ClearTimers(s: State): State
  {
    s.(timers := s.timers - Handle(s.heartbeatTimer) - Handle(s.reconnectTimer),
       heartbeatTimer := None, reconnectTimer := None)
  }

  function CloseSock(sock: Sock): Sock
  {
    if sock.phase == Connecting || sock.phase == Open then sock.(phase := Closing) else sock
  }

  /** `this.ws?.close(...)`. */
  function CloseCurrent(s: State): (t: State)
    ensures t == s.(socks := t.socks)
  {
    if s.ws.Some? && s.ws.value < |s.socks| then
      s.(socks := s.socks[s.ws.value := CloseSock(s.socks[s.ws.value])])
    else s
  }

  /** `tokenOk`: the token getter returns and the URL is acceptable. If either throws, nothing happens. */
  function DoConnect(s: State, tokenOk: bool): (t: State)
    ensures t == s.(ws := t.ws, socks := t.socks)
  {
    if tokenOk then s.(ws := Some(|s.socks|), socks := s.socks + [Sock(Connecting, [], false)]) else s
  }

  function AfterConnect(s: State, tokenOk: bool): State
  {
    DoConnect(s.(stopped := false), tokenOk)
  }

  function AfterStop(s: State): (t: State)
    ensures t == s.(stopped := true, ws := None, socks := t.socks, timers := t.timers, heartbeatTimer := None,
                    reconnectTimer := None)
  {
    CloseCurrent(ClearTimers(s.(stopped := true))).(ws := None)
  }

  /** The open handler greets on the current socket, whichever opened; without one it throws. */
  function OnOpen(s: State): (u: State)
    ensures u == s.(sent := u.sent, timers := u.timers, nextTimer := u.nextTimer, socks := u.socks,
                    crashed := u.crashed)
  {
    var t := Arm(Send(s, HelloFrame(s.hostId)), Hello(s.now + HELLO_TIMEOUT_MS));
    if t.ws.Some? && t.ws.value < |t.socks| then
      var sock := t.socks[t.ws.value];
      t.(socks := t.socks[t.ws.value := sock.(greeters := sock.greeters + [s.nextTimer])])
    else t.(crashed := true)
  }

  function Outcomes(s: State, id: string): seq<Outcome>
  {
    if id in s.settled then s.settled[id] else []
  }

  function Settle(s: State, id: string, o: Outcome): State
  {
    s.(settled := s.settled[id := Outcomes(s, id) + [o]])
  }

  /** A reply settles the call that waits for it, if any. */
  function OnReply(s: State, id: string, o: Outcome): (t: State)
    ensures t == s.(timers := t.timers, pending := t.pending, settled := t.settled)
  {
    if id in s.pending then Settle(Clear(s, s.pending[id]).(pending := s.pending - {id}), id, o) else s
  }

  /** A call starts its handler, if there is one for it. */
  function OnCall(s: State, id: string, adapter: string): (t: State)
    ensures t == s.(running := t.running, finished := t.finished, sent := t.sent)
  {
    if adapter in s.handlers then s.(running := s.running + {id})
    else Send(s.(finished := s.finished[id := Finish(false, OpenSocket(s))]), ErrorReply(id, "UNKNOWN_ADAPTER"))
  }

  function OnMessage(s: State, m: Incoming): (t: State)
    ensures t == s.(timers := t.timers, pending := t.pending, settled := t.settled, running := t.running,
                    finished := t.finished, sent := t.sent, crashed := s.crashed || m.NullMessage?)
  {
    match m
    case Call(id, adapter) => OnCall(s, id, adapter)
    case AdapterResponse(id, result) => OnReply(s, id, Response(result))
    case AdapterError(id, error) => OnReply(s, id, Failure(error))
    case NullMessage => s.(crashed := true)
    case _ => s
  }

  /** Socket `g`'s one-shot listeners are taken off, and its permanent listener sees the message. */
  function Heard(s: State, g: nat, m: Incoming): (t: State)
    requires g < |s.socks|
    ensures t == s.(socks := s.socks[g := s.socks[g].(greeters := [])], timers := t.timers, pending := t.pending,
                    settled := t.settled, running := t.running, finished := t.finished, sent := t.sent,
                    crashed := s.crashed || m.NullMessage?)
  {
    OnMessage(s.(socks := s.socks[g := s.socks[g].(greeters := [])]), m)
  }

  function StartHeartbeat(s: State): State
  {
    Arm(s, Heartbeat(s.now + HEARTBEAT_INTERVAL_MS)).(heartbeatTimer := Some(s.nextTimer))
  }

  function Greeted(s: State, hostId: string): State
  {
    s.(hostId := Some(hostId), backoffMs := BACKOFF_INITIAL_MS, firings := 0, notes := Notes(0, None, true))
  }

  /** Socket `g` has had its handshake. */
  function Shaken(s: State, g: nat): (t: State)
    ensures t == s.(socks := t.socks)
  {
    if g < |s.socks| then s.(socks := s.socks[g := s.socks[g].(shaken := true)]) else s
  }

  function Welcome(s: State, g: nat, hostId: string): (t: State)
    ensures t == s.(hostId := Some(hostId), backoffMs := BACKOFF_INITIAL_MS, firings := 0, notes := t.notes,
                    timers := t.timers, nextTimer := s.nextTimer + 1, heartbeatTimer := t.heartbeatTimer,
                    socks := t.socks)
  {
    Shaken(StartHeartbeat(Greeted(s, hostId)), g)
  }

  /** One handshake listener on socket `g` sees its first message. */
  function Greet(s: State, g: nat, helloTimer: nat, m: Incoming): (t: State)
    ensures t == s.(hostId := t.hostId, backoffMs := t.backoffMs, firings := t.firings, notes := t.notes,
                    timers := t.timers, nextTimer := t.nextTimer, heartbeatTimer := t.heartbeatTimer, socks := t.socks)
  {
    var t := Clear(s, helloTimer);
    if m.Connected? && m.hostId != "" then Welcome(t, g, m.hostId) else CloseCurrent(t)
  }

  function GreetAll(s: State, g: nat, greeters: seq<nat>, m: Incoming): (t: State)
    ensures t == s.(hostId := t.hostId, backoffMs := t.backoffMs, firings := t.firings, notes := t.notes,
                    timers := t.timers, nextTimer := t.nextTimer, heartbeatTimer := t.heartbeatTimer, socks := t.socks)
    decreases |greeters|
  {
    if greeters == [] then s else GreetAll(Greet(s, g, greeters[0], m), g, greeters[1..], m)
  }

  function OnClose(s: State): (t: State)
    ensures t == s.(timers := t.timers, heartbeatTimer := None, reconnectTimer := t.reconnectTimer, pending := map[],
                    settled := t.settled, notes := t.notes, nextTimer := t.nextTimer)
  {
    var t := Lost(RejectAll(ClearTimers(s)));
    if t.stopped then t else ScheduleReconnect(t)
  }

  /** The time of the first close since the handshake is kept. */
  function Lost(s: State): State
  {
    var at := if s.notes.disconnectedAt.Some? then s.notes.disconnectedAt else Some(s.now);
    s.(notes := s.notes.(disconnectedAt := at, connected := false))
  }

  function RejectedLog(pending: map<string, nat>, settled: map<string, seq<Outcome>>): map<string, seq<Outcome>>
  {
    map id | id in settled.Keys + pending.Keys ::
      if id !in pending then settled[id] else (if id in settled then settled[id] else []) + [Disconnected]
  }

  function RejectAll(s: State): State
  {
    s.(timers := s.timers - TimersOf(s.pending, s.pending.Keys), pending := map[],
       settled := RejectedLog(s.pending, s.settled))
  }

  function ScheduleReconnect(s: State): State
  {
    var t := s.(notes := s.notes.(reconnectCount := s.notes.reconnectCount + 1));
    Arm(t, Reconnect(t.now + t.backoffMs)).(reconnectTimer := Some(t.nextTimer))
  }

  /** When the timer of a call begun now fires. */
  function Deadline(s: State, timeout: Option<int>): nat
  {
    s.now + TimerDelay(if timeout.Some? then timeout.value else DEFAULT_ADAPTER_CALL_TIMEOUT_MS)
  }

  function SendAdapterCall(s: State, id: string, timeout: Option<int>): (t: State)
    ensures t == s.(timers := t.timers, nextTimer := t.nextTimer, pending := t.pending, settled := t.settled,
                    sent := t.sent)
  {
    if OpenSocket(s) == None then Settle(s, id, NotConnected)
    else
      Send(Arm(s, CallTimeout(Deadline(s, timeout), id)).(pending := s.pending[id := s.nextTimer]), AdapterCall(id))
  }

  /** A handler comes back: with a result (which may fail to serialise when it is sent) or with an error. */
  function HandlerDone(s: State, id: string, ok: bool): (t: State)
    ensures t == s.(running := t.running, finished := t.finished, sent := t.sent)
  {
    var t := s.(running := s.running - {id}, finished := s.finished[id := Finish(ok, OpenSocket(s))]);
    if ok then Send(Send(t, Chunk(id)), Result(id)) else Send(t, ErrorReply(id, "HANDLER_ERROR"))
  }

  function CallExpired(s: State, t: nat, id: string): (u: State)
    ensures u == s.(timers := u.timers, pending := u.pending, settled := u.settled)
  {
    Settle(Clear(s, t).(pending := s.pending - {id}), id, TimedOut)
  }

  function Fired(s: State, t: nat, tokenOk: bool): (u: State)
    requires t in s.timers
    ensures u == s.(ws := u.ws, socks := u.socks, timers := u.timers, pending := u.pending, settled := u.settled,
                    sent := u.sent, backoffMs := u.backoffMs, firings := u.firings, crashed := u.crashed)
  {
    match s.timers[t]
    case Hello(_) => CloseCurrent(Clear(s, t))
    case Heartbeat(_) => Send(s.(timers := s.timers[t := Heartbeat(s.now + HEARTBEAT_INTERVAL_MS)]), Beat)
    case Reconnect(_) =>
      var u := Clear(s, t);
      if u.stopped then u
      else if !tokenOk then u.(crashed := true)
      else DoConnect(u, true).(backoffMs := Min(u.backoffMs * 2, BACKOFF_MAX_MS), firings := u.firings + 1)
    case CallTimeout(_, id) => CallExpired(s, t, id)
  }

  // ----- Steps -----

  datatype Event =
    | Opens(g: nat)
    | Receives(g: nat, m: Incoming)
    | Closes(g: nat)
    | Fire(t: nat, tokenOk: bool)
    | Connect(tokenOk: bool)
    | Stop
    | SendCall(id: string, timeout: Option<int>)
    | HandlerReturns(id: string, ok: bool)
    | Tick(ms: nat)

  /**
   * What the runtime and the callers can do next. Request ids and adapter-call ids are fresh; of the timers only that
   * of a reconnect asks for a token.
   */
  predicate Possible(s: State, e: Event)
  {
    && !s.crashed
    && match e
       case Opens(g) => PhaseOf(s, g) == Connecting
       case Receives(g, m) =>
         && (PhaseOf(s, g) == Open || PhaseOf(s, g) == Closing)
         && (m.Call? ==> m.id !in s.running && m.id !in s.finished)
       case Closes(g) => PhaseOf(s, g) != Closed
       case Fire(t, tokenOk) => t in s.timers && s.timers[t].due <= s.now && (tokenOk || s.timers[t].Reconnect?)
       case SendCall(id, _) => id !in s.pending && id !in s.settled
       case HandlerReturns(id, _) => id in s.running
       case _ => true
  }

  function SetPhase(s: State, g: nat, phase: Phase): State
    requires g < |s.socks|
  {
    s.(socks := s.socks[g := s.socks[g].(phase := phase)])
  }

  function Step(s: State, e: Event): State
    requires Possible(s, e)
  {
    match e
    case Opens(g) => OnOpen(SetPhase(s, g, Open))
    case Receives(g, m) =>
      if m.NullMessage? then OnMessage(s, m) else GreetAll(Heard(s, g, m), g, s.socks[g].greeters, m)
    case Closes(g) => OnClose(SetPhase(s, g, Closed))
    case Fire(t, tokenOk) => Fired(s, t, tokenOk)
    case Connect(tokenOk) => AfterConnect(s, tokenOk)
    case Stop => AfterStop(s)
    case SendCall(id, timeout) => SendAdapterCall(s, id, timeout)
    case HandlerReturns(id, ok) => HandlerDone(s, id, ok)
    case Tick(ms) => s.(now := s.now + ms)
  }

  /** `None` when some event of the run was not possible at its place. */
  function Run(s: State, es: seq<Event>): Option<State>
    decreases |es|
  {
    if es == [] then Some(s) else if Possible(s, es[0]) then Run(Step(s, es[0]), es[1..]) else None
  }

  // ----- The client as the source has it -----

  /** The timers of the calls in `ids`. */
  function TimersOf(pending: map<string, nat>, ids: set<string>): set<nat>
  {
    set id | id in ids && id in pending :: pending[id]
  }

  lemma TimersOfOneMore(pending: map<string, nat>, ids: set<string>, id: string)
    requires id in pending
    ensures TimersOf(pending, ids + {id}) == TimersOf(pending, ids) + {pending[id]}
  {
    assert id in ids + {id};
  }

  lemma RejectedOneMore(pending: map<string, nat>, settled: map<string, seq<Outcome>>, id: string, timer: nat)
    requires id !in pending
    ensures var log := RejectedLog(pending, settled);
            RejectedLog(pending[id := timer], settled)
            == log[id := (if id in log then log[id] else []) + [Disconnected]]
  {
  }

  /** The loop over the pending table on a disconnect: every entry's timer is cleared and its promise rejected. */
  method RejectEach(pending: map<string, nat>, timers: map<nat, Timer>, settled: map<string, seq<Outcome>>)
    returns (liveTimers: map<nat, Timer>, log: map<string, seq<Outcome>>)
    ensures liveTimers == timers - TimersOf(pending, pending.Keys)
    ensures log == RejectedLog(pending, settled)
  {
    liveTimers, log := timers, settled;
    var todo := pending.Keys;
    assert pending - todo == map[] && pending.Keys - todo == {};
    assert RejectedLog(map[], settled) == settled;
    while todo != {}
      invariant todo <= pending.Keys
      invariant liveTimers == timers - TimersOf(pending, pending.Keys - todo)
      invariant log == RejectedLog(pending - todo, settled)
      decreases todo
    {
      var id :| id in todo;
      TimersOfOneMore(pending, pending.Keys - todo, id);
      assert pending.Keys - (todo - {id}) == pending.Keys - todo + {id};
      assert pending - (todo - {id}) == (pending - todo)[id := pending[id]];
      RejectedOneMore(pending - todo, settled, id, pending[id]);
      liveTimers := liveTimers - {pending[id]};
      log := log[id := (if id in log then log[id] else []) + [Disconnected]];
      todo := todo - {id};
    }
    assert pending.Keys - {} == pending.Keys && pending - {} == pending;
  }

  /** What surrounds the client's own fields, as in `State`. */
  datatype Runtime = Runtime(
    socks: seq<Sock>, timers: map<nat, Timer>, nextTimer: nat, now: nat, crashed: bool,
    sent: seq<Sent>, settled: map<string, seq<Outcome>>, running: set<string>, finished: map<string, Finish>,
    firings: nat, connected: bool)

  class GatewayClient {
    var ws: Option<nat>
    var heartbeatTimer: Option<nat>
    var reconnectTimer: Option<nat>
    var backoffMs: nat
    var stopped: bool
    var hostId: Option<string>
    var reconnectCount: nat
    var disconnectedAt: Option<nat>
    var pendingAdapterCalls: map<string, nat>
    var handlers: set<string>
    var world: Runtime

    function Value(): State
      reads this
    {
      State(ws, heartbeatTimer, reconnectTimer, backoffMs, stopped, hostId, pendingAdapterCalls, handlers,
            world.socks, world.timers, world.nextTimer, world.now, world.crashed,
            world.sent, world.settled, world.running, world.finished, world.firings,
            Notes(reconnectCount, disconnectedAt, world.connected))
    }

    constructor (handlers: set<string>, now: nat)
      ensures Value() == Initial(handlers, now)
    {
      ws, heartbeatTimer, reconnectTimer, backoffMs := None, None, None, BACKOFF_INITIAL_MS;
      stopped, hostId, reconnectCount, disconnectedAt := false, None, 0, None;
      pendingAdapterCalls, this.handlers := map[], handlers;
      world := Runtime([], map[], 0, now, false, [], map[], {}, map[], 0, false);
    }

    method SendFrame(frame: Frame)
      modifies this
      ensures Value() == Send(old(Value()), frame)
    {
      if ws.Some? && ws.value < |world.socks| && world.socks[ws.value].phase == Open {
        world := world.(sent := world.sent + [Sent(ws.value, frame)]);
      }
    }

    method SetTimer(t: Timer) returns (id: nat)
      modifies this
      ensures Value() == Arm(old(Value()), t) && id == old(world.nextTimer)
    {
      id := world.nextTimer;
      world := world.(timers := world.timers[id := t], nextTimer := id + 1);
    }

    method ClearTimer(id: nat)
      modifies this
      ensures Value() == Clear(old(Value()), id)
    {
      world := world.(timers := world.timers - {id});
    }

    method ClearBothTimers()
      modifies this
      ensures Value() == ClearTimers(old(Value()))
    {
      if heartbeatTimer.Some? {
        ClearTimer(heartbeatTimer.value);
        heartbeatTimer := None;
      }
      if reconnectTimer.Some? {
        ClearTimer(reconnectTimer.value);
        reconnectTimer := None;
      }
      assert Value() == ClearTimers(old(Value()));
    }

    method CloseWs()
      modifies this
      ensures Value() == CloseCurrent(old(Value()))
    {
      if ws.Some? && ws.value < |world.socks| {
        var sock := world.socks[ws.value];
        if sock.phase == Connecting || sock.phase == Open {
          sock := sock.(phase := Closing);
        }
        world := world.(socks := world.socks[ws.value := sock]);
      }
    }

    method OpenNewSocket(tokenOk: bool)
      modifies this
      ensures Value() == DoConnect(old(Value()), tokenOk)
    {
      if tokenOk {
        ws := Some(|world.socks|);
        world := world.(socks := world.socks + [Sock(Connecting, [], false)]);
      }
    }

    method ConnectNow(tokenOk: bool)
      requires Possible(Value(), Connect(tokenOk))
      modifies this
      ensures Value() == Step(old(Value()), Connect(tokenOk))
    {
      stopped := false;
      OpenNewSocket(tokenOk);
    }

    method StopNow()
      requires Possible(Value(), Stop)
      modifies this
      ensures Value() == Step(old(Value()), Stop)
    {
      stopped := true;
      ClearBothTimers();
      CloseWs();
      ws := None;
    }

    method OnSocketOpen(g: nat)
      requires Possible(Value(), Opens(g))
      modifies this
      ensures Value() == Step(old(Value()), Opens(g))
    {
      hide Arm, Send;
      world := world.(socks := world.socks[g := world.socks[g].(phase := Open)]);
      SendFrame(HelloFrame(hostId));
      var helloTimeout := SetTimer(Hello(world.now + HELLO_TIMEOUT_MS));
      if ws.Some? && ws.value < |world.socks| {
        var sock := world.socks[ws.value];
        world := world.(socks := world.socks[ws.value := sock.(greeters := sock.greeters + [helloTimeout])]);
      } else {
        world := world.(crashed := true);
      }
    }

    method SettleReply(id: string, o: Outcome)
      modifies this
      ensures Value() == OnReply(old(Value()), id, o)
    {
      if id in pendingAdapterCalls {
        ClearTimer(pendingAdapterCalls[id]);
        pendingAdapterCalls := pendingAdapterCalls - {id};
        SettleCall(id, o);
      }
    }

    /** A promise is resolved or rejected. */
    method SettleCall(id: string, o: Outcome)
      modifies this
      ensures Value() == Settle(old(Value()), id, o)
    {
      var before := if id in world.settled then world.settled[id] else [];
      world := world.(settled := world.settled[id := before + [o]]);
    }

    method Dispatch(m: Incoming)
      modifies this
      ensures Value() == OnMessage(old(Value()), m)
    {
      match m
      case Call(id, adapter) =>
        if adapter !in handlers {
          world := world.(finished := world.finished[id := Finish(false, OpenSocket(Value()))]);
          SendFrame(ErrorReply(id, "UNKNOWN_ADAPTER"));
        } else {
          world := world.(running := world.running + {id});
        }
      case AdapterResponse(id, result) => SettleReply(id, Response(result));
      case AdapterError(id, error) => SettleReply(id, Failure(error));
      case NullMessage => world := world.(crashed := true);
      case _ =>
    }

    method StartHeartbeatTimer()
      modifies this
      ensures Value() == StartHeartbeat(old(Value()))
    {
      var id := SetTimer(Heartbeat(world.now + HEARTBEAT_INTERVAL_MS));
      heartbeatTimer := Some(id);
    }

    method OnConnected(g: nat, newHostId: string)
      modifies this
      ensures Value() == Welcome(old(Value()), g, newHostId)
    {
      hide StartHeartbeat;
      hostId := Some(newHostId);
      backoffMs := BACKOFF_INITIAL_MS;
      disconnectedAt := None;
      reconnectCount := 0;
      world := world.(firings := 0, connected := true);
      assert Value() == Greeted(old(Value()), newHostId);
      StartHeartbeatTimer();
      if g < |world.socks| {
        world := world.(socks := world.socks[g := world.socks[g].(shaken := true)]);
      }
    }

    method GreetOne(g: nat, helloTimer: nat, m: Incoming)
      modifies this
      ensures Value() == Greet(old(Value()), g, helloTimer, m)
    {
      ClearTimer(helloTimer);
      if m.Connected? && m.hostId != "" {
        OnConnected(g, m.hostId);
      } else {
        CloseWs();
      }
    }

    /** The message handler, then, unless that throws, every handshake listener that was waiting on the socket. */
    method OnSocketMessage(g: nat, m: Incoming)
      requires Possible(Value(), Receives(g, m))
      modifies this
      ensures Value() == Step(old(Value()), Receives(g, m))
    {
      if m.NullMessage? {
        Dispatch(m);
        return;
      }
      var greeters := world.socks[g].greeters;
      Hear(g, m);
      GreetEach(g, greeters, m);
    }

    method Hear(g: nat, m: Incoming)
      requires g < |world.socks|
      modifies this
      ensures Value() == Heard(old(Value()), g, m)
    {
      world := world.(socks := world.socks[g := world.socks[g].(greeters := [])]);
      Dispatch(m);
    }

    method GreetEach(g: nat, greeters: seq<nat>, m: Incoming)
      modifies this
      ensures Value() == GreetAll(old(Value()), g, greeters, m)
    {
      ghost var start := Value();
      var i := 0;
      assert greeters[i..] == greeters;
      while i < |greeters|
        invariant 0 <= i <= |greeters|
        invariant GreetAll(Value(), g, greeters[i..], m) == GreetAll(start, g, greeters, m)
      {
        assert greeters[i..][0] == greeters[i] && greeters[i..][1..] == greeters[i + 1..];
        GreetOne(g, greeters[i], m);
        i := i + 1;
      }
    }

    method OnHandlerReturn(id: string, ok: bool)
      requires Possible(Value(), HandlerReturns(id, ok))
      modifies this
      ensures Value() == Step(old(Value()), HandlerReturns(id, ok))
    {
      world := world.(running := world.running - {id},
                      finished := world.finished[id := Finish(ok, OpenSocket(Value()))]);
      if ok {
        SendFrame(Chunk(id));
        SendFrame(Result(id));
      } else {
        SendFrame(ErrorReply(id, "HANDLER_ERROR"));
      }
    }

    method RejectAllPendingAdapterCalls()
      modifies this
      ensures Value() == RejectAll(old(Value()))
    {
      var timers, settled := RejectEach(pendingAdapterCalls, world.timers, world.settled);
      world := world.(timers := timers, settled := settled);
      pendingAdapterCalls := map[];
    }

    method OnSocketClose(g: nat)
      requires Possible(Value(), Closes(g))
      modifies this
      ensures Value() == Step(old(Value()), Closes(g))
    {
      hide ClearTimers, RejectAll;
      world := world.(socks := world.socks[g := world.socks[g].(phase := Closed)]);
      ClearBothTimers();
      RejectAllPendingAdapterCalls();
      if disconnectedAt == None {
        disconnectedAt := Some(world.now);
      }
      world := world.(connected := false);
      if !stopped {
        ScheduleNext();
      }
    }

    method ScheduleNext()
      modifies this
      ensures Value() == ScheduleReconnect(old(Value()))
    {
      reconnectCount := reconnectCount + 1;
      var id := SetTimer(Reconnect(world.now + backoffMs));
      reconnectTimer := Some(id);
    }

    method CallAdapter(id: string, timeout: Option<int>)
      requires Possible(Value(), SendCall(id, timeout))
      modifies this
      ensures Value() == Step(old(Value()), SendCall(id, timeout))
    {
      if ws == None || ws.value >= |world.socks| || world.socks[ws.value].phase != Open {
        SettleCall(id, NotConnected);
        return;
      }
      hide Arm;
      var ms := if timeout.Some? then timeout.value else DEFAULT_ADAPTER_CALL_TIMEOUT_MS;
      var timer := SetTimer(CallTimeout(world.now + TimerDelay(ms), id));
      pendingAdapterCalls := pendingAdapterCalls[id := timer];
      SendFrame(AdapterCall(id));
    }

    method OnTimer(t: nat, tokenOk: bool)
      requires Possible(Value(), Fire(t, tokenOk))
      modifies this
      ensures Value() == Step(old(Value()), Fire(t, tokenOk))
    {
      match world.timers[t]
      case Hello(_) => OnHelloTimeout(t);
      case Heartbeat(_) =>
        world := world.(timers := world.timers[t := Heartbeat(world.now + HEARTBEAT_INTERVAL_MS)]);
        SendFrame(Beat);
      case Reconnect(_) => OnReconnectTimer(t, tokenOk);
      case CallTimeout(_, id) => OnCallTimeout(t, id);
    }

    method OnHelloTimeout(t: nat)
      modifies this
      ensures Value() == CloseCurrent(Clear(old(Value()), t))
    {
      ClearTimer(t);
      CloseWs();
    }

    method OnReconnectTimer(t: nat, tokenOk: bool)
      requires t in world.timers && world.timers[t].Reconnect?
      modifies this
      ensures Value() == Fired(old(Value()), t, tokenOk)
    {
      ClearTimer(t);
      if stopped {
        return;
      }
      if !tokenOk {
        world := world.(crashed := true);
        return;
      }
      OpenNewSocket(true);
      backoffMs := Min(backoffMs * 2, BACKOFF_MAX_MS);
      world := world.(firings := world.firings + 1);
    }

    method OnCallTimeout(t: nat, id: string)
      modifies this
      ensures Value() == CallExpired(old(Value()), t, id)
    {
      ClearTimer(t);
      pendingAdapterCalls := pendingAdapterCalls - {id};
      SettleCall(id, TimedOut);
    }
  }
}
