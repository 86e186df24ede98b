/**
 * The connection lifecycle when a new connection is started only after every earlier socket's close event and with no
 * reconnect under way: one socket, one heartbeat, one way forward at a time.
 */
module ConnectionDiscipline {
  import opened Text
  import opened GatewayConnection
  import opened GatewayLifecycle

  predicate AllClosed(s: State)
  {
    forall g :: 0 <= g < |s.socks| ==> s.socks[g].phase == Closed
  }

  predicate NoReconnect(s: State)
  {
    forall t :: t in s.timers ==> !s.timers[t].Reconnect?
  }

  /** What a caller has to see to before it connects. */
  predicate Quiet(s: State)
  {
    AllClosed(s) && NoReconnect(s)
  }

  predicate Disciplined(s: State, e: Event)
  {
    e.Connect? ==> Quiet(s)
  }

  function DisciplinedRun(s: State, es: seq<Event>): Option<State>
    decreases |es|
  {
    if es == [] then Some(s)
    else if Possible(s, es[0]) && Disciplined(s, es[0]) then DisciplinedRun(Step(s, es[0]), es[1..])
    else None
  }

  predicate IsHeartbeat(s: State, t: nat)
  {
    t in s.timers && s.timers[t].Heartbeat?
  }

  /** The newest socket is the only one that may be alive, and it is the client's unless the client is stopped. */
  predicate OneSocket(s: State)
  {
    && (forall g :: 0 <= g < |s.socks| - 1 ==> s.socks[g].phase == Closed)
    && (s.ws.Some? ==> !s.stopped && s.ws.value == |s.socks| - 1)
    && (s.socks != [] && Last(s.socks).phase != Closed ==>
          if s.stopped then Last(s.socks).phase == Closing else s.ws == Some(|s.socks| - 1))
  }

  predicate Handshake(sock: Sock)
  {
    && |sock.greeters| <= 1
    && (sock.phase == Connecting ==> sock.greeters == [] && !sock.shaken)
    && (sock.shaken ==> sock.greeters == [])
  }

  ghost predicate TimersInLine(s: State)
  {
    && (forall t: nat :: IsHeartbeat(s, t) ==>
          s.heartbeatTimer == Some(t) && s.socks != [] && Last(s.socks).phase != Closed && Last(s.socks).shaken)
    && (forall t: nat :: IsReconnect(s, t) ==> !s.stopped && s.socks != [] && Last(s.socks).phase == Closed)
  }

  /** The connected callback has been heard for the newest socket, and its close event is still to come. */
  predicate Greeting(socks: seq<Sock>)
  {
    socks != [] && Last(socks).phase != Closed && Last(socks).shaken
  }

  ghost predicate InLine(s: State)
  {
    && OneSocket(s) && TimersInLine(s)
    && (s.socks != [] ==> Handshake(Last(s.socks)))
    && (s.notes.connected <==> Greeting(s.socks))
  }

  // ----- Every step keeps the line -----

  lemma OpensInLine(s: State, g: nat)
    requires Sane(s) && InLine(s) && PhaseOf(s, g) == Connecting
    ensures InLine(OnOpen(SetPhase(s, g, Open)))
  {
    var t := OnOpen(SetPhase(s, g, Open));
    assert g == |s.socks| - 1 && s.ws == Some(g);
    assert t.socks[g].greeters == [] + [s.nextTimer];
    forall k | IsHeartbeat(t, k) ensures IsHeartbeat(s, k) {
    }
    forall k | IsReconnect(t, k) ensures IsReconnect(s, k) {
    }
  }

  lemma CloseCurrentInLine(s: State)
    requires InLine(s)
    ensures InLine(CloseCurrent(s))
  {
    var t := CloseCurrent(s);
    forall k | IsHeartbeat(t, k) ensures IsHeartbeat(s, k) {
    }
    forall k | IsReconnect(t, k) ensures IsReconnect(s, k) {
    }
  }

  /** Same sockets, and neither a heartbeat nor a reconnect timer that was not there. */
  ghost predicate OnlyFewerTimers(s: State, t: State)
  {
    && t.ws == s.ws && t.heartbeatTimer == s.heartbeatTimer && t.stopped == s.stopped && t.socks == s.socks
    && t.notes.connected == s.notes.connected
    && (forall k: nat :: IsHeartbeat(t, k) ==> IsHeartbeat(s, k))
    && (forall k: nat :: IsReconnect(t, k) ==> IsReconnect(s, k))
  }

  lemma FewerTimersInLine(s: State, t: State)
    requires InLine(s) && OnlyFewerTimers(s, t)
    ensures InLine(t)
  {
  }

  lemma FewerOn(s: State, t: State, u: State)
    requires OnlyFewerTimers(s, t) && OnlyFewerTimers(t, u)
    ensures OnlyFewerTimers(s, u)
  {
  }

  lemma ClearFewerTimers(s: State, k: nat)
    ensures OnlyFewerTimers(s, Clear(s, k))
  {
  }

  lemma WelcomeInLine(s: State, g: nat, hostId: string)
    requires InLine(s) && g == |s.socks| - 1 && s.socks[g].phase != Closed && s.socks[g].phase != Connecting
    requires s.socks[g].greeters == [] && !s.socks[g].shaken
    ensures InLine(Welcome(s, g, hostId))
  {
    var t := Welcome(s, g, hostId);
    forall k | IsHeartbeat(t, k) ensures k == s.nextTimer {
      assert k != s.nextTimer ==> IsHeartbeat(s, k);
    }
    forall k | IsReconnect(t, k) ensures IsReconnect(s, k) {
    }
  }

  lemma FrameFewerTimers(s: State, t: State)
    requires SameHandles(s, t) && t.stopped == s.stopped && t.notes == s.notes
    ensures OnlyFewerTimers(s, t)
  {
  }

  lemma MessageFewerTimers(s: State, m: Incoming)
    ensures OnlyFewerTimers(s, OnMessage(s, m))
  {
    hide OnlyFewerTimers, OnReply, OnCall;
    match m
    case AdapterResponse(id, result) => ReplyFewerTimers(s, id, Response(result));
    case AdapterError(id, error) => ReplyFewerTimers(s, id, Failure(error));
    case _ => FrameFewerTimers(s, OnMessage(s, m));
  }

  lemma ReplyFewerTimers(s: State, id: string, o: Outcome)
    ensures OnlyFewerTimers(s, OnReply(s, id, o))
  {
  }

  lemma GreetInLine(s: State, g: nat, h: nat, m: Incoming)
    requires InLine(s) && g == |s.socks| - 1 && s.socks[g].phase != Closed && s.socks[g].phase != Connecting
    requires s.socks[g].greeters == [] && !s.socks[g].shaken
    ensures InLine(Greet(s, g, h, m))
  {
    hide InLine, Welcome, CloseCurrent;
    var t := Clear(s, h);
    ClearFewerTimers(s, h);
    FewerTimersInLine(s, t);
    if m.Connected? && m.hostId != "" {
      WelcomeInLine(t, g, m.hostId);
    } else {
      CloseCurrentInLine(t);
    }
  }

  lemma HeardInLine(s: State, g: nat, m: Incoming)
    requires InLine(s) && g == |s.socks| - 1
    ensures var u := Heard(s, g, m);
            && InLine(u) && |u.socks| == |s.socks|
            && u.socks[g] == s.socks[g].(greeters := [])
  {
    hide OnMessage;
    var t := s.(socks := s.socks[g := s.socks[g].(greeters := [])]);
    TakeGreetersInLine(s, g);
    MessageFewerTimers(t, m);
    FewerTimersInLine(t, OnMessage(t, m));
  }

  /** In line, only the newest socket can hear anything, and it has at most one listener, before its handshake. */
  lemma HeardByNewest(s: State, g: nat)
    requires InLine(s) && g < |s.socks| && s.socks[g].phase != Closed
    ensures g == |s.socks| - 1 && |s.socks[g].greeters| <= 1 && (s.socks[g].shaken ==> s.socks[g].greeters == [])
  {
  }

  lemma ReceivesInLine(s: State, g: nat, m: Incoming)
    requires InLine(s) && g < |s.socks| && (s.socks[g].phase == Open || s.socks[g].phase == Closing)
    ensures InLine(GreetAll(Heard(s, g, m), g, s.socks[g].greeters, m))
  {
    hide InLine, Heard, Greet;
    HeardByNewest(s, g);
    HeardInLine(s, g, m);
    var hs := s.socks[g].greeters;
    if hs != [] {
      assert hs[1..] == [];
      GreetInLine(Heard(s, g, m), g, hs[0], m);
      assert GreetAll(Heard(s, g, m), g, hs, m) == Greet(Heard(s, g, m), g, hs[0], m);
    }
  }

  lemma TakeGreetersInLine(s: State, g: nat)
    requires InLine(s) && g == |s.socks| - 1
    ensures InLine(s.(socks := s.socks[g := s.socks[g].(greeters := [])]))
  {
    var t := s.(socks := s.socks[g := s.socks[g].(greeters := [])]);
    forall k | IsHeartbeat(t, k) ensures IsHeartbeat(s, k) {
    }
    forall k | IsReconnect(t, k) ensures IsReconnect(s, k) {
    }
  }

  lemma ClearTimersClears(s: State)
    requires Sane(s) && InLine(s)
    ensures forall k :: !IsHeartbeat(ClearTimers(s), k) && !IsReconnect(ClearTimers(s), k)
  {
    forall k ensures !IsHeartbeat(ClearTimers(s), k) && !IsReconnect(ClearTimers(s), k) {
      assert IsHeartbeat(s, k) ==> k in Handle(s.heartbeatTimer);
      assert IsReconnect(s, k) ==> k in Handle(s.reconnectTimer);
    }
  }

  lemma ClosesInLine(s: State, g: nat)
    requires Sane(s) && InLine(s) && g < |s.socks| && s.socks[g].phase != Closed
    ensures InLine(OnClose(SetPhase(s, g, Closed)))
    ensures AllClosed(OnClose(SetPhase(s, g, Closed)))
  {
    ClearTimersClears(s);
    var t := OnClose(SetPhase(s, g, Closed));
    var u := Lost(RejectAll(ClearTimers(SetPhase(s, g, Closed))));
    forall k ensures !IsHeartbeat(u, k) && !IsReconnect(u, k) {
      assert !IsHeartbeat(ClearTimers(s), k) && !IsReconnect(ClearTimers(s), k);
    }
    forall k | IsHeartbeat(t, k) ensures IsHeartbeat(u, k) {
    }
    assert Last(t.socks).phase == Closed;
  }

  lemma StopInLine(s: State)
    requires Sane(s) && InLine(s)
    ensures InLine(AfterStop(s))
  {
    ClearTimersClears(s);
    var t := AfterStop(s);
    forall k ensures !IsHeartbeat(t, k) && !IsReconnect(t, k) {
      assert !IsHeartbeat(ClearTimers(s), k) && !IsReconnect(ClearTimers(s), k);
    }
  }

  lemma NewSocketInLine(s: State)
    requires InLine(s) && AllClosed(s) && !s.stopped && forall k :: !IsReconnect(s, k)
    ensures InLine(DoConnect(s, true))
  {
    var t := DoConnect(s, true);
    forall k ensures !IsHeartbeat(t, k) && !IsReconnect(t, k) {
      assert !IsHeartbeat(s, k) && !IsReconnect(s, k);
    }
  }

  lemma ConnectInLine(s: State, tokenOk: bool)
    requires InLine(s) && Quiet(s)
    ensures InLine(AfterConnect(s, tokenOk))
  {
    var t := s.(stopped := false);
    forall k ensures !IsHeartbeat(t, k) && !IsReconnect(t, k) {
      assert !IsHeartbeat(s, k);
    }
    if tokenOk {
      NewSocketInLine(t);
    }
  }

  lemma ReconnectInLine(s: State, t: nat)
    requires Sane(s) && InLine(s) && IsReconnect(s, t)
    ensures InLine(Fired(s, t, true))
  {
    var u := Clear(s, t);
    ClearFewerTimers(s, t);
    FewerTimersInLine(s, u);
    forall k: nat ensures !IsReconnect(u, k) {
      assert IsReconnect(s, k) ==> k == t;
    }
    NewSocketInLine(u);
    FewerTimersInLine(DoConnect(u, true), Fired(s, t, true));
  }

  lemma FireInLine(s: State, t: nat, tokenOk: bool)
    requires Sane(s) && InLine(s) && t in s.timers
    ensures InLine(Fired(s, t, tokenOk))
  {
    hide InLine, Sane, OnlyFewerTimers, CloseCurrent, CallExpired, DoConnect;
    ClearFewerTimers(s, t);
    FewerTimersInLine(s, Clear(s, t));
    match s.timers[t]
    case Hello(_) => CloseCurrentInLine(Clear(s, t));
    case Heartbeat(_) => BeatInLine(s, t, s.now + HEARTBEAT_INTERVAL_MS);
    case Reconnect(_) =>
      if tokenOk {
        ReconnectInLine(s, t);
      } else {
        FrameFewerTimers(Clear(s, t), Fired(s, t, tokenOk));
        FewerTimersInLine(Clear(s, t), Fired(s, t, tokenOk));
      }
    case CallTimeout(_, id) =>
      CallExpiredFewerTimers(s, t, id);
      FewerTimersInLine(s, Fired(s, t, tokenOk));
  }

  lemma CallExpiredFewerTimers(s: State, t: nat, id: string)
    ensures OnlyFewerTimers(s, CallExpired(s, t, id))
  {
  }

  lemma BeatInLine(s: State, t: nat, due: nat)
    requires InLine(s) && IsHeartbeat(s, t)
    ensures InLine(Send(s.(timers := s.timers[t := Heartbeat(due)]), Beat))
  {
    var u := Send(s.(timers := s.timers[t := Heartbeat(due)]), Beat);
    forall k | IsHeartbeat(u, k) ensures IsHeartbeat(s, k) {
    }
    forall k | IsReconnect(u, k) ensures IsReconnect(s, k) {
    }
  }

  lemma ArmCallFewerTimers(s: State, id: string, due: nat)
    ensures OnlyFewerTimers(s, Arm(s, CallTimeout(due, id)).(pending := s.pending[id := s.nextTimer]))
  {
  }

  lemma SendCallFewerTimers(s: State, id: string, timeout: Option<int>)
    ensures OnlyFewerTimers(s, SendAdapterCall(s, id, timeout))
  {
    hide OnlyFewerTimers, Send;
    if OpenSocket(s) == None {
      FrameFewerTimers(s, SendAdapterCall(s, id, timeout));
    } else {
      var t := Arm(s, CallTimeout(Deadline(s, timeout), id)).(pending := s.pending[id := s.nextTimer]);
      ArmCallFewerTimers(s, id, Deadline(s, timeout));
      FrameFewerTimers(t, SendAdapterCall(s, id, timeout));
      FewerOn(s, t, SendAdapterCall(s, id, timeout));
    }
  }

  lemma StepInLine(s: State, e: Event)
    requires Sane(s) && InLine(s) && Possible(s, e) && Disciplined(s, e)
    ensures InLine(Step(s, e))
  {
    hide Sane, InLine, OnlyFewerTimers;
    match e
    case Opens(g) => OpensInLine(s, g);
    case Receives(g, m) =>
      if m.NullMessage? {
        FrameFewerTimers(s, Step(s, e));
        FewerTimersInLine(s, Step(s, e));
      } else {
        ReceivesInLine(s, g, m);
      }
    case Closes(g) => ClosesInLine(s, g);
    case Fire(t, tokenOk) => FireInLine(s, t, tokenOk);
    case Connect(tokenOk) => ConnectInLine(s, tokenOk);
    case Stop => StopInLine(s);
    case SendCall(id, timeout) =>
      SendCallFewerTimers(s, id, timeout);
      FewerTimersInLine(s, Step(s, e));
    case HandlerReturns(_, _) =>
      FrameFewerTimers(s, Step(s, e));
      FewerTimersInLine(s, Step(s, e));
    case Tick(_) =>
      FrameFewerTimers(s, Step(s, e));
      FewerTimersInLine(s, Step(s, e));
  }

  /** In line, a socket that opens is the client's own. */
  lemma OpensCurrent(s: State, g: nat)
    requires InLine(s) && PhaseOf(s, g) == Connecting
    ensures s.ws == Some(g)
  {
  }

  /** In line, a reconnect timer that fires finds the client not stopped. */
  lemma ReconnectUnstopped(s: State, t: nat)
    requires InLine(s) && IsReconnect(s, t)
    ensures !s.stopped
  {
  }

  lemma {:induction false} RunInLine(s: State, es: seq<Event>)
    requires Sane(s) && InLine(s) && DisciplinedRun(s, es).Some?
    ensures var t := DisciplinedRun(s, es).value;
            && Sane(t) && InLine(t)
            && (t.crashed <==> s.crashed || exists e :: e in es && (IsNull(e) || ReconnectFails(e)))
    decreases |es|
  {
    hide Sane, InLine;
    if es == [] {
    } else {
      var t := Step(s, es[0]);
      StepSane(s, es[0]);
      StepInLine(s, es[0]);
      StepCrashesIff(s, es[0]);
      if es[0].Opens? {
        OpensCurrent(s, es[0].g);
      } else if ReconnectFails(es[0]) {
        ReconnectUnstopped(s, es[0].t);
      }
      RunInLine(t, es[1..]);
      assert es[0] in es;
      assert forall e :: e in es <==> e == es[0] || e in es[1..];
    }
  }

  /**
   * In every disciplined run: at most one socket is alive; at most one heartbeat is armed, and then the handshake is
   * done on that socket; heartbeat and reconnect timer are never both armed; a stopped client whose sockets are closed
   * has neither; what the callbacks said last is whether the newest socket is greeted and not yet closed; and the
   * client crashes exactly when it is sent the message `null` or the getter throws in a reconnect.
   */
  lemma ConnectionLifecycle(handlers: set<string>, now: nat, es: seq<Event>)
    requires DisciplinedRun(Initial(handlers, now), es).Some?
    ensures var s := DisciplinedRun(Initial(handlers, now), es).value;
            && (s.crashed <==> exists e :: e in es && (IsNull(e) || ReconnectFails(e)))
            && (forall g, h :: PhaseOf(s, g) != Closed && PhaseOf(s, h) != Closed ==> g == h)
            && (forall t, u :: IsHeartbeat(s, t) && IsHeartbeat(s, u) ==> t == u)
            && (forall t: nat :: IsHeartbeat(s, t) ==>
                  s.socks != [] && Last(s.socks).phase != Closed && Last(s.socks).shaken)
            && (forall t, u :: !(IsHeartbeat(s, t) && IsReconnect(s, u)))
            && (s.stopped && AllClosed(s) ==> forall t :: !IsHeartbeat(s, t) && !IsReconnect(s, t))
            && (s.notes.connected <==> s.socks != [] && Last(s.socks).phase != Closed && Last(s.socks).shaken)
  {
    RunInLine(Initial(handlers, now), es);
  }

  /** The discipline is exactly what is needed: connecting keeps the line if and only if the client is quiet. */
  lemma ConnectKeepsLineIffQuiet(s: State)
    requires Sane(s) && InLine(s)
    ensures InLine(AfterConnect(s, true)) <==> Quiet(s)
  {
    var t := AfterConnect(s, true);
    if Quiet(s) {
      ConnectInLine(s, true);
    } else if !AllClosed(s) {
      var g :| 0 <= g < |s.socks| && s.socks[g].phase != Closed;
      assert t.socks[g].phase != Closed && g < |t.socks| - 1;
    } else {
      var k :| k in s.timers && s.timers[k].Reconnect?;
      assert IsReconnect(t, k) && Last(t.socks).phase == Connecting;
    }
  }

  /** A stop on its own makes the client quiet as soon as its socket's close event has come. */
  lemma StopThenCloseIsQuiet(s: State, g: nat)
    requires Sane(s) && InLine(s) && Possible(s, Stop)
    requires Possible(Step(s, Stop), Closes(g))
    ensures Quiet(Step(Step(s, Stop), Closes(g)))
  {
    StopInLine(s);
    StepSane(s, Stop);
    var t := AfterStop(s);
    ClosesInLine(t, g);
    var u := Step(t, Closes(g));
    forall k | k in u.timers ensures !u.timers[k].Reconnect? {
      assert IsReconnect(u, k) ==> !u.stopped;
    }
  }
}
