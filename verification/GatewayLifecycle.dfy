/** What every run of the Gateway client keeps about its sockets and timers, and what only disciplined runs keep. */
module GatewayLifecycle {
  import opened Text
  import opened GatewayConnection

  // ----- Handles and timers agree, in every run -----

  ghost predicate TimersNamed(s: State)
  {
    && (forall t :: t in s.timers ==> t < s.nextTimer)
    && (s.heartbeatTimer.Some? ==>
          s.heartbeatTimer.value < s.nextTimer
          && (s.heartbeatTimer.value in s.timers ==> s.timers[s.heartbeatTimer.value].Heartbeat?))
    && (s.reconnectTimer.Some? ==>
          s.reconnectTimer.value < s.nextTimer
          && (s.reconnectTimer.value in s.timers ==> s.timers[s.reconnectTimer.value].Reconnect?))
    && (forall t :: t in s.timers && s.timers[t].Reconnect? ==> s.reconnectTimer == Some(t))
  }

  ghost predicate CallsTimed(s: State)
  {
    && (forall id :: id in s.pending ==>
          s.pending[id] in s.timers && s.timers[s.pending[id]].CallTimeout? && s.timers[s.pending[id]].id == id)
    && (forall t :: t in s.timers && s.timers[t].CallTimeout? ==>
          s.timers[t].id in s.pending && s.pending[s.timers[t].id] == t)
  }

  predicate HelloHandle(s: State, h: nat)
  {
    h < s.nextTimer && (h in s.timers ==> s.timers[h].Hello?)
  }

  predicate HelloHandles(s: State, hs: seq<nat>)
  {
    forall h :: h in hs ==> HelloHandle(s, h)
  }

  ghost predicate GreetersNamed(s: State)
  {
    forall g :: 0 <= g < |s.socks| ==> HelloHandles(s, s.socks[g].greeters)
  }

  /** Handles of hello timers stay what they are, and sockets get no other new listeners. */
  ghost predicate GreetersFrom(s: State, t: State)
  {
    && (forall h :: HelloHandle(s, h) ==> HelloHandle(t, h))
    && (forall g :: 0 <= g < |t.socks| ==>
          (g < |s.socks| && t.socks[g].greeters == s.socks[g].greeters) || HelloHandles(t, t.socks[g].greeters))
  }

  lemma GreetersKept(s: State, t: State)
    requires GreetersNamed(s) && GreetersFrom(s, t)
    ensures GreetersNamed(t)
  {
    forall g | 0 <= g < |t.socks| ensures HelloHandles(t, t.socks[g].greeters) {
      if g < |s.socks| && t.socks[g].greeters == s.socks[g].greeters {
        assert HelloHandles(s, s.socks[g].greeters);
      }
    }
  }

  ghost predicate Sane(s: State)
  {
    && (s.ws.Some? ==> s.ws.value < |s.socks|)
    && TimersNamed(s) && CallsTimed(s) && GreetersNamed(s)
  }

  // Each of the small changes the client's methods are made of

  predicate SameHandles(s: State, t: State)
  {
    && t.ws == s.ws && t.heartbeatTimer == s.heartbeatTimer && t.reconnectTimer == s.reconnectTimer
    && t.pending == s.pending && t.socks == s.socks && t.timers == s.timers && t.nextTimer == s.nextTimer
  }

  lemma FrameSane(s: State, t: State)
    requires Sane(s) && SameHandles(s, t)
    ensures Sane(t)
    ensures forall k :: HelloHandle(s, k) ==> HelloHandle(t, k)
  {
    GreetersKept(s, t);
  }

  lemma ClearSane(s: State, h: nat)
    requires Sane(s) && HelloHandle(s, h)
    ensures Sane(Clear(s, h))
    ensures forall k :: HelloHandle(s, k) ==> HelloHandle(Clear(s, h), k)
  {
    GreetersKept(s, Clear(s, h));
  }

  lemma ArmSane(s: State, t: Timer)
    requires Sane(s) && !t.Reconnect? && !t.CallTimeout?
    ensures Sane(Arm(s, t))
    ensures forall k :: HelloHandle(s, k) ==> HelloHandle(Arm(s, t), k)
  {
    GreetersKept(s, Arm(s, t));
  }

  lemma StartHeartbeatSane(s: State)
    requires Sane(s)
    ensures Sane(StartHeartbeat(s))
    ensures forall k :: HelloHandle(s, k) ==> HelloHandle(StartHeartbeat(s), k)
  {
    var beat := Heartbeat(s.now + HEARTBEAT_INTERVAL_MS);
    ArmSane(s, beat);
    GreetersKept(Arm(s, beat), StartHeartbeat(s));
  }

  /** Changing a socket's phase or its record of the handshake leaves all handles alone. */
  lemma SockSane(s: State, g: nat, sock: Sock)
    requires Sane(s) && g < |s.socks| && HelloHandles(s, sock.greeters)
    ensures Sane(s.(socks := s.socks[g := sock]))
    ensures forall k :: HelloHandle(s, k) ==> HelloHandle(s.(socks := s.socks[g := sock]), k)
  {
    GreetersKept(s, s.(socks := s.socks[g := sock]));
  }

  lemma CloseCurrentSane(s: State)
    requires Sane(s)
    ensures Sane(CloseCurrent(s))
    ensures forall k :: HelloHandle(s, k) ==> HelloHandle(CloseCurrent(s), k)
  {
    if s.ws.Some? {
      assert HelloHandles(s, s.socks[s.ws.value].greeters);
      SockSane(s, s.ws.value, CloseSock(s.socks[s.ws.value]));
    }
  }

  lemma WelcomeSane(s: State, g: nat, hostId: string)
    requires Sane(s)
    ensures Sane(Welcome(s, g, hostId))
    ensures forall k :: HelloHandle(s, k) ==> HelloHandle(Welcome(s, g, hostId), k)
  {
    var t := Greeted(s, hostId);
    FrameSane(s, t);
    StartHeartbeatSane(t);
    var u := StartHeartbeat(t);
    if g < |u.socks| {
      assert HelloHandles(u, u.socks[g].greeters);
      SockSane(u, g, u.socks[g].(shaken := true));
    }
  }

  lemma GreetSane(s: State, g: nat, h: nat, m: Incoming)
    requires Sane(s) && HelloHandle(s, h)
    ensures Sane(Greet(s, g, h, m))
    ensures forall k :: HelloHandle(s, k) ==> HelloHandle(Greet(s, g, h, m), k)
  {
    ClearSane(s, h);
    if m.Connected? && m.hostId != "" {
      WelcomeSane(Clear(s, h), g, m.hostId);
    } else {
      CloseCurrentSane(Clear(s, h));
    }
  }

  lemma {:induction false} GreetAllSane(s: State, g: nat, hs: seq<nat>, m: Incoming)
    requires Sane(s) && HelloHandles(s, hs)
    ensures Sane(GreetAll(s, g, hs, m))
    decreases |hs|
  {
    if hs == [] {
    } else {
      GreetSane(s, g, hs[0], m);
      GreetAllSane(Greet(s, g, hs[0], m), g, hs[1..], m);
    }
  }

  lemma ReplySane(s: State, id: string, o: Outcome)
    requires Sane(s)
    ensures Sane(OnReply(s, id, o))
    ensures forall k :: HelloHandle(s, k) ==> HelloHandle(OnReply(s, id, o), k)
  {
    GreetersKept(s, OnReply(s, id, o));
  }

  lemma MessageSane(s: State, m: Incoming)
    requires Sane(s)
    ensures Sane(OnMessage(s, m))
    ensures forall k :: HelloHandle(s, k) ==> HelloHandle(OnMessage(s, m), k)
  {
    hide Sane, HelloHandle, OnReply, OnCall;
    match m
    case AdapterResponse(id, result) => ReplySane(s, id, Response(result));
    case AdapterError(id, error) => ReplySane(s, id, Failure(error));
    case _ => FrameSane(s, OnMessage(s, m));
  }

  /** Taking the listeners off a socket. */
  lemma HeardStartsSane(s: State, g: nat)
    requires Sane(s) && g < |s.socks|
    ensures Sane(s.(socks := s.socks[g := s.socks[g].(greeters := [])]))
  {
    SockSane(s, g, s.socks[g].(greeters := []));
  }

  lemma HeardSane(s: State, g: nat, m: Incoming)
    requires Sane(s) && g < |s.socks|
    ensures Sane(Heard(s, g, m))
    ensures HelloHandles(Heard(s, g, m), s.socks[g].greeters)
  {
    assert HelloHandles(s, s.socks[g].greeters);
    var t := s.(socks := s.socks[g := s.socks[g].(greeters := [])]);
    SockSane(s, g, s.socks[g].(greeters := []));
    MessageSane(t, m);
  }

  lemma ClearTimersSane(s: State)
    requires Sane(s)
    ensures Sane(ClearTimers(s))
  {
    GreetersKept(s, ClearTimers(s));
  }

  lemma RejectAllSane(s: State)
    requires Sane(s)
    ensures Sane(RejectAll(s)) && RejectAll(s).pending == map[]
  {
    var t := RejectAll(s);
    forall k | k in t.timers ensures !t.timers[k].CallTimeout? {
      assert s.timers[k].CallTimeout? ==> k in TimersOf(s.pending, s.pending.Keys);
    }
    GreetersKept(s, t);
  }

  lemma ScheduleSane(s: State)
    requires Sane(s) && forall t :: t in s.timers ==> !s.timers[t].Reconnect?
    ensures Sane(ScheduleReconnect(s))
  {
    GreetersKept(s, ScheduleReconnect(s));
  }

  lemma CloseSane(s: State)
    requires Sane(s)
    ensures Sane(OnClose(s))
  {
    ClearTimersSane(s);
    RejectAllSane(ClearTimers(s));
    FrameSane(RejectAll(ClearTimers(s)), Lost(RejectAll(ClearTimers(s))));
    var t := Lost(RejectAll(ClearTimers(s)));
    if !t.stopped {
      ScheduleSane(t);
    }
  }

  lemma OpenSane(s: State)
    requires Sane(s)
    ensures Sane(OnOpen(s))
  {
    hide Sane;
    var sent := Send(s, HelloFrame(s.hostId));
    FrameSane(s, sent);
    var hello := Hello(s.now + HELLO_TIMEOUT_MS);
    ArmSane(sent, hello);
    var t := Arm(sent, hello);
    if t.ws.Some? {
      GreeterSane(t, t.ws.value, s.nextTimer);
    } else {
      FrameSane(t, t.(crashed := true));
    }
  }

  lemma GreeterSane(s: State, g: nat, h: nat)
    requires Sane(s) && g < |s.socks| && HelloHandle(s, h)
    ensures Sane(s.(socks := s.socks[g := s.socks[g].(greeters := s.socks[g].greeters + [h])]))
  {
    assert HelloHandles(s, s.socks[g].greeters);
    SockSane(s, g, s.socks[g].(greeters := s.socks[g].greeters + [h]));
  }

  lemma DoConnectSane(s: State)
    requires Sane(s)
    ensures Sane(DoConnect(s, true))
  {
    GreetersKept(s, DoConnect(s, true));
  }

  lemma BeatSane(s: State, t: nat, due: nat)
    requires Sane(s) && t in s.timers && s.timers[t].Heartbeat?
    ensures Sane(s.(timers := s.timers[t := Heartbeat(due)]))
  {
    GreetersKept(s, s.(timers := s.timers[t := Heartbeat(due)]));
  }

  lemma ClearReconnectSane(s: State, t: nat)
    requires Sane(s) && t in s.timers && s.timers[t].Reconnect?
    ensures Sane(Clear(s, t))
  {
    GreetersKept(s, Clear(s, t));
  }

  lemma ClearCallSane(s: State, t: nat)
    requires Sane(s) && t in s.timers && s.timers[t].CallTimeout?
    ensures Sane(Clear(s, t).(pending := s.pending - {s.timers[t].id}))
  {
    GreetersKept(s, Clear(s, t).(pending := s.pending - {s.timers[t].id}));
  }

  lemma HelloTimeoutSane(s: State, t: nat)
    requires Sane(s) && t in s.timers && s.timers[t].Hello?
    ensures Sane(CloseCurrent(Clear(s, t)))
  {
    ClearSane(s, t);
    CloseCurrentSane(Clear(s, t));
  }

  lemma FiredSane(s: State, t: nat, tokenOk: bool)
    requires Sane(s) && t in s.timers
    ensures Sane(Fired(s, t, tokenOk))
  {
    hide Sane;
    match s.timers[t]
    case Hello(_) => HelloTimeoutSane(s, t);
    case Heartbeat(_) =>
      BeatSane(s, t, s.now + HEARTBEAT_INTERVAL_MS);
      FrameSane(s.(timers := s.timers[t := Heartbeat(s.now + HEARTBEAT_INTERVAL_MS)]), Fired(s, t, tokenOk));
    case Reconnect(_) =>
      ClearReconnectSane(s, t);
      if !s.stopped && tokenOk {
        DoConnectSane(Clear(s, t));
        FrameSane(DoConnect(Clear(s, t), true), Fired(s, t, tokenOk));
      } else {
        FrameSane(Clear(s, t), Fired(s, t, tokenOk));
      }
    case CallTimeout(_, id) =>
      ClearCallSane(s, t);
      FrameSane(Clear(s, t).(pending := s.pending - {id}), Fired(s, t, tokenOk));
  }

  lemma ArmCallSane(s: State, id: string, due: nat)
    requires Sane(s) && id !in s.pending
    ensures Sane(Arm(s, CallTimeout(due, id)).(pending := s.pending[id := s.nextTimer]))
  {
    GreetersKept(s, Arm(s, CallTimeout(due, id)).(pending := s.pending[id := s.nextTimer]));
  }

  lemma SendCallSane(s: State, id: string, timeout: Option<int>)
    requires Sane(s) && id !in s.pending
    ensures Sane(SendAdapterCall(s, id, timeout))
  {
    if OpenSocket(s) == None {
      FrameSane(s, SendAdapterCall(s, id, timeout));
    } else {
      var due := Deadline(s, timeout);
      ArmCallSane(s, id, due);
      var t := Arm(s, CallTimeout(due, id)).(pending := s.pending[id := s.nextTimer]);
      FrameSane(t, SendAdapterCall(s, id, timeout));
    }
  }

  lemma StopSane(s: State)
    requires Sane(s)
    ensures Sane(AfterStop(s))
  {
    var t := s.(stopped := true);
    FrameSane(s, t);
    ClearTimersSane(t);
    CloseCurrentSane(ClearTimers(t));
    GreetersKept(CloseCurrent(ClearTimers(t)), AfterStop(s));
  }

  lemma PhaseSane(s: State, g: nat, phase: Phase)
    requires Sane(s) && g < |s.socks|
    ensures Sane(SetPhase(s, g, phase))
  {
    assert HelloHandles(s, s.socks[g].greeters);
    SockSane(s, g, s.socks[g].(phase := phase));
  }

  lemma StepSane(s: State, e: Event)
    requires Sane(s) && Possible(s, e)
    ensures Sane(Step(s, e))
  {
    match e
    case Opens(g) =>
      PhaseSane(s, g, Open);
      OpenSane(SetPhase(s, g, Open));
    case Receives(g, m) =>
      if m.NullMessage? {
        FrameSane(s, Step(s, e));
      } else {
        HeardSane(s, g, m);
        GreetAllSane(Heard(s, g, m), g, s.socks[g].greeters, m);
      }
    case Closes(g) =>
      PhaseSane(s, g, Closed);
      CloseSane(SetPhase(s, g, Closed));
    case Fire(t, tokenOk) => FiredSane(s, t, tokenOk);
    case Connect(tokenOk) =>
      FrameSane(s, s.(stopped := false));
      DoConnectSane(s.(stopped := false));
    case Stop => StopSane(s);
    case SendCall(id, timeout) => SendCallSane(s, id, timeout);
    case HandlerReturns(_, _) => FrameSane(s, Step(s, e));
    case Tick(_) => FrameSane(s, Step(s, e));
  }

  lemma {:induction false} RunSane(s: State, es: seq<Event>)
    requires Sane(s) && Run(s, es).Some?
    ensures Sane(Run(s, es).value)
    decreases |es|
  {
    if es == [] {
    } else {
      StepSane(s, es[0]);
      RunSane(Step(s, es[0]), es[1..]);
    }
  }

  // ----- Never stranded, in every run in which the token getter returns to `connect` -----

  /** A current socket whose close event is still to come. */
  predicate HasSocket(s: State)
  {
    s.ws.Some? && PhaseOf(s, s.ws.value) != Closed
  }

  predicate IsReconnect(s: State, t: nat)
  {
    t in s.timers && s.timers[t].Reconnect?
  }

  ghost predicate Tended(s: State)
  {
    HasSocket(s) || exists t :: IsReconnect(s, t)
  }

  /** A client that has connected and is not stopped will hear of its socket or try again. */
  ghost predicate NeverStranded(s: State)
  {
    !s.stopped && s.socks != [] ==> Tended(s)
  }

  /** A client that is stopped, or has never connected, has neither a socket nor an attempt to come. */
  ghost predicate Parked(s: State)
  {
    s.stopped || s.socks == [] ==> s.ws == None && forall t :: !IsReconnect(s, t)
  }

  /** Only such a client is without a socket of its own. */
  predicate HoldsSocket(s: State)
  {
    s.ws == None ==> s.stopped || s.socks == []
  }

  predicate ConnectReturns(e: Event)
  {
    e.Connect? ==> e.tokenOk
  }

  /** A reconnect timer fires, and the getter throws. Nobody awaits the timer's callback. */
  predicate ReconnectFails(e: Event)
  {
    e.Fire? && !e.tokenOk
  }

  /** A change that neither takes away nor brings a socket of the client's own or a reconnect timer. */
  ghost predicate Tends(s: State, t: State)
  {
    && t.stopped == s.stopped && t.ws == s.ws && |t.socks| == |s.socks|
    && (HasSocket(t) <==> HasSocket(s))
    && (forall k :: IsReconnect(t, k) <==> IsReconnect(s, k))
  }

  lemma TendsOn(s: State, t: State, u: State)
    requires Tends(s, t) && Tends(t, u)
    ensures Tends(s, u)
  {
  }

  lemma TendsKeeps(s: State, t: State)
    requires Tends(s, t)
    ensures NeverStranded(t) <==> NeverStranded(s)
    ensures Parked(t) <==> Parked(s)
    ensures HoldsSocket(t) <==> HoldsSocket(s)
  {
  }

  lemma WelcomeTends(s: State, g: nat, hostId: string)
    requires s.nextTimer !in s.timers
    ensures Tends(s, Welcome(s, g, hostId))
  {
  }

  lemma ClearTends(s: State, h: nat)
    requires !IsReconnect(s, h)
    ensures Tends(s, Clear(s, h))
  {
  }

  lemma CloseCurrentTends(s: State)
    ensures Tends(s, CloseCurrent(s))
  {
  }

  lemma GreetTends(s: State, g: nat, h: nat, m: Incoming)
    requires s.nextTimer !in s.timers && HelloHandle(s, h)
    ensures Tends(s, Greet(s, g, h, m))
  {
    hide Tends, Welcome, CloseCurrent;
    var t := Clear(s, h);
    ClearTends(s, h);
    if m.Connected? && m.hostId != "" {
      WelcomeTends(t, g, m.hostId);
    } else {
      CloseCurrentTends(t);
    }
    TendsOn(s, t, Greet(s, g, h, m));
  }

  lemma FreshTimer(s: State)
    requires Sane(s)
    ensures s.nextTimer !in s.timers && CallsTimed(s)
  {
  }

  lemma {:induction false} GreetAllTends(s: State, g: nat, hs: seq<nat>, m: Incoming)
    requires Sane(s) && HelloHandles(s, hs)
    ensures Tends(s, GreetAll(s, g, hs, m))
    decreases |hs|
  {
    hide Sane, Tends;
    if hs == [] {
      FrameTends(s, s);
    } else {
      var t := Greet(s, g, hs[0], m);
      GreetSane(s, g, hs[0], m);
      FreshTimer(s);
      GreetTends(s, g, hs[0], m);
      GreetAllTends(t, g, hs[1..], m);
      TendsOn(s, t, GreetAll(s, g, hs, m));
    }
  }

  lemma ReplyTends(s: State, id: string, o: Outcome)
    requires CallsTimed(s)
    ensures Tends(s, OnReply(s, id, o))
  {
  }

  /** Changes to the logs and the frames sent do not matter here. */
  lemma FrameTends(s: State, t: State)
    requires t.ws == s.ws && t.socks == s.socks && t.timers == s.timers && t.stopped == s.stopped
    ensures Tends(s, t)
  {
  }

  lemma MessageTends(s: State, m: Incoming)
    requires CallsTimed(s)
    ensures Tends(s, OnMessage(s, m))
  {
    hide Tends, CallsTimed, OnReply, OnCall;
    match m
    case AdapterResponse(id, result) => ReplyTends(s, id, Response(result));
    case AdapterError(id, error) => ReplyTends(s, id, Failure(error));
    case _ => FrameTends(s, OnMessage(s, m));
  }

  lemma SockTends(s: State, g: nat, sock: Sock)
    requires g < |s.socks| && (sock.phase == Closed <==> s.socks[g].phase == Closed)
    ensures Tends(s, s.(socks := s.socks[g := sock]))
  {
  }

  lemma HeardTends(s: State, g: nat, m: Incoming)
    requires Sane(s) && g < |s.socks|
    ensures Tends(s, Heard(s, g, m))
  {
    hide Tends, OnMessage;
    var t := s.(socks := s.socks[g := s.socks[g].(greeters := [])]);
    SockTends(s, g, s.socks[g].(greeters := []));
    assert CallsTimed(t);
    MessageTends(t, m);
    TendsOn(s, t, Heard(s, g, m));
  }

  lemma ArmTends(s: State, timer: Timer)
    requires s.nextTimer !in s.timers && !timer.Reconnect?
    ensures Tends(s, Arm(s, timer))
  {
  }

  lemma OpenTends(s: State)
    requires Sane(s)
    ensures Tends(s, OnOpen(s))
  {
    hide Tends, Arm, Send;
    var sent := Send(s, HelloFrame(s.hostId));
    FrameTends(s, sent);
    var t := Arm(sent, Hello(s.now + HELLO_TIMEOUT_MS));
    ArmTends(sent, Hello(s.now + HELLO_TIMEOUT_MS));
    TendsOn(s, sent, t);
    if t.ws.Some? && t.ws.value < |t.socks| {
      SockTends(t, t.ws.value, t.socks[t.ws.value].(greeters := t.socks[t.ws.value].greeters + [s.nextTimer]));
    } else {
      FrameTends(t, OnOpen(s));
    }
    TendsOn(s, t, OnOpen(s));
  }

  lemma CloseArms(s: State)
    requires Parked(s)
    ensures !s.stopped ==> IsReconnect(OnClose(s), s.nextTimer)
    ensures OnClose(s).stopped == s.stopped && OnClose(s).ws == s.ws && |OnClose(s).socks| == |s.socks|
    ensures s.stopped ==> forall k :: !IsReconnect(OnClose(s), k)
  {
    var t := OnClose(s);
    if s.stopped {
      forall k: nat ensures !IsReconnect(t, k) {
        assert IsReconnect(t, k) ==> IsReconnect(s, k);
      }
    }
  }

  lemma CallTimeoutTends(s: State, t: nat, id: string)
    requires t in s.timers && s.timers[t].CallTimeout?
    ensures Tends(s, CallExpired(s, t, id))
  {
  }

  lemma FiredTends(s: State, t: nat, tokenOk: bool)
    requires t in s.timers && !s.timers[t].Reconnect?
    ensures Tends(s, Fired(s, t, tokenOk))
  {
    hide Send, DoConnect, CallExpired;
    if s.timers[t].CallTimeout? {
      CallTimeoutTends(s, t, s.timers[t].id);
    }
  }

  /** Of all events only closes, stops, connects and reconnect timers change how the client is tended. */
  predicate Drives(s: State, e: Event)
  {
    match e
    case Closes(_) => true
    case Stop => true
    case Connect(_) => true
    case Fire(t, _) => IsReconnect(s, t)
    case _ => false
  }

  lemma OtherEventsTend(s: State, e: Event)
    requires Sane(s) && Possible(s, e) && !Drives(s, e)
    ensures Tends(s, Step(s, e))
  {
    hide Sane, Tends;
    match e
    case Opens(g) =>
      PhaseSane(s, g, Open);
      SockTends(s, g, s.socks[g].(phase := Open));
      OpenTends(SetPhase(s, g, Open));
      TendsOn(s, SetPhase(s, g, Open), Step(s, e));
    case Receives(g, m) =>
      if m.NullMessage? {
        FrameTends(s, Step(s, e));
      } else {
        HeardSane(s, g, m);
        HeardTends(s, g, m);
        GreetAllTends(Heard(s, g, m), g, s.socks[g].greeters, m);
        TendsOn(s, Heard(s, g, m), Step(s, e));
      }
    case Fire(t, tokenOk) => FiredTends(s, t, tokenOk);
    case SendCall(id, timeout) => SendCallTends(s, id, timeout);
    case HandlerReturns(_, _) => FrameTends(s, Step(s, e));
    case Tick(_) => FrameTends(s, Step(s, e));
  }

  lemma SendCallTends(s: State, id: string, timeout: Option<int>)
    requires Sane(s)
    ensures Tends(s, SendAdapterCall(s, id, timeout))
  {
    hide Tends;
    if OpenSocket(s) == None {
      FrameTends(s, SendAdapterCall(s, id, timeout));
    } else {
      hide Arm, Send;
      var t := Arm(s, CallTimeout(Deadline(s, timeout), id));
      ArmTends(s, CallTimeout(Deadline(s, timeout), id));
      FrameTends(t, SendAdapterCall(s, id, timeout));
      TendsOn(s, t, SendAdapterCall(s, id, timeout));
    }
  }

  lemma StopParks(s: State)
    requires Sane(s)
    ensures Parked(AfterStop(s)) && NeverStranded(AfterStop(s)) && HoldsSocket(AfterStop(s))
  {
    var t := AfterStop(s);
    forall k: nat ensures !IsReconnect(t, k) {
      assert IsReconnect(s, k) ==> s.reconnectTimer == Some(k);
    }
  }

  lemma CloseTends(s: State, g: nat)
    requires Sane(s) && Parked(s) && g < |s.socks|
    ensures Parked(OnClose(SetPhase(s, g, Closed))) && NeverStranded(OnClose(SetPhase(s, g, Closed)))
    ensures HoldsSocket(s) ==> HoldsSocket(OnClose(SetPhase(s, g, Closed)))
  {
    var t := SetPhase(s, g, Closed);
    assert forall k :: IsReconnect(t, k) <==> IsReconnect(s, k);
    CloseArms(t);
  }

  /** Exactly when an event strands a client that lives on: a stopped client is connected, and the getter throws. */
  predicate Strands(s: State, e: Event)
  {
    e.Connect? && !e.tokenOk && s.stopped && s.socks != []
  }

  lemma ReconnectTends(s: State, t: nat, tokenOk: bool)
    requires Sane(s) && Parked(s) && NeverStranded(s) && IsReconnect(s, t)
    ensures var u := Fired(s, t, tokenOk);
            && Parked(u) && (HoldsSocket(s) ==> HoldsSocket(u))
            && (u.crashed <==> s.crashed || !tokenOk)
            && (tokenOk ==> NeverStranded(u))
  {
    var u := Fired(s, t, tokenOk);
    assert s.reconnectTimer == Some(t);
    if tokenOk {
      assert HasSocket(u);
    } else {
      assert u == Clear(s, t).(crashed := true);
      forall k: nat ensures !IsReconnect(u, k) {
        assert IsReconnect(s, k) ==> k == t;
      }
    }
  }

  lemma ConnectStrandsIff(s: State, tokenOk: bool)
    requires Sane(s) && Parked(s) && NeverStranded(s)
    ensures var u := AfterConnect(s, tokenOk);
            && Parked(u) && (tokenOk ==> HoldsSocket(u))
            && (NeverStranded(u) <==> tokenOk || !s.stopped || s.socks == [])
  {
    var u := AfterConnect(s, tokenOk);
    if tokenOk {
      assert HasSocket(u);
    } else {
      assert forall k: nat :: IsReconnect(u, k) <==> IsReconnect(s, k);
    }
  }

  /**
   * For every event: it strands a client that was not stranded, and leaves the process alive, if and only if it is one
   * of those.
   */
  lemma StrandedIff(s: State, e: Event)
    requires Sane(s) && Parked(s) && NeverStranded(s) && Possible(s, e)
    ensures var t := Step(s, e);
            && Parked(t)
            && (!NeverStranded(t) && !t.crashed <==> Strands(s, e))
            && (!NeverStranded(t) && t.crashed ==> ReconnectFails(e))
            && (HoldsSocket(s) && ConnectReturns(e) ==> HoldsSocket(t))
  {
    hide Sane, Parked, NeverStranded, HoldsSocket;
    if !Drives(s, e) {
      OtherEventsTend(s, e);
      TendsKeeps(s, Step(s, e));
    } else {
      match e {
        case Closes(g) => CloseTends(s, g);
        case Stop => StopParks(s);
        case Connect(tokenOk) => ConnectStrandsIff(s, tokenOk);
        case Fire(t, tokenOk) => ReconnectTends(s, t, tokenOk);
      }
    }
  }

  lemma DrivenKeepsSockets(s: State, e: Event)
    requires Sane(s) && Possible(s, e) && Drives(s, e)
    ensures |Step(s, e).socks| >= |s.socks|
  {
  }

  /** Sockets are only ever added. */
  lemma StepKeepsSockets(s: State, e: Event)
    requires Sane(s) && Possible(s, e)
    ensures |Step(s, e).socks| >= |s.socks|
  {
    hide Sane, Step, Drives;
    if Drives(s, e) {
      DrivenKeepsSockets(s, e);
    } else {
      OtherEventsTend(s, e);
    }
  }

  // ----- What crashes the client -----

  predicate IsNull(e: Event)
  {
    e.Receives? && e.m.NullMessage?
  }

  lemma FireCrashesIff(s: State, t: nat, tokenOk: bool)
    requires Possible(s, Fire(t, tokenOk))
    ensures Fired(s, t, tokenOk).crashed <==> !tokenOk && !s.stopped
  {
    hide CloseCurrent, Send, CallExpired, DoConnect;
  }

  /**
   * Of all events of any state, three crash the client: the message `null`, an open event without a current socket, and
   * a reconnect in which the getter throws.
   */
  lemma StepCrashesIff(s: State, e: Event)
    requires Sane(s) && Possible(s, e)
    ensures Step(s, e).crashed <==> IsNull(e) || (e.Opens? && s.ws == None) || (ReconnectFails(e) && !s.stopped)
  {
    if e.Fire? {
      FireCrashesIff(s, e.t, e.tokenOk);
    }
    hide Fired, Heard, GreetAll, OnClose, AfterStop, SendAdapterCall, HandlerDone, DoConnect, TimersNamed;
    hide CallsTimed, GreetersNamed;
  }

  /** Reconnect timers are armed only while the client is not stopped. */
  lemma FailingReconnect(s: State, e: Event)
    requires Parked(s) && Possible(s, e) && ReconnectFails(e)
    ensures !s.stopped
  {
    assert IsReconnect(s, e.t);
  }

  // ----- Main results -----

  /** What a run without failing connects keeps; only a failing reconnect leaves nothing to come, and it crashes. */
  ghost predicate Kept(s: State, es: seq<Event>)
  {
    && Sane(s) && Parked(s) && HoldsSocket(s)
    && (NeverStranded(s) || (s.crashed && exists e :: e in es && ReconnectFails(e)))
  }

  lemma {:induction false} NeverStrandedAlways(s: State, es: seq<Event>)
    requires Kept(s, []) && Run(s, es).Some?
    requires forall e :: e in es ==> ConnectReturns(e)
    ensures var t := Run(s, es).value;
            && Kept(t, es)
            && (t.crashed ==> s.crashed || t.stopped || exists e :: e in es && (IsNull(e) || ReconnectFails(e)))
    decreases |es|
  {
    hide Sane, Parked, NeverStranded;
    if es == [] {
    } else {
      assert es[0] in es;
      var t := Step(s, es[0]);
      StepSane(s, es[0]);
      StrandedIff(s, es[0]);
      StepCrashesIff(s, es[0]);
      if t.crashed {
        CrashedEnds(t, es[1..]);
      } else {
        NeverStrandedAlways(t, es[1..]);
      }
    }
  }

  lemma CrashedEnds(s: State, es: seq<Event>)
    requires s.crashed && Run(s, es).Some?
    ensures es == [] && Run(s, es).value == s
  {
  }

  /**
   * From the start, over every interleaving of opens, messages, closes of any socket, timers, stops and connects, while
   * the getter does not throw to a caller of `connect`: a client that has connected and is not stopped has a current
   * socket still to be closed or an armed reconnect timer, unless the getter threw in a reconnect and the process is
   * gone. There are never two reconnect timers. And the client crashes only while it is stopped, unless it is sent the
   * message `null` or the getter throws in a reconnect.
   */
  lemma ClientNeverStranded(handlers: set<string>, now: nat, es: seq<Event>)
    requires Run(Initial(handlers, now), es).Some?
    requires forall e :: e in es ==> ConnectReturns(e)
    ensures var s := Run(Initial(handlers, now), es).value;
            && (!s.stopped && s.socks != [] ==>
                  Tended(s) || (s.crashed && exists e :: e in es && ReconnectFails(e)))
            && (forall t, u :: IsReconnect(s, t) && IsReconnect(s, u) ==> t == u)
            && (s.crashed ==> s.stopped || exists e :: e in es && (IsNull(e) || ReconnectFails(e)))
  {
    NeverStrandedAlways(Initial(handlers, now), es);
  }

  /**
   * Exactly what brings a client down whose `connect` did not throw: the message `null`, the open event of a socket
   * while the client is stopped, and a reconnect in which the getter throws.
   */
  lemma CrashesIff(handlers: set<string>, now: nat, es: seq<Event>, e: Event)
    requires Run(Initial(handlers, now), es).Some? && Possible(Run(Initial(handlers, now), es).value, e)
    requires forall x :: x in es ==> ConnectReturns(x)
    ensures var s := Run(Initial(handlers, now), es).value;
            Step(s, e).crashed <==> IsNull(e) || (e.Opens? && s.stopped) || ReconnectFails(e)
  {
    var s := Run(Initial(handlers, now), es).value;
    NeverStrandedAlways(Initial(handlers, now), es);
    StepCrashesIff(s, e);
    if ReconnectFails(e) {
      FailingReconnect(s, e);
    }
  }
}
