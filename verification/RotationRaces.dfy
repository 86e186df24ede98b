/**
 * Concrete runs that go wrong: a connection started while an older socket's close event is still to come, as a token
 * rotation does by stopping and connecting back to back; a hello timer that outlives its socket; the message `null`;
 * and a token getter that throws.
 */
module RotationRaces {
  import opened Text
  import opened GatewayConnection
  import opened GatewayLifecycle
  import opened ConnectionDiscipline
  import opened Heartbeats

  lemma {:induction false} RunSnoc(s: State, es: seq<Event>, e: Event)
    requires Run(s, es).Some? && Possible(Run(s, es).value, e)
    ensures Run(s, es + [e]) == Some(Step(Run(s, es).value, e))
    decreases |es|
  {
    hide Step, Possible;
    if es == [] {
      assert [e][1..] == [];
    } else {
      RunSnoc(Step(s, es[0]), es[1..], e);
      assert (es + [e])[1..] == es[1..] + [e];
    }
  }

  lemma {:induction false} DisciplinedSnoc(s: State, es: seq<Event>, e: Event)
    requires DisciplinedRun(s, es).Some?
    requires var t := DisciplinedRun(s, es).value; Possible(t, e) && Disciplined(t, e)
    ensures DisciplinedRun(s, es + [e]) == Some(Step(DisciplinedRun(s, es).value, e))
    decreases |es|
  {
    hide Step, Possible, Disciplined;
    if es == [] {
      assert [e][1..] == [];
    } else {
      DisciplinedSnoc(Step(s, es[0]), es[1..], e);
      assert (es + [e])[1..] == es[1..] + [e];
    }
  }

  const START := Initial({}, 0)

  /** A run from the start, kept to the discipline if `strict`, leads to `s`. */
  predicate Leads(strict: bool, es: seq<Event>, s: State)
  {
    (if strict then DisciplinedRun(START, es) else Run(START, es)) == Some(s)
  }

  // How the runs below go on

  lemma Then(strict: bool, es: seq<Event>, s: State, e: Event) returns (fs: seq<Event>, u: State)
    requires Leads(strict, es, s) && Possible(s, e) && (strict ==> Disciplined(s, e))
    ensures fs == es + [e] && u == Step(s, e) && Leads(strict, fs, u)
  {
    hide Step, Possible, Disciplined, Run, DisciplinedRun;
    if strict {
      DisciplinedSnoc(START, es, e);
    } else {
      RunSnoc(START, es, e);
    }
    fs, u := es + [e], Step(s, e);
  }

  lemma ThenConnect(strict: bool, es: seq<Event>, s: State) returns (fs: seq<Event>, u: State)
    requires Leads(strict, es, s) && !s.crashed && (strict ==> Quiet(s))
    ensures Leads(strict, fs, u)
    ensures u == s.(stopped := false, ws := Some(|s.socks|), socks := s.socks + [Sock(Connecting, [], false)])
  {
    hide Leads, Quiet;
    fs, u := Then(strict, es, s, Connect(true));
  }

  lemma ThenOpens(strict: bool, es: seq<Event>, s: State, g: nat) returns (fs: seq<Event>, u: State)
    requires Leads(strict, es, s) && !s.crashed
    requires s.ws == Some(g) && g < |s.socks| && s.socks[g] == Sock(Connecting, [], false)
    ensures Leads(strict, fs, u)
    ensures u == s.(
      socks := s.socks[g := Sock(Open, [s.nextTimer], false)],
      timers := s.timers[s.nextTimer := Hello(s.now + 5000)], nextTimer := s.nextTimer + 1,
      sent := s.sent + [Sent(g, HelloFrame(s.hostId))])
  {
    hide Leads;
    fs, u := Then(strict, es, s, Opens(g));
    assert [] + [s.nextTimer] == [s.nextTimer];
  }

  const GREETING := Connected("host")

  lemma ThenGreeted(strict: bool, es: seq<Event>, s: State, g: nat, h: nat) returns (fs: seq<Event>, u: State)
    requires Leads(strict, es, s) && !s.crashed && g < |s.socks| && s.socks[g] == Sock(Open, [h], false)
    ensures Leads(strict, fs, u)
    ensures u == s.(
      socks := s.socks[g := Sock(Open, [], true)],
      timers := (s.timers - {h})[s.nextTimer := Heartbeat(s.now + 30_000)], nextTimer := s.nextTimer + 1,
      heartbeatTimer := Some(s.nextTimer), hostId := Some("host"), backoffMs := 1000, firings := 0,
      notes := Notes(0, None, true))
  {
    hide Leads;
    fs, u := Then(strict, es, s, Receives(g, GREETING));
    var t := s.(socks := s.socks[g := Sock(Open, [], false)]);
    assert Heard(s, g, GREETING) == t;
    assert [h][1..] == [];
    assert GreetAll(t, g, [h], GREETING) == Greet(t, g, h, GREETING);
    assert t.socks[g := Sock(Open, [], true)] == s.socks[g := Sock(Open, [], true)];
  }

  lemma ThenReconnects(strict: bool, es: seq<Event>, s: State, t: nat) returns (fs: seq<Event>, u: State)
    requires Leads(strict, es, s) && !s.crashed && !s.stopped && IsReconnect(s, t) && s.timers[t].due <= s.now
    ensures Leads(strict, fs, u)
    ensures u == s.(
      ws := Some(|s.socks|), socks := s.socks + [Sock(Connecting, [], false)], timers := s.timers - {t},
      backoffMs := Min(s.backoffMs * 2, 60_000), firings := s.firings + 1)
  {
    hide Leads;
    fs, u := Then(strict, es, s, Fire(t, true));
  }

  lemma ThenCloses(strict: bool, es: seq<Event>, s: State, g: nat) returns (fs: seq<Event>, u: State)
    requires Leads(strict, es, s) && !s.crashed && !s.stopped && s.pending == map[]
    requires g < |s.socks| && s.socks[g].phase != Closed
    ensures Leads(strict, fs, u)
    ensures u == s.(
      socks := s.socks[g := s.socks[g].(phase := Closed)],
      timers := (s.timers - Handle(s.heartbeatTimer) - Handle(s.reconnectTimer))
                [s.nextTimer := Reconnect(s.now + s.backoffMs)],
      nextTimer := s.nextTimer + 1, heartbeatTimer := None, reconnectTimer := Some(s.nextTimer), notes := u.notes)
    ensures !u.notes.connected
  {
    hide Leads;
    fs, u := Then(strict, es, s, Closes(g));
    CloseOf(SetPhase(s, g, Closed));
  }

  /** A close while no call is pending and the client is not stopped. */
  lemma CloseOf(s: State)
    requires s.pending == map[] && !s.stopped
    ensures var u := OnClose(s);
            && !u.notes.connected
            && u == s.(
               timers := (s.timers - Handle(s.heartbeatTimer) - Handle(s.reconnectTimer))
                         [s.nextTimer := Reconnect(s.now + s.backoffMs)],
               nextTimer := s.nextTimer + 1, heartbeatTimer := None, reconnectTimer := Some(s.nextTimer),
               notes := u.notes)
  {
    var t := ClearTimers(s);
    assert TimersOf(map[], {}) == {};
    assert RejectedLog(map[], s.settled) == s.settled;
    assert t.timers - {} == t.timers;
    assert RejectAll(t) == t;
  }

  lemma ThenStops(strict: bool, es: seq<Event>, s: State, g: nat) returns (fs: seq<Event>, u: State)
    requires Leads(strict, es, s) && !s.crashed && s.ws == Some(g) && g < |s.socks|
    ensures Leads(strict, fs, u)
    ensures u == s.(
      stopped := true, ws := None, socks := s.socks[g := CloseSock(s.socks[g])],
      timers := s.timers - Handle(s.heartbeatTimer) - Handle(s.reconnectTimer),
      heartbeatTimer := None, reconnectTimer := None)
  {
    hide Leads;
    fs, u := Then(strict, es, s, Stop);
  }

  lemma ThenWaits(strict: bool, es: seq<Event>, s: State, ms: nat) returns (fs: seq<Event>, u: State)
    requires Leads(strict, es, s) && !s.crashed
    ensures Leads(strict, fs, u) && u == s.(now := s.now + ms)
  {
    hide Leads;
    fs, u := Then(strict, es, s, Tick(ms));
  }

  // ----- A rotation and a late close -----

  /** Connected on socket 0. */
  lemma FirstSocket(strict: bool) returns (es: seq<Event>, s: State)
    ensures Leads(strict, es, s)
    ensures s == START.(ws := Some(0), socks := [Sock(Connecting, [], false)])
  {
    assert Leads(strict, [], START);
    hide Leads;
    es, s := ThenConnect(strict, [], START);
    assert [] + [Sock(Connecting, [], false)] == [Sock(Connecting, [], false)];
  }

  /** The parts of a state that the runs below look at. */
  predicate Shows(s: State, ws: Option<nat>, socks: seq<Sock>, timers: map<nat, Timer>, next: nat, now: nat)
  {
    && !s.crashed && s.pending == map[] && s.backoffMs == 1000
    && s.ws == ws && s.socks == socks && s.timers == timers && s.nextTimer == next && s.now == now
  }

  const GREETED := Sock(Open, [], true)
  const NEW := Sock(Connecting, [], false)

  /** Connected and greeted on socket 0. */
  lemma Greeted() returns (es: seq<Event>, s: State)
    ensures Leads(false, es, s) && Shows(s, Some(0), [GREETED], map[1 := Heartbeat(30_000)], 2, 0)
    ensures !s.stopped && s.heartbeatTimer == Some(1) && s.reconnectTimer == None
  {
    hide Leads;
    es, s := FirstSocket(false);
    es, s := ThenOpens(false, es, s, 0);
    es, s := ThenGreeted(false, es, s, 0, 0);
  }

  /** The client is rotated: stopped and connected back to back. */
  lemma RotatedOnce() returns (es: seq<Event>, s: State)
    ensures Leads(false, es, s) && Shows(s, Some(1), [Sock(Closing, [], true), NEW], map[], 2, 0)
    ensures !s.stopped && s.heartbeatTimer == None && s.reconnectTimer == None
  {
    hide Leads;
    es, s := Greeted();
    es, s := ThenStops(false, es, s, 0);
    es, s := ThenConnect(false, es, s);
    assert s.socks == [Sock(Closing, [], true), NEW] && s.timers == map[];
  }

  /** Only then is socket 0 reported closed. */
  lemma LateClose() returns (es: seq<Event>, s: State)
    ensures Leads(false, es, s) && Shows(s, Some(1), [Sock(Closed, [], true), NEW], map[2 := Reconnect(1000)], 3, 0)
    ensures !s.stopped && s.heartbeatTimer == None && s.reconnectTimer == Some(2)
  {
    hide Leads;
    es, s := RotatedOnce();
    es, s := ThenCloses(false, es, s, 0);
    assert s.timers == map[2 := Reconnect(1000)];
  }

  /**
   * The new connection is greeted before the old socket is reported closed: the late report stops its heartbeat, calls
   * it disconnected and schedules a reconnect beside it.
   */
  lemma LateCloseSilencesNewSocket() returns (es: seq<Event>)
    ensures Run(START, es).Some?
    ensures var s := Run(START, es).value;
            && Shows(s, Some(1), [Sock(Closed, [], true), GREETED], map[4 := Reconnect(1000)], 5, 0)
            && !s.notes.connected
  {
    var s;
    es, s := RotatedOnce();
    es, s := ThenOpens(false, es, s, 1);
    assert s.timers == map[2 := Hello(5000)];
    es, s := ThenGreeted(false, es, s, 1, 2);
    assert s.timers == map[3 := Heartbeat(30_000)];
    es, s := ThenCloses(false, es, s, 0);
    assert s.timers == map[4 := Reconnect(1000)];
  }

  /** Socket 1 is greeted after socket 0 was reported closed, while the reconnect that this armed is still to come. */
  lemma GreetedAgain() returns (es: seq<Event>, s: State)
    ensures Leads(false, es, s) && !s.stopped
    ensures Shows(s, Some(1), [Sock(Closed, [], true), GREETED],
                  map[2 := Reconnect(1000), 4 := Heartbeat(30_000)], 5, 0)
  {
    hide Leads;
    es, s := LateClose();
    es, s := ThenOpens(false, es, s, 1);
    assert s.timers == map[2 := Reconnect(1000), 3 := Hello(5000)];
    es, s := ThenGreeted(false, es, s, 1, 3);
    assert s.timers == map[2 := Reconnect(1000), 4 := Heartbeat(30_000)];
  }

  /** The reconnect brings socket 2 although socket 1 is alive. */
  lemma ReconnectedBeside() returns (es: seq<Event>, s: State)
    ensures Leads(false, es, s) && !s.crashed && s.ws == Some(2) && s.now == 1000
    ensures s.socks == [Sock(Closed, [], true), GREETED, NEW]
    ensures s.timers == map[4 := Heartbeat(30_000)] && s.nextTimer == 5
  {
    hide Leads;
    es, s := GreetedAgain();
    es, s := ThenWaits(false, es, s, 1000);
    es, s := ThenReconnects(false, es, s, 2);
    assert s.socks == [Sock(Closed, [], true), GREETED, NEW];
    assert s.timers == map[4 := Heartbeat(30_000)];
  }

  /** Two sockets alive, each with its own heartbeat; only the newer one can still be cleared. */
  lemma TwoHeartbeats() returns (es: seq<Event>)
    ensures Run(START, es).Some?
    ensures var s := Run(START, es).value;
            && PhaseOf(s, 1) == Open && PhaseOf(s, 2) == Open
            && Beats(s, 4) && Beats(s, 6) && s.heartbeatTimer == Some(6)
  {
    var s;
    es, s := ReconnectedBeside();
    es, s := ThenOpens(false, es, s, 2);
    assert s.timers == map[4 := Heartbeat(30_000), 5 := Hello(6000)];
    es, s := ThenGreeted(false, es, s, 2, 5);
    assert s.timers == map[4 := Heartbeat(30_000), 6 := Heartbeat(31_000)];
  }

  /** The older of the two beats for ever, whatever happens afterwards. */
  lemma OlderHeartbeatIsForGood(more: seq<Event>) returns (es: seq<Event>)
    ensures Run(START, es).Some?
    ensures Run(Run(START, es).value, more).Some? ==> Beats(Run(Run(START, es).value, more).value, 4)
  {
    hide Beats, Run;
    es := TwoHeartbeats();
    var s := Run(START, es).value;
    RunSane(START, es);
    if Run(s, more).Some? {
      LostHeartbeatIsForGood(s, more, 4);
    }
  }

  /** An older socket that opens after the client was stopped again brings the open handler down. */
  lemma OpenWithoutSocketCrashes() returns (es: seq<Event>)
    ensures Run(START, es).Some? && Run(START, es).value.crashed
  {
    var s;
    es, s := LateClose();
    es, s := ThenWaits(false, es, s, 1000);
    es, s := ThenReconnects(false, es, s, 2);
    es, s := ThenStops(false, es, s, 2);
    es, s := Then(false, es, s, Opens(1));
  }

  // ----- The hello timer -----

  /** A hello timer closes the socket the client has when it fires, greeted or not, and no other. */
  lemma HelloTimerClosesCurrent(s: State, t: nat)
    requires Sane(s) && Possible(s, Fire(t, true)) && s.timers[t].Hello?
    ensures var u := Step(s, Fire(t, true));
            forall g: nat :: PhaseOf(u, g) ==
              if s.ws == Some(g) && (PhaseOf(s, g) == Connecting || PhaseOf(s, g) == Open) then Closing
              else PhaseOf(s, g)
  {
  }

  lemma OpenedAndClosed() returns (es: seq<Event>, s: State)
    ensures Leads(true, es, s) && !s.stopped
    ensures Shows(s, Some(0), [Sock(Closed, [0], false)], map[0 := Hello(5000), 1 := Reconnect(1000)], 2, 0)
  {
    hide Leads;
    es, s := FirstSocket(true);
    es, s := ThenOpens(true, es, s, 0);
    es, s := ThenCloses(true, es, s, 0);
    assert s.timers == map[0 := Hello(5000), 1 := Reconnect(1000)];
  }

  /** Socket 0 opens and closes again; the reconnect brings socket 1 while socket 0's hello timer is still armed. */
  lemma ReconnectedEarly() returns (es: seq<Event>, s: State)
    ensures Leads(true, es, s)
    ensures !s.crashed && !s.stopped && s.ws == Some(1) && s.now == 1000
    ensures s.socks == [Sock(Closed, [0], false), NEW]
    ensures s.timers == map[0 := Hello(5000)] && s.nextTimer == 2
  {
    hide Leads;
    es, s := OpenedAndClosed();
    es, s := ThenWaits(true, es, s, 1000);
    es, s := ThenReconnects(true, es, s, 1);
    assert s.timers == map[0 := Hello(5000)];
  }

  /** Even in a disciplined run that timer may stem from an earlier socket, and then ends a finished handshake. */
  lemma StaleHelloTimer() returns (es: seq<Event>, t: nat)
    ensures DisciplinedRun(START, es).Some?
    ensures var s := DisciplinedRun(START, es).value;
            && Possible(s, Fire(t, true)) && s.timers[t].Hello?
            && s.ws == Some(1) && PhaseOf(s, 1) == Open && Last(s.socks).shaken
            && PhaseOf(Step(s, Fire(t, true)), 1) == Closing
  {
    var s;
    es, s := ReconnectedEarly();
    es, s := ThenOpens(true, es, s, 1);
    es, s := ThenGreeted(true, es, s, 1, 2);
    es, s := ThenWaits(true, es, s, 4000);
    t := 0;
  }

  // ----- The message `null`, and a token getter that throws -----

  /** Even a disciplined run crashes when the Gateway sends `null`. */
  lemma NullCrashes() returns (es: seq<Event>)
    ensures DisciplinedRun(START, es).Some? && DisciplinedRun(START, es).value.crashed
  {
    var s;
    es, s := FirstSocket(true);
    es, s := ThenOpens(true, es, s, 0);
    es, s := Then(true, es, s, Receives(0, NullMessage));
  }

  /** The connection is lost, and the getter throws when the reconnect timer fires: the process is gone. */
  lemma ReconnectCrashes() returns (es: seq<Event>)
    ensures DisciplinedRun(START, es).Some? && DisciplinedRun(START, es).value.crashed
  {
    var s;
    es, s := FirstSocket(true);
    es, s := ThenCloses(true, es, s, 0);
    es, s := ThenWaits(true, es, s, 1000);
    es, s := Then(true, es, s, Fire(0, false));
  }

  /**
   * The client is stopped, its socket is reported closed, and the getter throws in the next connect. If its caller
   * catches that, the client is not stopped but has neither a socket nor an attempt to come.
   */
  lemma StrandedByConnect() returns (es: seq<Event>)
    ensures DisciplinedRun(START, es).Some?
    ensures var s := DisciplinedRun(START, es).value; !s.stopped && !s.crashed && s.socks != [] && Quiet(s)
  {
    var s;
    es, s := FirstSocket(true);
    es, s := ThenStops(true, es, s, 0);
    es, s := Then(true, es, s, Closes(0));
    es, s := Then(true, es, s, Connect(false));
  }

  /** No socket more, none opened again, and no attempt to connect. */
  predicate StaysQuiet(s: State, t: State)
  {
    |t.socks| == |s.socks| && Quiet(t)
  }

  lemma FewerStayQuiet(s: State, t: State)
    requires Quiet(s) && OnlyFewerTimers(s, t)
    ensures StaysQuiet(s, t)
  {
    forall k | k in t.timers ensures !t.timers[k].Reconnect? {
      assert IsReconnect(t, k) ==> IsReconnect(s, k);
    }
  }

  lemma HelloStaysQuiet(s: State, t: nat)
    requires Quiet(s)
    ensures StaysQuiet(s, CloseCurrent(Clear(s, t)))
  {
  }

  lemma FireStaysQuiet(s: State, t: nat, tokenOk: bool)
    requires Quiet(s) && t in s.timers
    ensures StaysQuiet(s, Fired(s, t, tokenOk))
  {
    assert !s.timers[t].Reconnect?;
    hide CallExpired, CloseCurrent, OnlyFewerTimers, Send;
    match s.timers[t]
    case Hello(_) => HelloStaysQuiet(s, t);
    case Heartbeat(_) =>
    case CallTimeout(_, id) =>
      CallExpiredFewerTimers(s, t, id);
      FewerStayQuiet(s, CallExpired(s, t, id));
  }

  lemma NothingToHear(s: State, e: Event)
    requires Quiet(s) && Possible(s, e)
    ensures !e.Opens? && !e.Receives? && !e.Closes?
  {
  }

  lemma QuietStays(s: State, e: Event)
    requires Quiet(s) && Possible(s, e) && !e.Connect?
    ensures StaysQuiet(s, Step(s, e))
  {
    hide OnlyFewerTimers, Fired, SendAdapterCall;
    NothingToHear(s, e);
    match e
    case Fire(t, tokenOk) => FireStaysQuiet(s, t, tokenOk);
    case SendCall(id, timeout) =>
      SendCallFewerTimers(s, id, timeout);
      FewerStayQuiet(s, Step(s, e));
    case HandlerReturns(_, _) =>
      FrameFewerTimers(s, Step(s, e));
      FewerStayQuiet(s, Step(s, e));
    case Stop =>
    case Tick(_) =>
      FrameFewerTimers(s, Step(s, e));
      FewerStayQuiet(s, Step(s, e));
  }

  /** Such a client is stranded for good: without another connect it never has a socket or an attempt again. */
  lemma {:induction false} StrandedForGood(s: State, es: seq<Event>)
    requires Quiet(s) && Run(s, es).Some? && forall e :: e in es ==> !e.Connect?
    ensures Quiet(Run(s, es).value) && |Run(s, es).value.socks| == |s.socks|
    decreases |es|
  {
    hide Quiet, Step;
    if es == [] {
    } else {
      assert es[0] in es;
      QuietStays(s, es[0]);
      StrandedForGood(Step(s, es[0]), es[1..]);
    }
  }
}
