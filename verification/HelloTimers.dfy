/**
 * The timer that `onOpen` arms against a missing greeting closes whatever socket is current when it fires. When it can
 * end a handshake that was finished, in runs that connect only when quiet.
 */
module HelloTimers {
  import opened Text
  import opened GatewayConnection
  import opened GatewayLifecycle
  import opened ConnectionDiscipline

  predicate IsHello(s: State, t: nat)
  {
    t in s.timers && s.timers[t].Hello?
  }

  function GreetersOf(s: State, g: nat): seq<nat>
  {
    if g < |s.socks| then s.socks[g].greeters else []
  }

  /** Every armed hello timer belongs to a listener that waits on a socket, or to one of `served`. */
  ghost predicate Listed(s: State, served: seq<nat>)
  {
    forall t: nat :: IsHello(s, t) ==> t in served || exists g: nat :: t in GreetersOf(s, g)
  }

  /** No socket's listeners change, and no hello timer is armed. */
  ghost predicate NoneGreeting(s: State, t: State)
  {
    && (forall g: nat :: GreetersOf(t, g) == GreetersOf(s, g))
    && (forall k: nat :: IsHello(t, k) ==> IsHello(s, k))
  }

  lemma NoneOn(s: State, t: State, u: State)
    requires NoneGreeting(s, t) && NoneGreeting(t, u)
    ensures NoneGreeting(s, u)
  {
  }

  lemma NoneListed(s: State, t: State, served: seq<nat>)
    requires Listed(s, served) && NoneGreeting(s, t)
    ensures Listed(t, served)
  {
    forall k: nat | IsHello(t, k) && k !in served ensures exists g: nat :: k in GreetersOf(t, g) {
      var g: nat :| k in GreetersOf(s, g);
      assert k in GreetersOf(t, g);
    }
  }

  // ----- The small changes -----

  lemma FrameNone(s: State, t: State)
    requires t.socks == s.socks && t.timers == s.timers
    ensures NoneGreeting(s, t)
  {
  }

  lemma CloseCurrentNone(s: State)
    ensures NoneGreeting(s, CloseCurrent(s))
  {
  }

  lemma ReplyNone(s: State, id: string, o: Outcome)
    ensures NoneGreeting(s, OnReply(s, id, o))
  {
  }

  lemma MessageNone(s: State, m: Incoming)
    ensures NoneGreeting(s, OnMessage(s, m))
  {
    hide NoneGreeting, OnReply, OnCall;
    match m
    case AdapterResponse(id, result) => ReplyNone(s, id, Response(result));
    case AdapterError(id, error) => ReplyNone(s, id, Failure(error));
    case _ => FrameNone(s, OnMessage(s, m));
  }

  lemma ClearNone(s: State, h: nat)
    ensures NoneGreeting(s, Clear(s, h)) && !IsHello(Clear(s, h), h)
  {
  }

  lemma HeartbeatNone(s: State)
    ensures NoneGreeting(s, StartHeartbeat(s))
  {
  }

  lemma ShakenNone(s: State, g: nat)
    ensures NoneGreeting(s, Shaken(s, g))
  {
  }

  lemma WelcomeNone(s: State, g: nat, hostId: string)
    ensures NoneGreeting(s, Welcome(s, g, hostId))
  {
    hide NoneGreeting, StartHeartbeat, Shaken;
    var t := GatewayConnection.Greeted(s, hostId);
    FrameNone(s, t);
    HeartbeatNone(t);
    ShakenNone(StartHeartbeat(t), g);
    NoneOn(s, t, StartHeartbeat(t));
    NoneOn(s, StartHeartbeat(t), Welcome(s, g, hostId));
  }

  lemma GreetNone(s: State, g: nat, h: nat, m: Incoming)
    ensures NoneGreeting(s, Greet(s, g, h, m)) && !IsHello(Greet(s, g, h, m), h)
  {
    hide Clear, Welcome, CloseCurrent, IsHello, GreetersOf;
    var t := Clear(s, h);
    ClearNone(s, h);
    if m.Connected? && m.hostId != "" {
      WelcomeNone(t, g, m.hostId);
    } else {
      CloseCurrentNone(t);
    }
  }

  /** Serving the listeners clears their timers. */
  lemma {:induction false} GreetAllListed(s: State, g: nat, hs: seq<nat>, m: Incoming)
    requires Listed(s, hs)
    ensures Listed(GreetAll(s, g, hs, m), [])
    ensures forall k: nat :: GreetersOf(GreetAll(s, g, hs, m), k) == GreetersOf(s, k)
    decreases |hs|
  {
    hide IsHello, GreetersOf, Greet;
    if hs == [] {
    } else {
      var t := Greet(s, g, hs[0], m);
      GreetNone(s, g, hs[0], m);
      NoneListed(s, t, hs);
      assert forall k :: k in hs ==> k == hs[0] || k in hs[1..];
      GreetAllListed(t, g, hs[1..], m);
    }
  }

  lemma HeardListed(s: State, g: nat, m: Incoming)
    requires Listed(s, []) && g < |s.socks|
    ensures Listed(Heard(s, g, m), s.socks[g].greeters)
    ensures forall k: nat :: GreetersOf(Heard(s, g, m), k) == if k == g then [] else GreetersOf(s, k)
  {
    hide OnMessage, NoneGreeting;
    var hs := s.socks[g].greeters;
    var t := s.(socks := s.socks[g := s.socks[g].(greeters := [])]);
    forall k: nat | IsHello(t, k) && k !in hs ensures exists j: nat :: k in GreetersOf(t, j) {
      assert IsHello(s, k);
      var j: nat :| k in GreetersOf(s, j);
      assert k in GreetersOf(t, j);
    }
    MessageNone(t, m);
    NoneListed(t, OnMessage(t, m), hs);
    assert NoneGreeting(t, OnMessage(t, m));
  }

  lemma OpensListed(s: State, g: nat)
    requires Listed(s, []) && PhaseOf(s, g) == Connecting && s.ws == Some(g)
    ensures var t := OnOpen(SetPhase(s, g, Open));
            && Listed(t, [])
            && s.nextTimer in t.timers && t.timers[s.nextTimer] == Hello(s.now + 5_000)
            && (forall k: nat :: GreetersOf(t, k) == GreetersOf(s, k) + (if k == g then [s.nextTimer] else []))
  {
    var t := OnOpen(SetPhase(s, g, Open));
    forall k: nat | IsHello(t, k) ensures exists j: nat :: k in GreetersOf(t, j) {
      if k == s.nextTimer {
        assert k in GreetersOf(t, g);
      } else {
        assert IsHello(s, k);
        var j: nat :| k in GreetersOf(s, j);
        assert k in GreetersOf(t, j);
      }
    }
  }

  lemma ConnectNone(s: State, tokenOk: bool)
    ensures NoneGreeting(s, DoConnect(s, tokenOk))
  {
  }

  lemma StopNone(s: State)
    ensures NoneGreeting(s, AfterStop(s))
  {
  }

  lemma CloseNone(s: State, g: nat)
    requires g < |s.socks|
    ensures NoneGreeting(s, OnClose(SetPhase(s, g, Closed)))
  {
  }

  lemma CallNone(s: State, id: string, timeout: Option<int>)
    ensures NoneGreeting(s, SendAdapterCall(s, id, timeout))
  {
  }

  lemma HelloFiredNone(s: State, t: nat)
    ensures NoneGreeting(s, CloseCurrent(Clear(s, t)))
  {
    hide NoneGreeting, Clear, CloseCurrent;
    ClearNone(s, t);
    CloseCurrentNone(Clear(s, t));
    NoneOn(s, Clear(s, t), CloseCurrent(Clear(s, t)));
  }

  lemma CallExpiredNone(s: State, t: nat, id: string)
    ensures NoneGreeting(s, CallExpired(s, t, id))
  {
  }

  lemma BeatNone(s: State, t: nat, due: nat)
    ensures NoneGreeting(s, Send(s.(timers := s.timers[t := Heartbeat(due)]), Beat))
  {
  }

  lemma ReconnectNone(s: State, t: nat, tokenOk: bool)
    requires IsReconnect(s, t)
    ensures NoneGreeting(s, Fired(s, t, tokenOk))
  {
    hide CloseCurrent, CallExpired, Send;
    ClearNone(s, t);
    if !s.stopped && tokenOk {
      ConnectNone(Clear(s, t), true);
    }
  }

  lemma FiredNone(s: State, t: nat, tokenOk: bool)
    requires t in s.timers
    ensures NoneGreeting(s, Fired(s, t, tokenOk))
  {
    hide NoneGreeting, CloseCurrent, CallExpired, Send, Clear, DoConnect;
    match s.timers[t]
    case Hello(_) => HelloFiredNone(s, t);
    case Heartbeat(_) => BeatNone(s, t, s.now + HEARTBEAT_INTERVAL_MS);
    case Reconnect(_) => ReconnectNone(s, t, tokenOk);
    case CallTimeout(_, id) => CallExpiredNone(s, t, id);
  }

  // ----- Every step -----

  /** A message that does not throw in the permanent listener reaches the one-shot listeners too. */
  predicate Hears(e: Event, g: nat)
  {
    e.Receives? && e.g == g && !e.m.NullMessage?
  }

  lemma OtherEventsNone(s: State, e: Event)
    requires Possible(s, e) && !e.Opens? && (e.Receives? ==> e.m.NullMessage?)
    ensures NoneGreeting(s, Step(s, e))
  {
    hide NoneGreeting, DoConnect, AfterStop, OnClose, SendAdapterCall, Fired;
    match e
    case Receives(_, _) => FrameNone(s, Step(s, e));
    case Closes(g) => CloseNone(s, g);
    case Fire(t, tokenOk) => FiredNone(s, t, tokenOk);
    case Connect(tokenOk) =>
      FrameNone(s, s.(stopped := false));
      ConnectNone(s.(stopped := false), tokenOk);
      NoneOn(s, s.(stopped := false), Step(s, e));
    case Stop => StopNone(s);
    case SendCall(id, timeout) => CallNone(s, id, timeout);
    case HandlerReturns(_, _) => FrameNone(s, Step(s, e));
    case Tick(_) => FrameNone(s, Step(s, e));
  }

  lemma StepListed(s: State, e: Event)
    requires InLine(s) && Listed(s, []) && Possible(s, e)
    ensures Listed(Step(s, e), [])
    ensures forall g: nat :: GreetersOf(Step(s, e), g) != [] <==>
              e == Opens(g) || (GreetersOf(s, g) != [] && !Hears(e, g))
    ensures forall g: nat :: e == Opens(g) ==>
              var t := Step(s, e);
              && GreetersOf(t, g) == GreetersOf(s, g) + [s.nextTimer]
              && s.nextTimer in t.timers && t.timers[s.nextTimer] == Hello(s.now + 5_000)
  {
    hide InLine, Listed, OnOpen, Heard, GreetAll;
    match e
    case Opens(g) =>
      OpensCurrent(s, g);
      OpensListed(s, g);
    case Receives(g, m) =>
      if m.NullMessage? {
        OtherEventsNone(s, e);
        NoneListed(s, Step(s, e), []);
      } else {
        HeardListed(s, g, m);
        GreetAllListed(Heard(s, g, m), g, s.socks[g].greeters, m);
      }
    case _ =>
      hide Step;
      OtherEventsNone(s, e);
      NoneListed(s, Step(s, e), []);
  }

  predicate NoneHears(es: seq<Event>, g: nat)
  {
    forall e :: e in es ==> !Hears(e, g)
  }

  /** The socket has opened, and nothing has been heard on it since. */
  predicate Unheard(es: seq<Event>, g: nat)
  {
    es != [] && ((es[0] == Opens(g) && NoneHears(es[1..], g)) || Unheard(es[1..], g))
  }

  lemma {:induction false} RunListed(s: State, es: seq<Event>, g: nat)
    requires Sane(s) && InLine(s) && Listed(s, []) && DisciplinedRun(s, es).Some?
    ensures var t := DisciplinedRun(s, es).value;
            && Listed(t, [])
            && (GreetersOf(t, g) != [] <==> Unheard(es, g) || (GreetersOf(s, g) != [] && NoneHears(es, g)))
    decreases |es|
  {
    hide Sane, InLine, Listed, GreetersOf, Hears;
    if es == [] {
    } else {
      StepSane(s, es[0]);
      StepInLine(s, es[0]);
      StepListed(s, es[0]);
      RunListed(Step(s, es[0]), es[1..], g);
      assert forall e :: e in es <==> e == es[0] || e in es[1..];
    }
  }

  // ----- Main results -----

  /** The newest socket is open, and its handshake is done. */
  predicate HandshakeDone(s: State)
  {
    s.socks != [] && Last(s.socks).phase == Open && Last(s.socks).shaken
  }

  /** Timer `t` was armed for an earlier socket, which was closed before anything was heard on it. */
  predicate LeftBehind(s: State, es: seq<Event>, g: nat, t: nat)
  {
    g < |s.socks| - 1 && PhaseOf(s, g) == Closed && Unheard(es, g) && t in GreetersOf(s, g)
  }

  lemma WaitsOnEarlier(s: State, t: nat) returns (g: nat)
    requires InLine(s) && Listed(s, []) && HandshakeDone(s) && IsHello(s, t)
    ensures g < |s.socks| - 1 && PhaseOf(s, g) == Closed && t in GreetersOf(s, g)
  {
    g :| t in GreetersOf(s, g);
  }

  /**
   * In every disciplined run, while the newest socket is open with its handshake done, the hello timers that are armed
   * are exactly those left behind by earlier sockets that were closed before they heard anything.
   */
  lemma ArmedIffLeftBehind(handlers: set<string>, now: nat, es: seq<Event>, t: nat)
    requires DisciplinedRun(Initial(handlers, now), es).Some?
    requires HandshakeDone(DisciplinedRun(Initial(handlers, now), es).value)
    requires t in DisciplinedRun(Initial(handlers, now), es).value.timers
    ensures var s := DisciplinedRun(Initial(handlers, now), es).value;
            IsHello(s, t) <==> exists g: nat :: LeftBehind(s, es, g, t)
  {
    hide Unheard, NoneHears;
    var i := Initial(handlers, now);
    var s := DisciplinedRun(i, es).value;
    RunInLine(i, es);
    hide InLine, Listed, HandshakeDone, DisciplinedRun;
    if IsHello(s, t) {
      RunListed(i, es, 0);
      var g := WaitsOnEarlier(s, t);
      RunListed(i, es, g);
      assert LeftBehind(s, es, g, t);
    }
    if g: nat :| LeftBehind(s, es, g, t) {
      assert HelloHandles(s, s.socks[g].greeters);
    }
  }

  /**
   * So a timer ends a finished handshake if and only if it was left behind in that way and has not fired or been
   * cleared since.
   */
  lemma EndsHandshakeIff(handlers: set<string>, now: nat, es: seq<Event>, t: nat, tokenOk: bool)
    requires DisciplinedRun(Initial(handlers, now), es).Some?
    requires HandshakeDone(DisciplinedRun(Initial(handlers, now), es).value)
    requires Possible(DisciplinedRun(Initial(handlers, now), es).value, Fire(t, tokenOk))
    ensures var s := DisciplinedRun(Initial(handlers, now), es).value;
            PhaseOf(Step(s, Fire(t, tokenOk)), |s.socks| - 1) != Open <==> exists g: nat :: LeftBehind(s, es, g, t)
  {
    hide LeftBehind, Unheard;
    var i := Initial(handlers, now);
    var s := DisciplinedRun(i, es).value;
    RunInLine(i, es);
    ArmedIffLeftBehind(handlers, now, es, t);
    FireCloses(s, t, tokenOk);
  }

  lemma FireCloses(s: State, t: nat, tokenOk: bool)
    requires InLine(s) && HandshakeDone(s) && t in s.timers
    ensures PhaseOf(Fired(s, t, tokenOk), |s.socks| - 1) != Open <==> IsHello(s, t)
  {
    assert s.ws == Some(|s.socks| - 1) && !IsReconnect(s, t);
    hide InLine, CallExpired, Send, DoConnect;
  }
}
