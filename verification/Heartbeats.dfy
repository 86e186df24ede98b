/** How long a heartbeat goes on: until a close or a stop, if the client still knows it, and for ever if it does not. */
module Heartbeats {
  import opened Text
  import opened GatewayConnection
  import opened GatewayLifecycle

  /** Timer `t` is a heartbeat whose next beat is at most one interval away. */
  predicate Beats(s: State, t: nat)
  {
    t in s.timers && s.timers[t].Heartbeat? && s.timers[t].due <= s.now + 30_000
  }

  /** When timer `t` fires next, if it is armed. */
  function NextBeat(s: State, t: nat): Option<nat>
  {
    if t in s.timers then Some(s.timers[t].due) else None
  }

  predicate Known(s: State, t: nat)
  {
    s.heartbeatTimer == Some(t)
  }

  /** A change after which the heartbeat `t` still beats, when it would have, and is known only if it was. */
  predicate Goes(s: State, u: State, t: nat)
  {
    && Beats(u, t) && t in s.timers && u.timers[t] == s.timers[t]
    && (Known(u, t) ==> Known(s, t)) && u.nextTimer >= s.nextTimer
  }

  lemma GoesOn(s: State, u: State, v: State, t: nat)
    requires Goes(s, u, t) && Goes(u, v, t)
    ensures Goes(s, v, t)
  {
  }

  lemma FrameGoes(s: State, u: State, t: nat)
    requires Beats(s, t) && u.timers == s.timers && u.nextTimer == s.nextTimer && u.now >= s.now
    requires u.heartbeatTimer == s.heartbeatTimer
    ensures Goes(s, u, t)
  {
  }

  lemma ClearGoes(s: State, h: nat, t: nat)
    requires Beats(s, t) && h != t
    ensures Goes(s, Clear(s, h), t)
  {
  }

  lemma StartGoes(s: State, t: nat)
    requires Beats(s, t) && t < s.nextTimer
    ensures Goes(s, StartHeartbeat(s), t)
  {
  }

  lemma WelcomeGoes(s: State, g: nat, hostId: string, t: nat)
    requires Beats(s, t) && t < s.nextTimer
    ensures Goes(s, Welcome(s, g, hostId), t)
  {
    hide Goes, Shaken, StartHeartbeat;
    var u := Greeted(s, hostId);
    FrameGoes(s, u, t);
    assert Beats(u, t);
    StartGoes(u, t);
    var v := StartHeartbeat(u);
    GoesOn(s, u, v, t);
    GoesBeats(s, v, t);
    FrameGoes(v, Shaken(v, g), t);
    GoesOn(s, v, Shaken(v, g), t);
  }

  lemma GoesBeats(s: State, u: State, t: nat)
    requires Goes(s, u, t)
    ensures Beats(u, t) && u.nextTimer >= s.nextTimer && (!Known(s, t) ==> !Known(u, t))
    ensures NextBeat(u, t) == NextBeat(s, t)
  {
  }

  lemma GreetGoes(s: State, g: nat, h: nat, m: Incoming, t: nat)
    requires Beats(s, t) && t < s.nextTimer && h != t
    ensures Goes(s, Greet(s, g, h, m), t)
  {
    hide Goes, Welcome, CloseCurrent;
    var u := Clear(s, h);
    ClearGoes(s, h, t);
    GoesBeats(s, u, t);
    if m.Connected? && m.hostId != "" {
      WelcomeGoes(u, g, m.hostId, t);
    } else {
      FrameGoes(u, CloseCurrent(u), t);
    }
    GoesOn(s, u, Greet(s, g, h, m), t);
  }

  lemma NoHelloHandle(s: State, h: nat, t: nat)
    requires HelloHandle(s, h) && Beats(s, t)
    ensures h != t
  {
  }

  lemma {:induction false} GreetAllGoes(s: State, g: nat, hs: seq<nat>, m: Incoming, t: nat)
    requires Sane(s) && HelloHandles(s, hs) && Beats(s, t)
    ensures Goes(s, GreetAll(s, g, hs, m), t)
    decreases |hs|
  {
    hide Goes, Sane, Beats, HelloHandle, Greet;
    if hs == [] {
      FrameGoes(s, s, t);
    } else {
      var u := Greet(s, g, hs[0], m);
      NoHelloHandle(s, hs[0], t);
      NamedTimers(s, t);
      GreetSane(s, g, hs[0], m);
      GreetGoes(s, g, hs[0], m, t);
      GoesBeats(s, u, t);
      GreetAllGoes(u, g, hs[1..], m, t);
      GoesOn(s, u, GreetAll(u, g, hs[1..], m), t);
    }
  }

  lemma NamedTimers(s: State, t: nat)
    requires Sane(s) && Beats(s, t)
    ensures t < s.nextTimer
  {
  }

  lemma ReplyGoes(s: State, id: string, o: Outcome, t: nat)
    requires Sane(s) && Beats(s, t)
    ensures Goes(s, OnReply(s, id, o), t)
  {
  }

  lemma HeardGoes(s: State, g: nat, m: Incoming, t: nat)
    requires Sane(s) && g < |s.socks| && Beats(s, t)
    ensures Goes(s, Heard(s, g, m), t)
  {
    hide Goes, Sane, OnReply, OnCall;
    var u := s.(socks := s.socks[g := s.socks[g].(greeters := [])]);
    FrameGoes(s, u, t);
    GoesBeats(s, u, t);
    assert Sane(u) by { HeardStartsSane(s, g); }
    match m {
      case AdapterResponse(id, result) => ReplyGoes(u, id, Response(result), t);
      case AdapterError(id, error) => ReplyGoes(u, id, Failure(error), t);
      case _ => FrameGoes(u, Heard(s, g, m), t);
    }
    GoesOn(s, u, Heard(s, g, m), t);
  }

  lemma CallExpiredGoes(s: State, h: nat, id: string, t: nat)
    requires Beats(s, t) && h != t
    ensures Goes(s, CallExpired(s, h, id), t)
  {
  }

  /** A beat is followed by the next one exactly 30 seconds later. */
  lemma BeatRearms(s: State, t: nat, tokenOk: bool)
    requires Beats(s, t)
    ensures var u := Fired(s, t, tokenOk);
            && Beats(u, t) && u.timers[t].due == s.now + 30_000
            && u.heartbeatTimer == s.heartbeatTimer
  {
  }

  lemma BeatGoes(s: State, h: nat, t: nat)
    requires Beats(s, t) && h != t
    ensures Goes(s, Send(s.(timers := s.timers[h := Heartbeat(s.now + HEARTBEAT_INTERVAL_MS)]), Beat), t)
  {
  }

  lemma ReconnectGoes(s: State, h: nat, tokenOk: bool, t: nat)
    requires Beats(s, t) && h in s.timers && s.timers[h].Reconnect?
    ensures Goes(s, Fired(s, h, tokenOk), t)
  {
  }

  lemma FiredGoes(s: State, h: nat, tokenOk: bool, t: nat)
    requires Beats(s, t) && h in s.timers && h != t
    ensures Goes(s, Fired(s, h, tokenOk), t)
  {
    hide Goes, CloseCurrent, CallExpired, DoConnect;
    match s.timers[h]
    case Hello(_) =>
      var u := Clear(s, h);
      ClearGoes(s, h, t);
      GoesBeats(s, u, t);
      FrameGoes(u, CloseCurrent(u), t);
      GoesOn(s, u, CloseCurrent(u), t);
    case Heartbeat(_) => BeatGoes(s, h, t);
    case Reconnect(_) => ReconnectGoes(s, h, tokenOk, t);
    case CallTimeout(_, id) => CallExpiredGoes(s, h, id, t);
  }

  lemma OpenGoes(s: State, t: nat)
    requires Beats(s, t) && t < s.nextTimer
    ensures Goes(s, OnOpen(s), t)
  {
  }

  lemma SendCallGoes(s: State, id: string, timeout: Option<int>, t: nat)
    requires Beats(s, t) && t < s.nextTimer
    ensures Goes(s, SendAdapterCall(s, id, timeout), t)
  {
  }

  /** Only a close or a stop can end a heartbeat, and only one the client knows. */
  predicate Silences(s: State, e: Event, t: nat)
  {
    (e.Closes? || e.Stop?) && Known(s, t)
  }

  lemma ClearTimersGoes(s: State, t: nat)
    requires Sane(s) && Beats(s, t)
    ensures Known(s, t) ==> t !in ClearTimers(s).timers
    ensures !Known(s, t) ==> Goes(s, ClearTimers(s), t)
  {
  }

  lemma RejectAllGoes(s: State, t: nat)
    requires Sane(s) && Beats(s, t)
    ensures Goes(s, RejectAll(s), t)
  {
  }

  lemma StopGoes(s: State, t: nat)
    requires Sane(s) && Beats(s, t)
    ensures Known(s, t) ==> t !in AfterStop(s).timers
    ensures !Known(s, t) ==> Goes(s, AfterStop(s), t)
  {
    hide ClearTimers, CloseCurrent, Goes;
    var u := s.(stopped := true);
    FrameSane(s, u);
    assert Beats(u, t);
    ClearTimersGoes(u, t);
    var v := ClearTimers(u);
    if !Known(s, t) {
      FrameGoes(s, u, t);
      GoesOn(s, u, v, t);
      GoesBeats(u, v, t);
      FrameGoes(v, AfterStop(s), t);
      GoesOn(s, v, AfterStop(s), t);
    }
  }

  lemma ScheduledGoes(s: State, t: nat)
    requires Beats(s, t) && t < s.nextTimer
    ensures Goes(s, ScheduleReconnect(s), t)
  {
  }

  lemma CloseGoes(s: State, t: nat)
    requires Sane(s) && Beats(s, t)
    ensures Known(s, t) ==> t !in OnClose(s).timers
    ensures !Known(s, t) ==> Goes(s, OnClose(s), t)
  {
    hide ClearTimers, RejectAll, ScheduleReconnect, Goes, Sane, Beats;
    var u := ClearTimers(s);
    ClearTimersSane(s);
    ClearTimersGoes(s, t);
    NamedTimers(s, t);
    if Known(s, t) {
      SilencedByClose(s, t);
    } else {
      GoesBeats(s, u, t);
      RejectAllGoes(u, t);
      var v := RejectAll(u);
      GoesOn(s, u, v, t);
      GoesBeats(s, v, t);
      FrameGoes(v, Lost(v), t);
      GoesOn(s, v, Lost(v), t);
      GoesBeats(s, Lost(v), t);
      if !Lost(v).stopped {
        ScheduledGoes(Lost(v), t);
        GoesOn(s, Lost(v), OnClose(s), t);
      }
    }
  }

  lemma SilencedByClose(s: State, t: nat)
    requires Sane(s) && Beats(s, t) && Known(s, t)
    ensures t !in OnClose(s).timers
  {
  }

  /**
   * For every event: it ends a heartbeat if and only if it is a close or a stop while the client knows the timer. The
   * next beat of one that goes on is where it was, and 30 seconds ahead after a beat.
   */
  lemma StepBeatsIff(s: State, e: Event, t: nat)
    requires Sane(s) && Possible(s, e) && Beats(s, t)
    ensures Beats(Step(s, e), t) <==> !Silences(s, e, t)
    ensures !Known(s, t) ==> !Known(Step(s, e), t)
    ensures !Silences(s, e, t) ==>
              NextBeat(Step(s, e), t) == if e.Fire? && e.t == t then Some(s.now + 30_000) else NextBeat(s, t)
  {
    hide Sane, Goes, Beats;
    NamedTimers(s, t);
    match e
    case Opens(g) =>
      var u := SetPhase(s, g, Open);
      FrameGoes(s, u, t);
      GoesBeats(s, u, t);
      OpenGoes(u, t);
      GoesOn(s, u, OnOpen(u), t);
      GoesBeats(s, Step(s, e), t);
    case Receives(g, m) =>
      if m.NullMessage? {
        FrameGoes(s, Step(s, e), t);
      } else {
        var u := Heard(s, g, m);
        HeardSane(s, g, m);
        HeardGoes(s, g, m, t);
        GoesBeats(s, u, t);
        GreetAllGoes(u, g, s.socks[g].greeters, m, t);
        GoesOn(s, u, Step(s, e), t);
      }
      GoesBeats(s, Step(s, e), t);
    case Closes(g) => ClosesBeatsIff(s, g, t);
    case Fire(h, tokenOk) =>
      if h == t {
        BeatRearms(s, t, tokenOk);
      } else {
        FiredGoes(s, h, tokenOk, t);
        GoesBeats(s, Step(s, e), t);
      }
    case Stop =>
      StopGoes(s, t);
      if !Known(s, t) {
        GoesBeats(s, Step(s, e), t);
      } else {
        NotArmed(Step(s, e), t);
      }
    case SendCall(id, timeout) =>
      SendCallGoes(s, id, timeout, t);
      GoesBeats(s, Step(s, e), t);
    case _ =>
      FrameGoes(s, Step(s, e), t);
      GoesBeats(s, Step(s, e), t);
  }

  lemma NotArmed(s: State, t: nat)
    requires t !in s.timers
    ensures !Beats(s, t)
  {
  }

  lemma ClosesBeatsIff(s: State, g: nat, t: nat)
    requires Sane(s) && g < |s.socks| && Beats(s, t)
    ensures var u := OnClose(SetPhase(s, g, Closed));
            && (Beats(u, t) <==> !Known(s, t)) && (!Known(s, t) ==> !Known(u, t))
            && (!Known(s, t) ==> NextBeat(u, t) == NextBeat(s, t))
  {
    PhaseSane(s, g, Closed);
    CloseGoes(SetPhase(s, g, Closed), t);
  }

  /** Without a close or a stop every heartbeat goes on, with its next beat at most 30 seconds away at any time. */
  lemma {:induction false} HeartbeatGoesOn(s: State, es: seq<Event>, t: nat)
    requires Sane(s) && Beats(s, t) && Run(s, es).Some?
    requires forall e :: e in es ==> !e.Closes? && !e.Stop?
    ensures Beats(Run(s, es).value, t)
    decreases |es|
  {
    hide Sane, Beats;
    if es == [] {
    } else {
      assert es[0] in es;
      StepSane(s, es[0]);
      StepBeatsIff(s, es[0], t);
      HeartbeatGoesOn(Step(s, es[0]), es[1..], t);
    }
  }

  /** A heartbeat the client has lost track of beats for ever: no close, stop or rotation ends it. */
  lemma {:induction false} LostHeartbeatIsForGood(s: State, es: seq<Event>, t: nat)
    requires Sane(s) && Beats(s, t) && !Known(s, t) && Run(s, es).Some?
    ensures Beats(Run(s, es).value, t) && !Known(Run(s, es).value, t)
    decreases |es|
  {
    hide Sane, Beats;
    if es == [] {
    } else {
      StepSane(s, es[0]);
      StepBeatsIff(s, es[0], t);
      LostHeartbeatIsForGood(Step(s, es[0]), es[1..], t);
    }
  }
}
