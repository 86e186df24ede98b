/** What goes out on each socket, event by event, and that a socket never carries anything before its hello. */
module HandshakeOrder {
  import opened Text
  import opened GatewayConnection
  import opened GatewayLifecycle
  import opened CallReplies

  /** The frames an event sends, with the sockets they go out on. */
  function Emitted(s: State, e: Event): seq<Sent>
    requires Possible(s, e)
  {
    match e
    case Opens(g) => FrameOn(OpenSocket(SetPhase(s, g, Open)), HelloFrame(s.hostId))
    case Receives(_, Call(id, adapter)) =>
      if adapter in s.handlers then [] else FrameOn(OpenSocket(s), ErrorReply(id, "UNKNOWN_ADAPTER"))
    case Fire(t, _) => if s.timers[t].Heartbeat? then FrameOn(OpenSocket(s), Beat) else []
    case SendCall(id, _) => FrameOn(OpenSocket(s), AdapterCall(id))
    case HandlerReturns(id, ok) => ClosingFrames(OpenSocket(s), id, ok)
    case _ => []
  }

  lemma CallEmits(s: State, id: string, adapter: string)
    ensures OnCall(s, id, adapter).sent
         == s.sent + if adapter in s.handlers then [] else FrameOn(OpenSocket(s), ErrorReply(id, "UNKNOWN_ADAPTER"))
  {
    hide Send;
    assert s.sent + [] == s.sent;
    var t := s.(finished := s.finished[id := Finish(false, OpenSocket(s))]);
    assert OpenSocket(t) == OpenSocket(s);
    SendAppends(t, ErrorReply(id, "UNKNOWN_ADAPTER"));
  }

  lemma HeardEmits(s: State, g: nat, m: Incoming)
    requires Possible(s, Receives(g, m))
    ensures Heard(s, g, m).sent == s.sent + Emitted(s, Receives(g, m))
  {
    hide OnCall, OnReply;
    var u := s.(socks := s.socks[g := s.socks[g].(greeters := [])]);
    assert OpenSocket(u) == OpenSocket(s);
    assert s.sent + [] == s.sent;
    if m.Call? {
      CallEmits(u, m.id, m.adapter);
    }
  }

  lemma FiredEmits(s: State, t: nat, tokenOk: bool)
    requires Possible(s, Fire(t, tokenOk))
    ensures Fired(s, t, tokenOk).sent == s.sent + Emitted(s, Fire(t, tokenOk))
  {
    hide CloseCurrent, CallExpired, DoConnect, Send;
    assert s.sent + [] == s.sent;
    if s.timers[t].Heartbeat? {
      SendAppends(s.(timers := s.timers[t := Heartbeat(s.now + HEARTBEAT_INTERVAL_MS)]), Beat);
    }
  }

  /** Each event sends exactly its own frames, on the socket that is current and open, after all earlier ones. */
  lemma StepEmits(s: State, e: Event)
    requires Possible(s, e)
    ensures Step(s, e).sent == s.sent + Emitted(s, e)
  {
    hide OnOpen, OnClose, AfterStop, SendAdapterCall, HandlerDone, Fired;
    assert s.sent + [] == s.sent;
    match e
    case Opens(g) => OpenSends(SetPhase(s, g, Open));
    case Receives(g, m) =>
      if !m.NullMessage? {
        HeardEmits(s, g, m);
      }
    case Fire(t, tokenOk) => FiredEmits(s, t, tokenOk);
    case SendCall(id, timeout) => SendCallSends(s, id, timeout);
    case HandlerReturns(id, ok) => HandlerSends(s, id, ok);
    case _ =>
  }

  /** The socket an event's frames go out on. */
  function Carrier(s: State, e: Event): Option<nat>
    requires Possible(s, e)
  {
    OpenSocket(if e.Opens? then SetPhase(s, e.g, Open) else s)
  }

  // ----- Only the open event opens -----

  predicate NoneOpened(s: State, t: State)
  {
    OpenSocket(t).Some? ==> OpenSocket(t) == OpenSocket(s)
  }

  lemma GreetOpensNone(s: State, g: nat, h: nat, m: Incoming)
    ensures NoneOpened(s, Greet(s, g, h, m))
  {
  }

  lemma {:induction false} GreetAllOpensNone(s: State, g: nat, hs: seq<nat>, m: Incoming)
    ensures NoneOpened(s, GreetAll(s, g, hs, m))
    decreases |hs|
  {
    hide Greet;
    if hs == [] {
    } else {
      GreetOpensNone(s, g, hs[0], m);
      GreetAllOpensNone(Greet(s, g, hs[0], m), g, hs[1..], m);
    }
  }

  lemma FiredOpensNone(s: State, t: nat, tokenOk: bool)
    requires t in s.timers
    ensures NoneOpened(s, Fired(s, t, tokenOk))
  {
    hide CallExpired, Send, CloseCurrent;
    if s.timers[t].Hello? {
      CloseOpensNone(Clear(s, t));
    }
  }

  lemma CloseOpensNone(s: State)
    ensures NoneOpened(s, CloseCurrent(s))
  {
  }

  lemma StepOpensNone(s: State, e: Event)
    requires Possible(s, e)
    ensures OpenSocket(Step(s, e)).Some? ==> OpenSocket(Step(s, e)) == Carrier(s, e)
  {
    hide Send, OnClose, SendAdapterCall, Fired, HandlerDone, Heard, GreetAll;
    if e.Receives? && !e.m.NullMessage? {
      GreetAllOpensNone(Heard(s, e.g, e.m), e.g, s.socks[e.g].greeters, e.m);
    } else if e.Fire? {
      FiredOpensNone(s, e.t, e.tokenOk);
    }
  }

  // ----- Hello comes first -----

  /** The frames that went out on one socket. */
  function FramesOn(sent: seq<Sent>, g: nat): seq<Frame>
  {
    if sent == [] then []
    else if sent[0].sock == g then [sent[0].frame] + FramesOn(sent[1..], g)
    else FramesOn(sent[1..], g)
  }

  lemma {:induction false} FramesConcat(a: seq<Sent>, b: seq<Sent>, g: nat)
    ensures FramesOn(a + b, g) == FramesOn(a, g) + FramesOn(b, g)
  {
    if a == [] {
      assert a + b == b;
    } else {
      FramesConcat(a[1..], b, g);
      assert (a + b)[1..] == a[1..] + b;
    }
  }

  predicate StartsWithHello(frames: seq<Frame>)
  {
    frames != [] ==> frames[0].HelloFrame?
  }

  ghost predicate HelloFirst(s: State)
  {
    && (forall g: nat :: StartsWithHello(FramesOn(s.sent, g)))
    && (OpenSocket(s).Some? ==> FramesOn(s.sent, OpenSocket(s).value) != [])
  }

  predicate AllOn(more: seq<Sent>, on: Option<nat>)
  {
    forall x :: x in more ==> on == Some(x.sock)
  }

  lemma EmittedOn(s: State, e: Event)
    requires Possible(s, e)
    ensures AllOn(Emitted(s, e), Carrier(s, e))
  {
  }

  lemma {:induction false} FramesElsewhere(more: seq<Sent>, on: Option<nat>, g: nat)
    requires AllOn(more, on) && on != Some(g)
    ensures FramesOn(more, g) == []
  {
    if more == [] {
    } else {
      assert more[0] in more;
      FramesElsewhere(more[1..], on, g);
    }
  }

  lemma StepHelloFirst(s: State, e: Event)
    requires HelloFirst(s) && Possible(s, e)
    ensures HelloFirst(Step(s, e))
  {
    hide Step, Possible, Emitted, Carrier;
    var more, on := Emitted(s, e), Carrier(s, e);
    StepEmits(s, e);
    EmittedOn(s, e);
    StepOpensNone(s, e);
    forall g: nat ensures FramesOn(s.sent + more, g) == FramesOn(s.sent, g) + FramesOn(more, g) {
      FramesConcat(s.sent, more, g);
    }
    forall g: nat | on != Some(g) ensures FramesOn(more, g) == [] {
      FramesElsewhere(more, on, g);
    }
    CarrierGreeted(s, e);
    assert s.sent + more == Step(s, e).sent;
  }

  /** Frames go out on what was open before, unless they are the hello on a socket that opens just now. */
  lemma CarrierGreeted(s: State, e: Event)
    requires Possible(s, e)
    ensures || Carrier(s, e) == OpenSocket(s)
            || (e.Opens? && Carrier(s, e) == Some(e.g) && FramesOn(Emitted(s, e), e.g) == [HelloFrame(s.hostId)])
  {
    if e.Opens? {
      assert [Sent(e.g, HelloFrame(s.hostId))][1..] == [];
    }
  }

  lemma {:induction false} HelloAlwaysFirst(s: State, es: seq<Event>)
    requires HelloFirst(s) && Run(s, es).Some?
    ensures HelloFirst(Run(s, es).value)
    decreases |es|
  {
    if es == [] {
    } else {
      StepHelloFirst(s, es[0]);
      HelloAlwaysFirst(Step(s, es[0]), es[1..]);
    }
  }

  /** In every run, however sockets, rotations and closes interleave: the first frame on every socket is a hello. */
  lemma FirstFrameIsHello(handlers: set<string>, now: nat, es: seq<Event>, g: nat)
    requires Run(Initial(handlers, now), es).Some?
    ensures var frames := FramesOn(Run(Initial(handlers, now), es).value.sent, g);
            frames != [] ==> frames[0].HelloFrame?
  {
    HelloAlwaysFirst(Initial(handlers, now), es);
  }

  // ----- How a handshake comes out -----

  predicate IsGreeting(m: Incoming)
  {
    m.Connected? && m.hostId != ""
  }

  /** Host id known, backoff reset, a heartbeat armed for 30 seconds ahead, and every socket as it was. */
  ghost predicate Completed(s: State, t: State, hostId: string)
  {
    && t.hostId == Some(hostId) && t.backoffMs == 1000 && t.notes == Notes(0, None, true)
    && t.heartbeatTimer.Some? && t.heartbeatTimer.value in t.timers
    && t.timers[t.heartbeatTimer.value] == Heartbeat(s.now + 30_000)
    && forall k: nat :: PhaseOf(t, k) == PhaseOf(s, k)
  }

  /** The current socket is closing, if it was alive, every other socket is as it was, and no heartbeat was started. */
  ghost predicate BrokenOff(s: State, t: State)
  {
    && t.hostId == s.hostId && t.heartbeatTimer == s.heartbeatTimer && t.backoffMs == s.backoffMs
    && t.timers.Keys <= s.timers.Keys
    && forall k: nat :: PhaseOf(t, k) ==
         if s.ws == Some(k) && (PhaseOf(s, k) == Connecting || PhaseOf(s, k) == Open) then Closing else PhaseOf(s, k)
  }

  /** What a handshake listener on socket `g` leaves alone. */
  predicate KeepsOthers(s: State, t: State, g: nat)
  {
    && |t.socks| == |s.socks| && g < |t.socks| && t.socks[g].greeters == s.socks[g].greeters
    && t.ws == s.ws && t.now == s.now
  }

  /** `n` timers more at most, with new handles. */
  predicate MoreTimers(s: State, t: State, n: nat)
  {
    t.nextTimer == s.nextTimer + n && forall k :: k in t.timers ==> k in s.timers || s.nextTimer <= k < t.nextTimer
  }

  lemma WelcomeCompletes(s: State, g: nat, hostId: string)
    requires g < |s.socks|
    ensures var t := Welcome(s, g, hostId);
            Completed(s, t, hostId) && KeepsOthers(s, t, g) && MoreTimers(s, t, 1)
  {
  }

  lemma CloseBreaksOff(s: State, g: nat)
    requires g < |s.socks|
    ensures var t := CloseCurrent(s);
            BrokenOff(s, t) && KeepsOthers(s, t, g) && t.timers == s.timers
  {
  }

  lemma WelcomedOnce(s: State, g: nat, h: nat, m: Incoming)
    requires IsGreeting(m) && h < s.nextTimer && g < |s.socks|
    ensures var t := Greet(s, g, h, m);
            h !in t.timers && Completed(s, t, m.hostId) && KeepsOthers(s, t, g) && MoreTimers(s, t, 1)
  {
    hide Welcome;
    WelcomeCompletes(Clear(s, h), g, m.hostId);
    assert forall k: nat :: PhaseOf(Clear(s, h), k) == PhaseOf(s, k);
  }

  lemma {:induction false} WelcomedByAll(s: State, g: nat, hs: seq<nat>, m: Incoming)
    requires IsGreeting(m) && hs != [] && g < |s.socks| && forall h :: h in hs ==> h < s.nextTimer
    ensures var t := GreetAll(s, g, hs, m);
            && Completed(s, t, m.hostId) && KeepsOthers(s, t, g) && MoreTimers(s, t, |hs|)
            && forall h :: h in hs ==> h !in t.timers
    decreases |hs|
  {
    hide Greet, PhaseOf;
    var t := Greet(s, g, hs[0], m);
    assert hs[0] in hs && forall h :: h in hs[1..] ==> h in hs;
    WelcomedOnce(s, g, hs[0], m);
    if |hs| == 1 {
      assert hs[1..] == [];
    } else {
      WelcomedByAll(t, g, hs[1..], m);
      forall h | h in hs ensures h !in GreetAll(t, g, hs[1..], m).timers {
        assert h == hs[0] || h in hs[1..];
      }
    }
  }

  lemma RefusedOnce(s: State, g: nat, h: nat, m: Incoming)
    requires !IsGreeting(m) && g < |s.socks|
    ensures var t := Greet(s, g, h, m);
            h !in t.timers && BrokenOff(s, t) && KeepsOthers(s, t, g)
  {
    hide CloseCurrent;
    CloseBreaksOff(Clear(s, h), g);
    assert forall k: nat :: PhaseOf(Clear(s, h), k) == PhaseOf(s, k);
  }

  lemma {:induction false} RefusedByAll(s: State, g: nat, hs: seq<nat>, m: Incoming)
    requires !IsGreeting(m) && hs != [] && g < |s.socks|
    ensures var t := GreetAll(s, g, hs, m);
            && BrokenOff(s, t) && KeepsOthers(s, t, g)
            && forall h :: h in hs ==> h !in t.timers
    decreases |hs|
  {
    hide Greet, PhaseOf;
    var t := Greet(s, g, hs[0], m);
    RefusedOnce(s, g, hs[0], m);
    if |hs| == 1 {
      assert hs[1..] == [];
    } else {
      RefusedByAll(t, g, hs[1..], m);
      forall h | h in hs ensures h !in GreetAll(t, g, hs[1..], m).timers {
        assert h == hs[0] || h in hs[1..];
      }
    }
  }

  ghost predicate HearsOn(s: State, t: State, g: nat)
  {
    && t.ws == s.ws && t.hostId == s.hostId && t.now == s.now && t.heartbeatTimer == s.heartbeatTimer
    && t.nextTimer == s.nextTimer && t.backoffMs == s.backoffMs && |t.socks| == |s.socks|
    && (forall k: nat :: PhaseOf(t, k) == PhaseOf(s, k))
    && g < |t.socks| && t.socks[g].greeters == []
    && t.timers.Keys <= s.timers.Keys
  }

  lemma HeardKeepsSocket(s: State, g: nat, m: Incoming)
    requires g < |s.socks|
    ensures HearsOn(s, Heard(s, g, m), g)
  {
    hide OnCall;
  }

  /**
   * The first message on a socket decides, whether or not that socket is the current one: a greeting with a host id
   * completes the handshake, resets the backoff and starts a heartbeat for each listener there is; anything else but
   * `null`, a call included, closes the current socket and starts none. Either way every listener's hello timer is
   * disarmed, later messages find no listener, and no other socket's phase changes.
   */
  lemma FirstMessageDecides(s: State, g: nat, m: Incoming)
    requires Sane(s) && Possible(s, Receives(g, m)) && !m.NullMessage?
    requires s.socks[g].greeters != []
    ensures var t := Step(s, Receives(g, m));
            && g < |t.socks| && t.socks[g].greeters == [] && t.ws == s.ws
            && (forall h :: h in s.socks[g].greeters ==> h !in t.timers)
            && if IsGreeting(m) then Completed(s, t, m.hostId) && t.nextTimer == s.nextTimer + |s.socks[g].greeters|
               else BrokenOff(s, t)
  {
    assert g < |s.socks|;
    hide Sane, Heard, PhaseOf, GreetAll;
    var u, hs := Heard(s, g, m), s.socks[g].greeters;
    HeardSane(s, g, m);
    HeardKeepsSocket(s, g, m);
    forall h | h in hs ensures h < u.nextTimer {
      assert HelloHandle(u, h);
    }
    if IsGreeting(m) {
      WelcomedByAll(u, g, hs, m);
    } else {
      RefusedByAll(u, g, hs, m);
    }
  }
}
