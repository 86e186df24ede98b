/** Reverse adapter calls: each is settled exactly once, by its own first reply, its own timer or a disconnect. */
module AdapterCalls {
  import opened Text
  import opened GatewayConnection
  import opened GatewayLifecycle

  /** What a caller sees of one call. */
  datatype View = Unknown | Waiting(timer: nat) | Done(how: Outcome)

  function ViewOf(s: State, id: string): View
  {
    if id in s.pending then Waiting(s.pending[id])
    else if Outcomes(s, id) == [] then Unknown
    else Done(Outcomes(s, id)[0])
  }

  /** No call is settled twice, or settled and still in the table. */
  ghost predicate OnceOnly(s: State)
  {
    && (forall id :: id in s.settled ==> |s.settled[id]| == 1)
    && (forall id :: id in s.pending ==> id !in s.settled)
  }

  // ----- The history of one call on its own -----

  /** What one event means for a call that waits with timer `t`, whatever else is going on. */
  function Decides(e: Event, id: string, t: nat): Option<Outcome>
  {
    match e
    case Closes(_) => Some(Disconnected)
    case Fire(u, _) => if u == t then Some(TimedOut) else None
    case Receives(_, m) =>
      (match m
      case AdapterResponse(i, result) => if i == id then Some(Response(result)) else None
      case AdapterError(i, error) => if i == id then Some(Failure(error)) else None
      case _ => None)
    case _ => None
  }

  function FirstDecision(es: seq<Event>, id: string, t: nat): Option<Outcome>
  {
    if es == [] then None
    else match Decides(es[0], id, t)
      case Some(o) => Some(o)
      case None => FirstDecision(es[1..], id, t)
  }

  // ----- The table agrees with it -----

  /** A change that no adapter call notices. */
  ghost predicate Unnoticed(s: State, t: State)
  {
    && t.pending == s.pending && t.settled == s.settled
    && forall id :: id in s.pending && s.pending[id] in s.timers ==>
         s.pending[id] in t.timers && t.timers[s.pending[id]] == s.timers[s.pending[id]]
  }

  lemma WelcomeUnnoticed(s: State, g: nat, hostId: string)
    requires Sane(s)
    ensures Unnoticed(s, Welcome(s, g, hostId))
  {
  }

  lemma GreetUnnoticed(s: State, g: nat, h: nat, m: Incoming)
    requires Sane(s) && HelloHandle(s, h)
    ensures Unnoticed(s, Greet(s, g, h, m))
  {
    var t := Clear(s, h);
    ClearSane(s, h);
    assert Unnoticed(s, t);
    if m.Connected? && m.hostId != "" {
      WelcomeUnnoticed(t, g, m.hostId);
    } else {
      assert Unnoticed(t, CloseCurrent(t));
    }
  }

  lemma {:induction false} GreetAllUnnoticed(s: State, g: nat, hs: seq<nat>, m: Incoming)
    requires Sane(s) && HelloHandles(s, hs)
    ensures Unnoticed(s, GreetAll(s, g, hs, m))
    decreases |hs|
  {
    if hs == [] {
    } else {
      GreetSane(s, g, hs[0], m);
      GreetUnnoticed(s, g, hs[0], m);
      GreetAllUnnoticed(Greet(s, g, hs[0], m), g, hs[1..], m);
    }
  }

  lemma OpenUnnoticed(s: State)
    requires Sane(s)
    ensures Unnoticed(s, OnOpen(s))
  {
  }

  lemma StopUnnoticed(s: State)
    requires Sane(s)
    ensures Unnoticed(s, AfterStop(s))
  {
  }

  lemma HelloUnnoticed(s: State, t: nat)
    requires Sane(s) && t in s.timers && s.timers[t].Hello?
    ensures Unnoticed(s, CloseCurrent(Clear(s, t)))
  {
    hide CloseCurrent;
  }

  lemma BeatUnnoticed(s: State, t: nat)
    requires Sane(s) && t in s.timers && s.timers[t].Heartbeat?
    ensures Unnoticed(s, Send(s.(timers := s.timers[t := Heartbeat(s.now + HEARTBEAT_INTERVAL_MS)]), Beat))
  {
    hide Send;
  }

  lemma ReconnectUnnoticed(s: State, t: nat, tokenOk: bool)
    requires Sane(s) && t in s.timers && s.timers[t].Reconnect?
    ensures Unnoticed(s, Fired(s, t, tokenOk))
  {
    hide DoConnect;
  }

  lemma FiredUnnoticed(s: State, t: nat, tokenOk: bool)
    requires Sane(s) && t in s.timers && !s.timers[t].CallTimeout?
    ensures Unnoticed(s, Fired(s, t, tokenOk))
  {
    hide CloseCurrent, DoConnect, Send, Sane, Unnoticed;
    match s.timers[t]
    case Hello(_) => HelloUnnoticed(s, t);
    case Heartbeat(_) => BeatUnnoticed(s, t);
    case Reconnect(_) => ReconnectUnnoticed(s, t, tokenOk);
  }

  /** A reply settles the call that bears its id and changes nothing for any other. */
  lemma ReplySettles(s: State, id: string, o: Outcome)
    requires Sane(s) && OnceOnly(s)
    ensures var t := OnReply(s, id, o);
            && OnceOnly(t)
            && (id in s.pending ==> ViewOf(t, id) == Done(o))
            && (id !in s.pending ==> t == s)
            && forall i :: i != id ==> ViewOf(t, i) == ViewOf(s, i)
  {
    assert [] + [o] == [o];
  }

  lemma TimeoutSettles(s: State, t: nat)
    requires Sane(s) && OnceOnly(s) && t in s.timers && s.timers[t].CallTimeout?
    ensures var id, u := s.timers[t].id, Fired(s, t, true);
            && OnceOnly(u) && ViewOf(s, id) == Waiting(t) && ViewOf(u, id) == Done(TimedOut)
            && forall i :: i != id ==> ViewOf(u, i) == ViewOf(s, i)
  {
    assert [] + [TimedOut] == [TimedOut];
  }

  lemma CloseSettles(s: State)
    requires OnceOnly(s)
    ensures var t := OnClose(s);
            && OnceOnly(t) && t.pending == map[]
            && forall i :: ViewOf(t, i) == if i in s.pending then Done(Disconnected) else ViewOf(s, i)
  {
    assert [] + [Disconnected] == [Disconnected];
  }

  lemma HeardSettles(s: State, g: nat, m: Incoming, id: string)
    requires Sane(s) && OnceOnly(s) && g < |s.socks|
    ensures OnceOnly(Heard(s, g, m))
    ensures ViewOf(Heard(s, g, m), id) == Expected(s, Receives(g, m), id)
  {
    hide Sane, OnceOnly, ViewOf, OnReply, OnCall, Unnoticed;
    var u := s.(socks := s.socks[g := s.socks[g].(greeters := [])]);
    HeardStartsSane(s, g);
    FrameOnce(s, u);
    match m {
      case AdapterResponse(i, result) => ReplySettles(u, i, Response(result)); ReplyView(u, i, Response(result), id);
      case AdapterError(i, error) => ReplySettles(u, i, Failure(error)); ReplyView(u, i, Failure(error), id);
      case Call(i, adapter) =>
        FrameOnce(u, Heard(s, g, m));
        ExpectedSame(s, Receives(g, m), id);
      case _ =>
        FrameOnce(u, Heard(s, g, m));
        ExpectedSame(s, Receives(g, m), id);
    }
  }

  /** An event that decides nothing for a call, and does not begin it, leaves its view. */
  lemma ExpectedSame(s: State, e: Event, id: string)
    requires !e.SendCall? && forall t :: Decides(e, id, t) == None
    ensures Expected(s, e, id) == ViewOf(s, id)
  {
  }

  lemma ReplyView(s: State, i: string, o: Outcome, id: string)
    requires Sane(s) && OnceOnly(s)
    ensures ViewOf(OnReply(s, i, o), id) == if i == id && ViewOf(s, id).Waiting? then Done(o) else ViewOf(s, id)
  {
    ReplySettles(s, i, o);
  }

  lemma FrameOnce(s: State, t: State)
    requires OnceOnly(s) && t.pending == s.pending && t.settled == s.settled
    ensures OnceOnly(t) && forall id :: ViewOf(t, id) == ViewOf(s, id)
  {
  }

  lemma RefusedSettles(s: State, id: string)
    requires OnceOnly(s) && id !in s.pending && id !in s.settled
    ensures var t := Settle(s, id, NotConnected);
            && OnceOnly(t) && ViewOf(t, id) == Done(NotConnected)
            && forall i :: i != id ==> ViewOf(t, i) == ViewOf(s, i)
  {
    assert [] + [NotConnected] == [NotConnected];
  }

  lemma SendSettles(s: State, id: string, timeout: Option<int>)
    requires OnceOnly(s) && id !in s.pending && id !in s.settled
    ensures var t := SendAdapterCall(s, id, timeout);
            && OnceOnly(t)
            && ViewOf(t, id) == (if OpenSocket(s) == None then Done(NotConnected) else Waiting(s.nextTimer))
            && forall i :: i != id ==> ViewOf(t, i) == ViewOf(s, i)
  {
    if OpenSocket(s) == None {
      RefusedSettles(s, id);
    } else {
      hide Send, Deadline;
      assert SendAdapterCall(s, id, timeout).pending == s.pending[id := s.nextTimer];
    }
  }

  /** What every call should look like after an event, from what it looked like before. */
  function Expected(s: State, e: Event, id: string): View
  {
    match ViewOf(s, id)
    case Waiting(t) => (match Decides(e, id, t) case Some(o) => Done(o) case None => Waiting(t))
    case v =>
      if e.SendCall? && e.id == id then if OpenSocket(s) == None then Done(NotConnected) else Waiting(s.nextTimer)
      else v
  }

  lemma ClosesSettle(s: State, g: nat, id: string)
    requires OnceOnly(s) && g < |s.socks|
    ensures OnceOnly(OnClose(SetPhase(s, g, Closed)))
    ensures ViewOf(OnClose(SetPhase(s, g, Closed)), id) == Expected(s, Closes(g), id)
  {
    hide OnClose;
    CloseSettles(SetPhase(s, g, Closed));
  }

  lemma SendCallSettles(s: State, i: string, timeout: Option<int>, id: string)
    requires OnceOnly(s) && i !in s.pending && i !in s.settled
    ensures OnceOnly(SendAdapterCall(s, i, timeout))
    ensures ViewOf(SendAdapterCall(s, i, timeout), id) == Expected(s, SendCall(i, timeout), id)
  {
    hide SendAdapterCall;
    SendSettles(s, i, timeout);
  }

  /** Every event does to every call exactly what that call's own history asks for. */
  lemma StepSettles(s: State, e: Event, id: string)
    requires Sane(s) && OnceOnly(s) && Possible(s, e)
    ensures OnceOnly(Step(s, e))
    ensures ViewOf(Step(s, e), id) == Expected(s, e, id)
  {
    hide Sane, OnceOnly, Unnoticed, OnOpen, OnClose, AfterStop, SendAdapterCall, HandlerDone, Fired, ViewOf;
    match e
    case Receives(g, m) =>
      if m.NullMessage? {
        FrameOnce(s, Step(s, e));
      } else {
        HeardSane(s, g, m);
        HeardSettles(s, g, m, id);
        FrameOnce(Heard(s, g, m), Step(s, e));
      }
    case Closes(g) => ClosesSettle(s, g, id);
    case Fire(t, tokenOk) => FireSettles(s, t, tokenOk, id);
    case SendCall(i, timeout) => SendCallSettles(s, i, timeout, id);
    case _ => FrameOnce(s, Step(s, e));
  }

  lemma FireSettles(s: State, t: nat, tokenOk: bool, id: string)
    requires Sane(s) && OnceOnly(s) && t in s.timers
    ensures OnceOnly(Fired(s, t, tokenOk))
    ensures ViewOf(Fired(s, t, tokenOk), id) == Expected(s, Fire(t, tokenOk), id)
  {
    if s.timers[t].CallTimeout? {
      TimeoutSettles(s, t);
    } else {
      FiredUnnoticed(s, t, tokenOk);
      FrameOnce(s, Fired(s, t, tokenOk));
    }
  }

  /** The deadline entry a waiting call has. */
  predicate Timed(s: State, id: string, t: nat, due: nat)
  {
    id in s.pending && s.pending[id] == t && t in s.timers && s.timers[t] == CallTimeout(due, id)
  }

  lemma ReplyKeeps(s: State, id: string, o: Outcome, i: string, t: nat, due: nat)
    requires Sane(s) && Timed(s, i, t, due) && id != i
    ensures Timed(OnReply(s, id, o), i, t, due)
  {
  }

  lemma HeardKeeps(s: State, g: nat, m: Incoming, i: string, t: nat, due: nat)
    requires Sane(s) && g < |s.socks| && Timed(s, i, t, due)
    requires Decides(Receives(g, m), i, t) == None
    ensures Timed(Heard(s, g, m), i, t, due)
  {
    hide Sane;
    var u := s.(socks := s.socks[g := s.socks[g].(greeters := [])]);
    assert Sane(u) by { HeardStartsSane(s, g); }
    match m
    case AdapterResponse(id, result) => ReplyKeeps(u, id, Response(result), i, t, due);
    case AdapterError(id, error) => ReplyKeeps(u, id, Failure(error), i, t, due);
    case _ =>
  }

  lemma SendKeeps(s: State, id: string, timeout: Option<int>, i: string, t: nat, due: nat)
    requires Sane(s) && Timed(s, i, t, due) && id != i
    ensures Timed(SendAdapterCall(s, id, timeout), i, t, due)
  {
  }

  lemma FiredKeeps(s: State, u: nat, tokenOk: bool, i: string, t: nat, due: nat)
    requires Sane(s) && Timed(s, i, t, due) && u in s.timers && u != t
    ensures Timed(Fired(s, u, tokenOk), i, t, due)
  {
    if !s.timers[u].CallTimeout? {
      FiredUnnoticed(s, u, tokenOk);
    } else {
      assert s.timers[u].id != i;
    }
  }

  /** While it waits, a call keeps its own timer with the deadline it was given. */
  lemma StepKeepsDeadline(s: State, e: Event, i: string, t: nat, due: nat)
    requires Sane(s) && Possible(s, e) && Timed(s, i, t, due)
    requires Decides(e, i, t) == None
    ensures Timed(Step(s, e), i, t, due)
  {
    hide Sane;
    match e
    case Receives(g, m) =>
      if !m.NullMessage? {
        HeardSane(s, g, m);
        HeardKeeps(s, g, m, i, t, due);
        GreetAllUnnoticed(Heard(s, g, m), g, s.socks[g].greeters, m);
      }
    case Fire(u, tokenOk) => FiredKeeps(s, u, tokenOk, i, t, due);
    case SendCall(id, timeout) => SendKeeps(s, id, timeout, i, t, due);
    case Opens(g) =>
      assert Sane(SetPhase(s, g, Open)) by { PhaseSane(s, g, Open); }
      OpenUnnoticed(SetPhase(s, g, Open));
    case Stop => StopUnnoticed(s);
    case _ =>
  }

  // ----- Main results -----

  /** A settled call stays as it was settled, whatever arrives for it later. */
  lemma {:induction false} SettledForGood(s: State, es: seq<Event>, id: string)
    requires Sane(s) && OnceOnly(s) && Run(s, es).Some? && ViewOf(s, id).Done?
    ensures var t := Run(s, es).value;
            Sane(t) && OnceOnly(t) && ViewOf(t, id) == ViewOf(s, id)
    decreases |es|
  {
    if es == [] {
    } else {
      assert id in s.settled;
      StepSane(s, es[0]);
      StepSettles(s, es[0], id);
      SettledForGood(Step(s, es[0]), es[1..], id);
    }
  }

  /**
   * In every run, a waiting call is settled by the first event that decides its own history (a reply with its id, its
   * timer, or any socket's close) and by nothing else; without one it still waits, with its own timer and deadline.
   */
  lemma {:induction false} CallHistory(s: State, es: seq<Event>, id: string, t: nat, due: nat)
    requires Sane(s) && OnceOnly(s) && Run(s, es).Some? && Timed(s, id, t, due)
    ensures var end := Run(s, es).value;
            && Sane(end) && OnceOnly(end)
            && (match FirstDecision(es, id, t)
                case Some(o) => ViewOf(end, id) == Done(o) && end.settled[id] == [o]
                case None => Timed(end, id, t, due) && id !in end.settled)
    decreases |es|
  {
    if es == [] {
    } else {
      var n := Step(s, es[0]);
      StepSane(s, es[0]);
      StepSettles(s, es[0], id);
      if Decides(es[0], id, t) == None {
        StepKeepsDeadline(s, es[0], id, t, due);
        CallHistory(n, es[1..], id, t, due);
      } else {
        SettledForGood(n, es[1..], id);
        var end := Run(n, es[1..]).value;
        assert id in end.settled;
      }
    }
  }

  /**
   * An accepted call starts to wait with a deadline of its own, and a call without an open socket is refused at once.
   * The deadline is the one asked for exactly while that fits a Node timer; otherwise it is one millisecond ahead.
   */
  lemma SendAccepts(s: State, id: string, timeout: Option<int>)
    requires Sane(s) && OnceOnly(s) && Possible(s, SendCall(id, timeout))
    ensures var t := Step(s, SendCall(id, timeout));
            if OpenSocket(s) == None then ViewOf(t, id) == Done(NotConnected)
            else Timed(t, id, s.nextTimer, Deadline(s, timeout))
    ensures timeout == None ==> Deadline(s, timeout) == s.now + 30_000
    ensures timeout.Some? ==> (Deadline(s, timeout) == s.now + timeout.value <==> 1 <= timeout.value <= 0x7FFF_FFFF)
    ensures timeout.Some? && !(1 <= timeout.value <= 0x7FFF_FFFF) ==> Deadline(s, timeout) == s.now + 1
  {
    SendSettles(s, id, timeout);
  }

  /** After every close event the table is empty. */
  lemma TableEmptyAfterClose(s: State, g: nat)
    requires OnceOnly(s) && Possible(s, Closes(g))
    ensures Step(s, Closes(g)).pending == map[]
    ensures forall id :: id in s.pending ==> Step(s, Closes(g)).settled[id] == [Disconnected]
  {
    assert [] + [Disconnected] == [Disconnected];
  }

  lemma {:induction false} RunSettles(s: State, es: seq<Event>)
    requires Sane(s) && OnceOnly(s) && Run(s, es).Some?
    ensures Sane(Run(s, es).value) && OnceOnly(Run(s, es).value)
    decreases |es|
  {
    if es == [] {
    } else {
      StepSane(s, es[0]);
      StepSettles(s, es[0], "");
      RunSettles(Step(s, es[0]), es[1..]);
    }
  }

  lemma {:induction false} RunConcat(s: State, a: seq<Event>, b: seq<Event>)
    requires Run(s, a).Some?
    ensures Run(s, a + b) == Run(Run(s, a).value, b)
    decreases |a|
  {
    if a == [] {
      assert a + b == b;
    } else {
      RunConcat(Step(s, a[0]), a[1..], b);
      assert (a + b)[1..] == a[1..] + b;
    }
  }

  /**
   * Conservation and correlation over whole runs: take any run from the start, a call accepted in it, and any
   * continuation. Afterwards the call either still waits before any decision, in the table and with its timer armed, or
   * it is out of the table and has been settled once, as its first decision says.
   */
  lemma AdapterCallConservation(handlers: set<string>, now: nat, before: seq<Event>,
                                id: string, timeout: Option<int>, after: seq<Event>)
    requires Run(Initial(handlers, now), before + [SendCall(id, timeout)] + after).Some?
    requires Run(Initial(handlers, now), before).Some? && OpenSocket(Run(Initial(handlers, now), before).value) != None
    ensures var s := Run(Initial(handlers, now), before).value;
            var end := Run(Initial(handlers, now), before + [SendCall(id, timeout)] + after).value;
            match FirstDecision(after, id, s.nextTimer)
            case Some(o) => id !in end.pending && id in end.settled && end.settled[id] == [o]
            case None =>
              && id !in end.settled
              && Timed(end, id, s.nextTimer, Deadline(s, timeout))
  {
    var i := Initial(handlers, now);
    var s := Run(i, before).value;
    var call := SendCall(id, timeout);
    RunSettles(i, before);
    assert before + [call] + after == before + ([call] + after);
    RunConcat(i, before, [call] + after);
    assert ([call] + after)[1..] == after;
    SendAccepts(s, id, timeout);
    StepSane(s, call);
    StepSettles(s, call, id);
    CallHistory(Step(s, call), after, id, s.nextTimer, Deadline(s, timeout));
  }
}
