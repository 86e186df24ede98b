/** The delays between reconnect attempts. */
module ReconnectBackoff {
  import opened Powers
  import opened Text
  import opened GatewayConnection
  import opened GatewayLifecycle

  /** The delay after `k` reconnect timers have fired since the last handshake. */
  function Backoff(k: nat): nat
  {
    Min(1000 * Pow2(k), 60_000)
  }

  lemma BackoffDoubles(k: nat)
    ensures Backoff(k + 1) == Min(Backoff(k) * 2, BACKOFF_MAX_MS)
  {
  }

  predicate InStep(s: State)
  {
    s.backoffMs == Backoff(s.firings)
  }

  lemma GreetInStep(s: State, g: nat, h: nat, m: Incoming)
    requires InStep(s)
    ensures InStep(Greet(s, g, h, m))
  {
    hide Welcome, CloseCurrent;
  }

  lemma {:induction false} GreetAllInStep(s: State, g: nat, hs: seq<nat>, m: Incoming)
    requires InStep(s)
    ensures InStep(GreetAll(s, g, hs, m))
    decreases |hs|
  {
    hide InStep, Greet;
    if hs == [] {
    } else {
      GreetInStep(s, g, hs[0], m);
      GreetAllInStep(Greet(s, g, hs[0], m), g, hs[1..], m);
    }
  }

  lemma FiredInStep(s: State, t: nat, tokenOk: bool)
    requires InStep(s) && t in s.timers
    ensures InStep(Fired(s, t, tokenOk))
  {
    hide Backoff, CloseCurrent, CallExpired, DoConnect, Send, Min;
    if s.timers[t].Reconnect? {
      BackoffDoubles(s.firings);
    }
  }

  lemma StepInStep(s: State, e: Event)
    requires InStep(s) && Possible(s, e)
    ensures InStep(Step(s, e))
  {
    hide Backoff, OnOpen, OnClose, AfterStop, SendAdapterCall, HandlerDone, Fired, Heard, GreetAll;
    if e.Receives? && !e.m.NullMessage? {
      GreetAllInStep(Heard(s, e.g, e.m), e.g, s.socks[e.g].greeters, e.m);
    } else if e.Fire? {
      FiredInStep(s, e.t, e.tokenOk);
    }
  }

  lemma {:induction false} RunInStep(s: State, es: seq<Event>)
    requires InStep(s) && Run(s, es).Some?
    ensures InStep(Run(s, es).value)
    decreases |es|
  {
    if es == [] {
    } else {
      StepInStep(s, es[0]);
      RunInStep(Step(s, es[0]), es[1..]);
    }
  }

  /** In every run, a close event that schedules a reconnect does so min(1000 * 2^k, 60000) ms ahead. */
  lemma NextDelay(handlers: set<string>, now: nat, es: seq<Event>, g: nat)
    requires Run(Initial(handlers, now), es).Some?
    requires var s := Run(Initial(handlers, now), es).value; Possible(s, Closes(g)) && !s.stopped
    ensures var s := Run(Initial(handlers, now), es).value;
            var t := Step(s, Closes(g));
            && t.reconnectTimer.Some? && IsReconnect(t, t.reconnectTimer.value)
            && t.timers[t.reconnectTimer.value].due == t.now + Min(1000 * Pow2(s.firings), 60_000)
  {
    RunInStep(Initial(handlers, now), es);
  }

  // ----- How long an outage takes -----

  /** The first `n` delays together, from `k` firings on. */
  function Total(k: nat, n: nat): nat
    decreases n
  {
    if n == 0 then 0 else Backoff(k) + Total(k + 1, n - 1)
  }

  lemma {:induction false} TotalSnoc(k: nat, n: nat)
    ensures Total(k, n + 1) == Total(k, n) + Backoff(k + n)
    decreases n
  {
    if n == 0 {
    } else {
      TotalSnoc(k + 1, n - 1);
    }
  }

  lemma SmallPowers()
    ensures Pow2(0) == 1 && Pow2(1) == 2 && Pow2(2) == 4 && Pow2(3) == 8
    ensures Pow2(4) == 16 && Pow2(5) == 32 && Pow2(6) == 64
  {
    assert Pow2(3) == 8;
    assert Pow2(6) == 8 * Pow2(3);
  }

  lemma {:induction false} TotalClosedForm(n: nat)
    ensures Total(0, n) == if n <= 6 then 1000 * (Pow2(n) - 1) else 63_000 + 60_000 * (n - 6)
    decreases n
  {
    SmallPowers();
    if n == 0 {
    } else {
      TotalClosedForm(n - 1);
      TotalSnoc(0, n - 1);
      if n > 6 {
        Pow2Monotone(6, n - 1);
      }
    }
  }

  /** One failed attempt: the current socket closes, the delay passes, and the reconnect timer fires. */
  function Attempt(s: State): seq<Event>
  {
    [Closes(if s.ws.Some? then s.ws.value else 0), Tick(s.backoffMs), Fire(s.nextTimer, true)]
  }

  predicate Trying(s: State)
  {
    !s.crashed && !s.stopped && HasSocket(s)
  }

  lemma RunThree(s: State, a: Event, b: Event, c: Event)
    requires Possible(s, a) && Possible(Step(s, a), b) && Possible(Step(Step(s, a), b), c)
    ensures Run(s, [a, b, c]) == Some(Step(Step(Step(s, a), b), c))
  {
    hide Step, Possible;
    var r := [a, b, c];
    assert r[1..] == [b, c] && r[1..][1..] == [c] && r[1..][1..][1..] == [];
    assert Run(s, r) == Run(Step(s, a), [b, c]);
    assert [b, c][1..] == [c] && [c][1..] == [];
    assert Run(Step(s, a), [b, c]) == Run(Step(Step(s, a), b), [c]);
  }

  /** What a close with the client not stopped leads to, as far as the next attempt is concerned. */
  lemma CloseSchedules(s: State)
    requires !s.stopped
    ensures var t := OnClose(s);
            && t.timers[s.nextTimer] == Reconnect(s.now + s.backoffMs) && s.nextTimer in t.timers
            && t.now == s.now && t.stopped == s.stopped && t.crashed == s.crashed
  {
    hide RejectAll;
    RejectAllKeeps(ClearTimers(s));
  }

  lemma RejectAllKeeps(s: State)
    ensures var t := RejectAll(s);
            && t.now == s.now && t.stopped == s.stopped && t.crashed == s.crashed
            && t.nextTimer == s.nextTimer && t.backoffMs == s.backoffMs
  {
  }

  lemma AttemptFails(s: State)
    requires Trying(s) && InStep(s)
    ensures Run(s, Attempt(s)).Some?
    ensures var t := Run(s, Attempt(s)).value;
            Trying(t) && InStep(t) && t.firings == s.firings + 1 && t.now == s.now + Backoff(s.firings)
  {
    var a, b, c := Attempt(s)[0], Attempt(s)[1], Attempt(s)[2];
    hide OnClose, Backoff, Run;
    var t := Step(s, a);
    CloseSchedules(SetPhase(s, s.ws.value, Closed));
    var u := Step(t, b);
    RunThree(s, a, b, c);
    StepInStep(u, c);
  }

  /** The state after `n` failed attempts in a row. */
  function Outage(s: State, n: nat): Option<State>
    decreases n
  {
    if n == 0 then Some(s)
    else match Run(s, Attempt(s)) case Some(t) => Outage(t, n - 1) case None => None
  }

  lemma {:induction false} OutageTakes(s: State, n: nat)
    requires Trying(s) && InStep(s)
    ensures Outage(s, n).Some?
    ensures var t := Outage(s, n).value;
            Trying(t) && t.firings == s.firings + n && t.now == s.now + Total(s.firings, n)
    decreases n
  {
    hide Trying, InStep, Attempt, Backoff, Run;
    if n == 0 {
    } else {
      AttemptFails(s);
      OutageTakes(Run(s, Attempt(s)).value, n - 1);
    }
  }

  /**
   * After a handshake, `n` attempts that fail at once take 1000 * (2^n - 1) ms for `n` up to 6, and one minute more for
   * each further attempt; the client still holds a socket then.
   */
  lemma OutageAfterHandshake(handlers: set<string>, now: nat, es: seq<Event>, n: nat)
    requires Run(Initial(handlers, now), es).Some?
    requires var s := Run(Initial(handlers, now), es).value; Trying(s) && s.firings == 0
    ensures var s := Run(Initial(handlers, now), es).value;
            && Outage(s, n).Some? && Trying(Outage(s, n).value)
            && Outage(s, n).value.now - s.now == if n <= 6 then 1000 * (Pow2(n) - 1) else 63_000 + 60_000 * (n - 6)
  {
    RunInStep(Initial(handlers, now), es);
    OutageTakes(Run(Initial(handlers, now), es).value, n);
    TotalClosedForm(n);
  }

  // ----- What is remembered about an outage -----

  predicate Greets(e: Event)
  {
    e.Receives? && e.m.Connected? && e.m.hostId != ""
  }

  /** The time of the first close among `es`. */
  function TimeOfLoss(now: nat, es: seq<Event>): Option<nat>
    decreases |es|
  {
    if es == [] then None
    else
      match es[0]
      case Closes(_) => Some(now)
      case Tick(ms) => TimeOfLoss(now + ms, es[1..])
      case _ => TimeOfLoss(now, es[1..])
  }

  /** How many of the closes among `es` find the client not stopped. */
  function Attempts(stopped: bool, es: seq<Event>): nat
    decreases |es|
  {
    if es == [] then 0
    else
      match es[0]
      case Closes(_) => (if stopped then 0 else 1) + Attempts(stopped, es[1..])
      case Stop => Attempts(true, es[1..])
      case Connect(_) => Attempts(false, es[1..])
      case _ => Attempts(stopped, es[1..])
  }

  predicate Remembers(s: State, t: State)
  {
    t.notes == s.notes && t.now == s.now && t.stopped == s.stopped
  }

  lemma {:induction false} RefusedRemembers(s: State, g: nat, hs: seq<nat>, m: Incoming)
    requires !(m.Connected? && m.hostId != "")
    ensures Remembers(s, GreetAll(s, g, hs, m))
    decreases |hs|
  {
    hide CloseCurrent;
    if hs == [] {
    } else {
      RefusedRemembers(Greet(s, g, hs[0], m), g, hs[1..], m);
    }
  }

  lemma StepRemembers(s: State, e: Event)
    requires Possible(s, e) && !Greets(e)
    ensures var t := Step(s, e);
            && t.now == s.now + (if e.Tick? then e.ms else 0)
            && t.stopped == (if e.Stop? then true else if e.Connect? then false else s.stopped)
            && if e.Closes? then
                 && t.notes.disconnectedAt == Some(if s.notes.disconnectedAt.Some? then s.notes.disconnectedAt.value
                                                   else s.now)
                 && t.notes.reconnectCount == s.notes.reconnectCount + (if s.stopped then 0 else 1)
               else t.notes == s.notes
  {
    hide OnOpen, AfterStop, SendAdapterCall, HandlerDone, Fired, Heard, GreetAll, RejectedLog, TimersOf;
    if e.Receives? && !e.m.NullMessage? {
      RefusedRemembers(Heard(s, e.g, e.m), e.g, s.socks[e.g].greeters, e.m);
    }
  }

  /**
   * In every run without a greeting: the time of the loss is that of the first close, unless the connection was lost
   * already, and each close that found the client not stopped counts as one more attempt.
   */
  lemma {:induction false} OutageRemembered(s: State, es: seq<Event>)
    requires Run(s, es).Some? && forall e :: e in es ==> !Greets(e)
    ensures var end := Run(s, es).value.notes;
            && end.reconnectCount == s.notes.reconnectCount + Attempts(s.stopped, es)
            && end.disconnectedAt == (if s.notes.disconnectedAt.Some? then s.notes.disconnectedAt
                                      else TimeOfLoss(s.now, es))
    decreases |es|
  {
    hide Step;
    if es == [] {
    } else {
      assert es[0] in es;
      StepRemembers(s, es[0]);
      OutageRemembered(Step(s, es[0]), es[1..]);
    }
  }
}
