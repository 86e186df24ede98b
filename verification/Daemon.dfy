/** The daemon's wiring: the token manager's clock, getter and rotation callback drive the Gateway client. */
module DaemonWiring {
  import opened Text
  import Tokens = TokenRotation
  import Gateway = GatewayConnection
  import GatewayLifecycle
  import Discipline = ConnectionDiscipline

  /** `promise` is what the Gateway still owes the refresh round under way. */
  datatype Daemon = Daemon(tokens: Tokens.Manager, promise: Tokens.Promise, link: Gateway.State)

  function GetterReturns(d: Daemon): bool
  {
    Tokens.AccessToken(d.tokens).Some?
  }

  /** The rotation callback: stop and connect back to back. Nobody awaits the connect. */
  function Rotated(s: Gateway.State, tokenOk: bool): Gateway.State
  {
    var t := Gateway.AfterConnect(Gateway.AfterStop(s), tokenOk);
    if tokenOk then t else t.(crashed := true)
  }

  /** Tokens acquired, then connected. */
  function Start(first: Tokens.TokenPair, p: Tokens.Promise, handlers: set<string>, now: nat): Daemon
  {
    var tokens := Tokens.Started(Tokens.Fresh(300, 3, now), first);
    Daemon(tokens, p, Gateway.AfterConnect(Gateway.Initial(handlers, now), Tokens.AccessToken(tokens).Some?))
  }

  /** `Token` covers the clock as well; a granted pair rotates the connection in the same step. */
  datatype Event = Token(move: Tokens.Move) | Network(e: Gateway.Event)

  predicate Possible(d: Daemon, e: Event)
  {
    && !d.link.crashed
    && match e
       case Token(move) => Tokens.Kept(d.tokens, d.promise, move)
       case Network(n) =>
         && Gateway.Possible(d.link, n) && !n.Tick?
         && (n.Fire? && GatewayLifecycle.IsReconnect(d.link, n.t) ==> n.tokenOk == GetterReturns(d))
         && (n.Connect? ==> n.tokenOk == GetterReturns(d))
  }

  function Step(d: Daemon, e: Event): Daemon
    requires Possible(d, e)
  {
    match e
    case Network(n) => d.(link := Gateway.Step(d.link, n))
    case Token(move) =>
      var tokens := Tokens.Step(d.tokens, Tokens.EventOf(move));
      var link := match move
                  case Pass(ms) => d.link.(now := d.link.now + ms)
                  case Grant(_, _) => Rotated(d.link, Tokens.AccessToken(tokens).Some?)
                  case _ => d.link;
      Daemon(tokens, Tokens.PromiseAfter(d.tokens, d.promise, move), link)
  }

  function Run(d: Daemon, es: seq<Event>): Option<Daemon>
    decreases |es|
  {
    if es == [] then Some(d) else if Possible(d, es[0]) then Run(Step(d, es[0]), es[1..]) else None
  }

  /** `wsReconnect` as the daemon assigns it. */
  method WsReconnect(gateway: Gateway.GatewayClient, tokens: Tokens.TokenManager)
    requires !gateway.world.crashed
    modifies gateway
    ensures gateway.Value() == Rotated(old(gateway.Value()), Tokens.AccessToken(tokens.Value()).Some?)
  {
    ghost var before := gateway.Value();
    gateway.StopNow();
    var token := tokens.GetAccessToken();
    gateway.ConnectNow(token.Some?);
    if token == None {
      gateway.world := gateway.world.(crashed := true);
    }
  }

  // ----- The two machines together -----

  ghost predicate Healthy(d: Daemon)
  {
    && Tokens.OnTime(d.tokens, d.promise)
    && Linked(d.link)
  }

  /** The part of `Healthy` that is about the connection. */
  ghost predicate Linked(s: Gateway.State)
  {
    && GatewayLifecycle.Sane(s) && GatewayLifecycle.Parked(s)
    && GatewayLifecycle.NeverStranded(s) && GatewayLifecycle.HoldsSocket(s) && s.socks != []
  }

  lemma FirstConnectLinks(handlers: set<string>, now: nat)
    ensures var s := Gateway.AfterConnect(Gateway.Initial(handlers, now), true); Linked(s) && !s.crashed
  {
    var i := Gateway.Initial(handlers, now);
    GatewayLifecycle.StepSane(i, Gateway.Connect(true));
    GatewayLifecycle.StrandedIff(i, Gateway.Connect(true));
  }

  lemma LinkStep(s: Gateway.State, e: Gateway.Event)
    requires Linked(s) && Gateway.Possible(s, e)
    requires GatewayLifecycle.ConnectReturns(e) && !GatewayLifecycle.ReconnectFails(e)
    ensures Linked(Gateway.Step(s, e))
    ensures Gateway.Step(s, e).crashed <==> GatewayLifecycle.IsNull(e) || (e.Opens? && s.stopped)
  {
    hide GatewayLifecycle.Sane, GatewayLifecycle.NeverStranded, Gateway.Step;
    GatewayLifecycle.StepSane(s, e);
    GatewayLifecycle.StrandedIff(s, e);
    GatewayLifecycle.StepCrashesIff(s, e);
    GatewayLifecycle.StepKeepsSockets(s, e);
  }

  lemma RotationLinks(s: Gateway.State)
    requires Linked(s) && !s.crashed
    ensures Linked(Rotated(s, true)) && !Rotated(s, true).crashed
  {
    hide Linked, Gateway.AfterStop, Gateway.AfterConnect;
    LinkStep(s, Gateway.Stop);
    LinkStep(Gateway.AfterStop(s), Gateway.Connect(true));
  }

  /** A message `null` reaches the client. */
  predicate IsNull(e: Event)
  {
    e.Network? && GatewayLifecycle.IsNull(e.e)
  }

  lemma TokenStepHealthy(d: Daemon, move: Tokens.Move)
    requires Healthy(d) && Possible(d, Token(move))
    ensures Healthy(Step(d, Token(move))) && !Step(d, Token(move)).link.crashed
  {
    hide Linked;
    Tokens.MoveOnTime(d.tokens, d.promise, move);
    var n := Step(d, Token(move));
    Tokens.OnTimeServes(n.tokens, n.promise);
    match move
    case Pass(ms) => LinkStep(d.link, Gateway.Tick(ms));
    case Grant(_, _) => RotationLinks(d.link);
    case _ =>
  }

  lemma StepHealthy(d: Daemon, e: Event)
    requires Healthy(d) && Possible(d, e)
    ensures Healthy(Step(d, e))
    ensures Step(d, e).link.crashed <==> IsNull(e) || (e.Network? && e.e.Opens? && d.link.stopped)
  {
    hide Linked;
    match e
    case Token(move) => TokenStepHealthy(d, move);
    case Network(n) =>
      Tokens.OnTimeServes(d.tokens, d.promise);
      LinkStep(d.link, n);
  }

  /**
   * Every accepted pair, and no other token event, puts the client on a new socket: the one before is closing or
   * closed, and neither its heartbeat nor a reconnect is left.
   */
  lemma GrantRenews(d: Daemon, move: Tokens.Move)
    requires Healthy(d) && Possible(d, Token(move))
    ensures var s, t := d.link, Step(d, Token(move)).link;
            if move.Grant? then
              && t.ws == Some(|s.socks|) && |t.socks| == |s.socks| + 1 && !t.stopped
              && Gateway.PhaseOf(t, |s.socks|) == Gateway.Connecting
              && (s.ws.Some? ==>
                    || Gateway.PhaseOf(t, s.ws.value) == Gateway.Closing
                    || Gateway.PhaseOf(t, s.ws.value) == Gateway.Closed)
              && (forall k :: !GatewayLifecycle.IsReconnect(t, k))
              && (s.heartbeatTimer.Some? ==> s.heartbeatTimer.value !in t.timers)
            else t == s.(now := t.now)
  {
    Tokens.MoveOnTime(d.tokens, d.promise, move);
    var n := Step(d, Token(move));
    Tokens.OnTimeServes(n.tokens, n.promise);
    if move.Grant? {
      var t := n.link;
      forall k: nat ensures !GatewayLifecycle.IsReconnect(t, k) {
        assert GatewayLifecycle.IsReconnect(d.link, k) ==> d.link.reconnectTimer == Some(k);
      }
    }
  }

  /** The part of a run that concerns the token manager. */
  function TokenMoves(es: seq<Event>): seq<Tokens.Move>
  {
    if es == [] then []
    else if es[0].Token? then [es[0].move] + TokenMoves(es[1..])
    else TokenMoves(es[1..])
  }

  lemma {:induction false} RunHealthy(d: Daemon, es: seq<Event>)
    requires Healthy(d) && Run(d, es).Some?
    ensures Healthy(Run(d, es).value)
    ensures Tokens.Play(d.tokens, d.promise, TokenMoves(es)) == Some(Run(d, es).value.tokens)
    ensures Run(d, es).value.link.crashed && !d.link.crashed ==>
              Run(d, es).value.link.stopped || exists e :: e in es && IsNull(e)
    decreases |es|
  {
    hide Healthy;
    if es == [] {
    } else {
      var n := Step(d, es[0]);
      StepHealthy(d, es[0]);
      RunHealthy(n, es[1..]);
      assert es[0] in es;
      if n.link.crashed {
        CrashedEnds(n, es[1..]);
      }
      if es[0].Token? {
        assert TokenMoves(es)[1..] == TokenMoves(es[1..]);
      }
    }
  }

  lemma CrashedEnds(d: Daemon, es: seq<Event>)
    requires d.link.crashed && Run(d, es).Some?
    ensures es == [] && Run(d, es).value == d
  {
  }

  /**
   * No assumption on the getter is needed any more: while the Gateway keeps its promise for every refresh round, then
   * in every interleaving of socket events, timers, stops, connects and rotations the getter returns the token received
   * last, and the client, unless stopped, has a socket still to be closed or exactly one armed reconnect timer. It
   * crashes only while it is stopped, unless it is sent the message `null`.
   */
  lemma DaemonNeverStranded(first: Tokens.TokenPair, p: Tokens.Promise, handlers: set<string>, now: nat, es: seq<Event>)
    requires 300 < first.expiresIn <= Tokens.MAX_EXPIRES_IN_S
    requires Tokens.Sufficient(Tokens.Fresh(300, 3, now), p)
    requires Run(Start(first, p, handlers, now), es).Some?
    ensures var d := Run(Start(first, p, handlers, now), es).value;
            && Tokens.Serving(d.tokens, Tokens.Held(first, TokenMoves(es)))
            && (!d.link.stopped ==> GatewayLifecycle.Tended(d.link))
            && (forall t, u ::
                  GatewayLifecycle.IsReconnect(d.link, t) && GatewayLifecycle.IsReconnect(d.link, u) ==> t == u)
            && (d.link.crashed ==> d.link.stopped || exists e :: e in es && IsNull(e))
  {
    var d := Start(first, p, handlers, now);
    Tokens.StartOnTime(Tokens.Fresh(300, 3, now), first, p);
    Tokens.OnTimeServes(d.tokens, p);
    FirstConnectLinks(handlers, now);
    RunHealthy(d, es);
    Tokens.TokenAvailability(300, 3, now, first, p, TokenMoves(es));
  }

  /**
   * What a rotation needs beyond an answer that is accepted: the connect that follows throws, and ends the process, if
   * and only if the new token lives no longer than the getter's margin of a minute.
   */
  lemma RotationCrashesIff(m: Tokens.Manager, pair: Tokens.TokenPair, s: Gateway.State)
    requires m.inFlight != [] && Tokens.ValidExpiry(pair.expiresIn) && !s.crashed
    ensures var n := Tokens.Step(m, Tokens.Answer(Some(pair)));
            && n.refreshed == m.refreshed + [pair]
            && (Rotated(s, Tokens.AccessToken(n).Some?).crashed <==> pair.expiresIn <= 60)
  {
    hide Gateway.AfterStop;
  }

  /**
   * A rotation is disciplined exactly when every socket has been reported closed already: rotating a client that still
   * has a live socket always leaves two sockets alive.
   */
  lemma RotationKeepsLineIffClosed(s: Gateway.State)
    requires GatewayLifecycle.Sane(s) && Discipline.InLine(s)
    ensures Discipline.InLine(Rotated(s, true)) <==> Discipline.AllClosed(s)
    ensures !Discipline.AllClosed(s) ==>
              exists g, h :: g != h && Gateway.PhaseOf(Rotated(s, true), g) != Gateway.Closed
                                    && Gateway.PhaseOf(Rotated(s, true), h) != Gateway.Closed
  {
    hide Gateway.AfterStop, Discipline.InLine;
    var t := Gateway.AfterStop(s);
    GatewayLifecycle.StopSane(s);
    Discipline.StopInLine(s);
    Discipline.ConnectKeepsLineIffQuiet(t);
    StopQuietIffClosed(s);
    StopKeepsClosed(s);
    if !Discipline.AllClosed(s) {
      var g :| 0 <= g < |s.socks| && s.socks[g].phase != Gateway.Closed;
      var h := |t.socks|;
      assert Gateway.PhaseOf(Rotated(s, true), g) != Gateway.Closed;
      assert Gateway.PhaseOf(Rotated(s, true), h) != Gateway.Closed;
    }
  }

  lemma StopQuietIffClosed(s: Gateway.State)
    requires GatewayLifecycle.Sane(s)
    ensures Discipline.Quiet(Gateway.AfterStop(s)) <==> Discipline.AllClosed(s)
  {
    var t := Gateway.AfterStop(s);
    GatewayLifecycle.StopParks(s);
    StopKeepsClosed(s);
    forall k | k in t.timers ensures !t.timers[k].Reconnect? {
      assert !GatewayLifecycle.IsReconnect(t, k);
    }
  }

  lemma StopKeepsClosed(s: Gateway.State)
    ensures |Gateway.AfterStop(s).socks| == |s.socks|
    ensures forall g :: 0 <= g < |s.socks| ==>
              (Gateway.AfterStop(s).socks[g].phase == Gateway.Closed <==> s.socks[g].phase == Gateway.Closed)
  {
  }
}
