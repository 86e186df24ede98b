/** Access-token rotation: one timer, a skew margin, and retries with doubling delays. Times are milliseconds. */
module TokenRotation {
  import opened NodeTimers
  import opened Powers
  import opened Text

  const RETRY_DELAY_MS := 30_000
  const CLOCK_SKEW_MARGIN_S := 60
  const MAX_EXPIRES_IN_S := 86400 * 365

  datatype TokenPair = TokenPair(accessToken: string, refreshToken: string, expiresIn: int)

  /**
   * `timer` is the manager's handle and `armed` the timers that will still fire, by handle, with the time they are due;
   * `inFlight` the refresh tokens of the requests not answered yet. `refreshed` and `failures` log the two callbacks.
   */
  datatype Manager = Manager(
    refreshBefore: int, maxRetries: int,
    tokens: Option<TokenPair>, tokenExpiresAt: int, timer: Option<nat>, retryCount: nat,
    now: int, armed: map<nat, int>, nextTimer: nat, inFlight: seq<string>,
    refreshed: seq<TokenPair>, failures: nat)

  function Fresh(refreshBefore: int, maxRetries: int, now: int): Manager
  {
    Manager(refreshBefore, maxRetries, None, 0, None, 0, now, map[], 0, [], [], 0)
  }

  // ----- Steps -----

  function Arm(m: Manager, ms: int): Manager
  {
    m.(timer := Some(m.nextTimer), armed := m.armed[m.nextTimer := m.now + TimerDelay(ms)],
       nextTimer := m.nextTimer + 1)
  }

  function Disarm(m: Manager): Manager
  {
    if m.timer.Some? then m.(armed := m.armed - {m.timer.value}) else m
  }

  function Scheduled(m: Manager, tokens: TokenPair): Manager
  {
    var delaySec := tokens.expiresIn - m.refreshBefore;
    Arm(Disarm(m), if delaySec <= 0 then 0 else delaySec * 1000)
  }

  predicate ValidExpiry(expiresIn: int)
  {
    0 < expiresIn <= MAX_EXPIRES_IN_S
  }

  function ExpiryAfter(m: Manager, expiresIn: int): int
  {
    m.now + expiresIn * 1000
  }

  /** `start()` once its request has answered; an invalid expiry is thrown at the caller. */
  function Started(m: Manager, pair: TokenPair): Manager
  {
    var n := m.(tokens := Some(pair));
    if ValidExpiry(pair.expiresIn) then Scheduled(n.(tokenExpiresAt := ExpiryAfter(n, pair.expiresIn)), pair) else n
  }

  predicate NearExpiry(m: Manager)
  {
    m.now >= m.tokenExpiresAt - CLOCK_SKEW_MARGIN_S * 1000
  }

  /** The `accessToken` getter; `None` stands for the exception. */
  function AccessToken(m: Manager): Option<string>
  {
    if m.tokens == None || NearExpiry(m) then None else Some(m.tokens.value.accessToken)
  }

  /** The catch branch of `doRefresh`. */
  function Failed(m: Manager): Manager
  {
    var n := m.(retryCount := m.retryCount + 1);
    if NearExpiry(n) || n.retryCount >= n.maxRetries then n.(failures := n.failures + 1)
    else Arm(n, RETRY_DELAY_MS * Pow2(n.retryCount - 1))
  }

  /** The answer to a refresh request. A pair with an invalid expiry is stored before it is found to be invalid. */
  function Answered(m: Manager, answer: Option<TokenPair>): Manager
    requires m.inFlight != []
  {
    var n := m.(inFlight := m.inFlight[1..]);
    match answer
    case None => Failed(n)
    case Some(pair) =>
      var p := n.(tokens := Some(pair));
      if !ValidExpiry(pair.expiresIn) then Failed(p)
      else
        var q := Scheduled(p.(tokenExpiresAt := ExpiryAfter(p, pair.expiresIn), retryCount := 0), pair);
        q.(refreshed := q.refreshed + [pair])
  }

  datatype Event =
    | Tick(ms: nat)
    | Fire(id: nat)
    | Answer(answer: Option<TokenPair>)
    | Stop

  predicate Possible(m: Manager, e: Event)
  {
    match e
    case Fire(id) => id in m.armed && m.armed[id] <= m.now
    case Answer(_) => m.inFlight != []
    case _ => true
  }

  function Step(m: Manager, e: Event): Manager
    requires Possible(m, e)
  {
    match e
    case Tick(ms) => m.(now := m.now + ms)
    case Fire(id) =>
      var n := m.(armed := m.armed - {id});
      (match n.tokens
      case None => n
      case Some(pair) => n.(inFlight := n.inFlight + [pair.refreshToken]))
    case Answer(answer) => Answered(m, answer)
    case Stop => Disarm(m).(timer := None)
  }

  // ----- The manager as the source has it -----

  /** The clock, the event loop's timers, requests under way, and the callbacks made, as in `Manager`. */
  datatype Runtime = Runtime(
    now: int, armed: map<nat, int>, nextTimer: nat, inFlight: seq<string>, refreshed: seq<TokenPair>, failures: nat)

  class TokenManager {
    const refreshBefore: int
    const maxRetries: int
    var tokens: Option<TokenPair>
    var tokenExpiresAt: int
    var timer: Option<nat>
    var retryCount: nat
    var world: Runtime

    ghost function Value(): Manager
      reads this
    {
      Manager(refreshBefore, maxRetries, tokens, tokenExpiresAt, timer, retryCount,
              world.now, world.armed, world.nextTimer, world.inFlight, world.refreshed, world.failures)
    }

    constructor (refreshBeforeExpiry: Option<int>, maxRefreshRetries: Option<int>, now: int)
      ensures Value() == Fresh(if refreshBeforeExpiry.Some? then refreshBeforeExpiry.value else 300,
                               if maxRefreshRetries.Some? then maxRefreshRetries.value else 3, now)
    {
      refreshBefore := if refreshBeforeExpiry.Some? then refreshBeforeExpiry.value else 5 * 60;
      maxRetries := if maxRefreshRetries.Some? then maxRefreshRetries.value else 3;
      tokens, tokenExpiresAt, timer, retryCount := None, 0, None, 0;
      world := Runtime(now, map[], 0, [], [], 0);
    }

    method SetTimer(ms: int)
      modifies this
      ensures Value() == Arm(old(Value()), ms)
    {
      var id := world.nextTimer;
      world := world.(armed := world.armed[id := world.now + TimerDelay(ms)], nextTimer := id + 1);
      timer := Some(id);
    }

    method ClearTimer()
      requires timer.Some?
      modifies this
      ensures Value() == Disarm(old(Value()))
    {
      world := world.(armed := world.armed - {timer.value});
    }

    method CalcExpiresAt(expiresIn: int) returns (at: Option<int>)
      ensures at == if ValidExpiry(expiresIn) then Some(world.now + expiresIn * 1000) else None
    {
      if expiresIn <= 0 || expiresIn > MAX_EXPIRES_IN_S {
        return None;
      }
      return Some(world.now + expiresIn * 1000);
    }

    method ScheduleRefresh(pair: TokenPair)
      modifies this
      ensures Value() == Scheduled(old(Value()), pair)
    {
      if timer.Some? {
        ClearTimer();
      }
      var delaySec := pair.expiresIn - refreshBefore;
      if delaySec <= 0 {
        SetTimer(0);
      } else {
        SetTimer(delaySec * 1000);
      }
    }

    /** Returns the access token, or nothing when the pair's expiry is rejected. */
    method Start(pair: TokenPair) returns (token: Option<string>)
      modifies this
      ensures Value() == Started(old(Value()), pair)
      ensures token == if ValidExpiry(pair.expiresIn) then Some(pair.accessToken) else None
    {
      tokens := Some(pair);
      var at := CalcExpiresAt(pair.expiresIn);
      if at == None {
        return None;
      }
      tokenExpiresAt := at.value;
      ScheduleRefresh(pair);
      return Some(pair.accessToken);
    }

    method GetAccessToken() returns (token: Option<string>)
      ensures token == AccessToken(Value())
    {
      if tokens == None || world.now >= tokenExpiresAt - CLOCK_SKEW_MARGIN_S * 1000 {
        return None;
      }
      return Some(tokens.value.accessToken);
    }

    /** `doRefresh` up to its await. */
    method OnTimer(id: nat)
      requires Possible(Value(), Fire(id))
      modifies this
      ensures Value() == Step(old(Value()), Fire(id))
    {
      world := world.(armed := world.armed - {id});
      if tokens.Some? {
        world := world.(inFlight := world.inFlight + [tokens.value.refreshToken]);
      }
    }

    /** `doRefresh` from its await on. */
    method OnAnswer(answer: Option<TokenPair>)
      requires Possible(Value(), Answer(answer))
      modifies this
      ensures Value() == Step(old(Value()), Answer(answer))
    {
      hide Scheduled, Failed;
      world := world.(inFlight := world.inFlight[1..]);
      if answer.Some? {
        tokens := answer;
        var at := CalcExpiresAt(answer.value.expiresIn);
        if at.Some? {
          tokenExpiresAt := at.value;
          retryCount := 0;
          ScheduleRefresh(answer.value);
          world := world.(refreshed := world.refreshed + [answer.value]);
          return;
        }
      }
      OnFailure();
    }

    /** The catch branch of `doRefresh`. */
    method OnFailure()
      modifies this
      ensures Value() == Failed(old(Value()))
    {
      retryCount := retryCount + 1;
      if world.now >= tokenExpiresAt - CLOCK_SKEW_MARGIN_S * 1000 {
        world := world.(failures := world.failures + 1);
        return;
      }
      if retryCount >= maxRetries {
        world := world.(failures := world.failures + 1);
        return;
      }
      SetTimer(RETRY_DELAY_MS * Pow2(retryCount - 1));
    }

    method StopTimer()
      modifies this
      ensures Value() == Step(old(Value()), Stop)
    {
      if timer.Some? {
        ClearTimer();
        timer := None;
      }
    }
  }

  // ----- One thing at a time -----

  /** Timers still to fire and requests still to be answered, counted together. */
  function Outstanding(m: Manager): nat
  {
    |m.armed| + |m.inFlight|
  }

  predicate Handles(m: Manager)
  {
    && (forall id :: id in m.armed ==> id < m.nextTimer)
    && (forall id :: id in m.armed ==> m.timer == Some(id))
    && (m.armed != map[] ==> m.inFlight == [])
    && |m.inFlight| <= 1
  }

  lemma HandlesMeansOne(m: Manager)
    requires Handles(m)
    ensures Outstanding(m) <= 1
  {
    if m.armed != map[] {
      var id :| id in m.armed;
      assert m.armed.Keys == {id};
    }
  }

  /** The handle the manager keeps is the only timer there is, whatever happens and however often it is stopped. */
  lemma StepHandles(m: Manager, e: Event)
    requires Handles(m) && Possible(m, e)
    ensures Handles(Step(m, e))
  {
    if e.Fire? {
      assert m.timer == Some(e.id);
    }
  }

  // ----- Failing rounds -----

  function Limit(m: Manager): nat
  {
    if m.maxRetries < 1 then 1 else m.maxRetries
  }

  /** A round is under way with fewer failures than allowed, or given up with one report and nothing left to happen. */
  predicate Failing(m: Manager, reportsBefore: nat)
  {
    && m.tokens.Some? && Handles(m)
    && if m.armed == map[] && m.inFlight == []
       then m.failures == reportsBefore + 1 && 1 <= m.retryCount <= Limit(m)
       else m.failures == reportsBefore && m.retryCount < Limit(m)
  }

  /** An answer that counts as a failed attempt: an error, or a pair with an invalid expiry. */
  predicate IsFailure(answer: Option<TokenPair>)
  {
    answer == None || !ValidExpiry(answer.value.expiresIn)
  }

  predicate NoSuccess(e: Event)
  {
    e.Tick? || e.Fire? || (e.Answer? && IsFailure(e.answer))
  }

  predicate OnlyFailures(es: seq<Event>)
  {
    forall e :: e in es ==> NoSuccess(e)
  }

  function FailureCount(es: seq<Event>): nat
  {
    if es == [] then 0 else (if es[0].Answer? then 1 else 0) + FailureCount(es[1..])
  }

  function Run(m: Manager, es: seq<Event>): Option<Manager>
    decreases |es|
  {
    if es == [] then Some(m) else if Possible(m, es[0]) then Run(Step(m, es[0]), es[1..]) else None
  }

  lemma FailingStep(m: Manager, e: Event, reportsBefore: nat)
    requires Failing(m, reportsBefore) && Possible(m, e)
    requires NoSuccess(e)
    ensures Failing(Step(m, e), reportsBefore)
    ensures Step(m, e).retryCount == m.retryCount + if e.Answer? then 1 else 0
    ensures Step(m, e).maxRetries == m.maxRetries
  {
    StepHandles(m, e);
    if e.Fire? {
      assert m.timer == Some(e.id);
      assert (m.armed - {e.id}).Keys == {};
    } else if e.Answer? {
      assert m.armed == map[];
      var n := Step(m, e);
      assert n.armed == map[] || n.nextTimer - 1 in n.armed;
    }
  }

  /**
   * However long the requests take and the timers lag: a round in which every request fails makes at most
   * max(1, maxRetries) attempts, and it is over, with one report of failure, exactly when nothing is outstanding.
   */
  lemma {:induction false} RetriesTerminate(m: Manager, es: seq<Event>, reportsBefore: nat)
    requires Failing(m, reportsBefore) && OnlyFailures(es) && Run(m, es).Some?
    ensures var end := Run(m, es).value;
            && m.retryCount + FailureCount(es) == end.retryCount <= Limit(m)
            && Outstanding(end) <= 1
            && (end.failures == reportsBefore + 1 <==> Outstanding(end) == 0)
            && (end.failures == reportsBefore <==> Outstanding(end) == 1)
    decreases |es|
  {
    if es == [] {
      HandlesMeansOne(m);
      assert m.armed == map[] <==> |m.armed| == 0;
    } else {
      assert es[0] in es && OnlyFailures(es[1..]);
      FailingStep(m, es[0], reportsBefore);
      RetriesTerminate(Step(m, es[0]), es[1..], reportsBefore);
    }
  }

  /**
   * A failed attempt is the last one of its round if and only if the token is within a minute of its expiry or the
   * attempts are used up; then it is reported once and nothing is outstanding.
   */
  lemma FailureIsFinalIff(m: Manager, answer: Option<TokenPair>)
    requires Handles(m) && m.inFlight != []
    requires answer == None || !(1 <= answer.value.expiresIn <= 31_536_000)
    ensures var n := Step(m, Answer(answer));
            && (n.failures == m.failures + 1
                <==> m.now >= m.tokenExpiresAt - 60_000 || m.retryCount + 1 >= m.maxRetries)
            && (n.failures == m.failures || n.failures == m.failures + 1)
            && (Outstanding(n) == 0 <==> n.failures == m.failures + 1)
            && n.refreshed == m.refreshed && n.retryCount == m.retryCount + 1
  {
    var n := Step(m, Answer(answer));
    assert m.armed == map[] && |m.armed| == 0;
    assert n.armed == map[] || n.nextTimer - 1 in n.armed;
  }

  /** A lifetime is accepted if and only if it is between a second and a year: then a timer is armed for the refresh. */
  lemma StartAcceptsIff(refreshBefore: int, maxRetries: int, now: nat, pair: TokenPair)
    ensures var m := Started(Fresh(refreshBefore, maxRetries, now), pair);
            if 1 <= pair.expiresIn <= 31_536_000 then
              && m.tokenExpiresAt == now + 1000 * pair.expiresIn && Outstanding(m) == 1
              && (AccessToken(m) == Some(pair.accessToken) <==> pair.expiresIn > 60)
            else Outstanding(m) == 0 && AccessToken(m) == None
  {
    var m := Started(Fresh(refreshBefore, maxRetries, now), pair);
    if 1 <= pair.expiresIn <= 31_536_000 {
      assert m.armed.Keys == {0} && |m.armed.Keys| == 1;
    }
  }

  /** The k-th failure of a round not given up is followed by a retry 30000 * 2^(k-1) ms later, for k up to 17. */
  lemma RetryDelay(m: Manager)
    requires Handles(m) && m.inFlight != [] && !NearExpiry(m) && m.retryCount + 1 < m.maxRetries
    ensures var n := Step(m, Answer(None));
            && n.failures == m.failures && n.inFlight == []
            && n.timer.Some? && n.armed.Keys == {n.timer.value}
            && (m.retryCount <= 16 ==> n.armed[n.timer.value] == m.now + 30_000 * Pow2(m.retryCount))
            && (m.retryCount > 16 ==> n.armed[n.timer.value] == m.now + 1)
  {
    assert m.armed == map[];
    Pow2Of16();
    assert Pow2(17) == 2 * Pow2(16);
    if m.retryCount <= 16 {
      Pow2Monotone(m.retryCount, 16);
    } else {
      Pow2Monotone(17, m.retryCount);
    }
  }

  // ----- Token availability -----

  /**
   * What the Gateway promises for the round under way: attempt number `k` will be granted, and from now until then
   * waiting for answers and late timers take at most `slack` ms altogether.
   */
  datatype Promise = Promise(k: nat, slack: int)

  /** The promise is good enough: attempts within the limit, and all waiting fits between refresh and skewed expiry. */
  predicate Sufficient(m: Manager, p: Promise)
  {
    && 1 <= p.k <= m.maxRetries && 0 <= p.slack
    && RETRY_DELAY_MS * (Pow2(p.k - 1) - 1) + p.slack < 1000 * m.refreshBefore - 1000 * CLOCK_SKEW_MARGIN_S
  }

  /** The part of the next `ms` milliseconds that is waiting for an answer or for a timer already due. */
  function Waiting(m: Manager, ms: nat): nat
  {
    if m.inFlight != [] then ms
    else if m.timer.Some? && m.timer.value in m.armed then
      var due := m.armed[m.timer.value];
      if m.now + ms <= due then 0 else if due <= m.now then ms else m.now + ms - due
    else 0
  }

  datatype Move =
    | Pass(ms: nat)
    | Due(id: nat)
    | Refuse(answer: Option<TokenPair>)
    | Grant(pair: TokenPair, next: Promise)

  predicate Kept(m: Manager, p: Promise, move: Move)
  {
    match move
    case Pass(ms) => Waiting(m, ms) <= p.slack
    case Due(id) => Possible(m, Fire(id))
    case Refuse(answer) => IsFailure(answer) && m.inFlight != [] && m.retryCount + 1 < p.k
    case Grant(pair, next) =>
      && m.inFlight != [] && m.retryCount + 1 == p.k
      && m.refreshBefore < pair.expiresIn <= MAX_EXPIRES_IN_S && Sufficient(m, next)
  }

  function EventOf(move: Move): Event
  {
    match move
    case Pass(ms) => Tick(ms)
    case Due(id) => Fire(id)
    case Refuse(answer) => Answer(answer)
    case Grant(pair, _) => Answer(Some(pair))
  }

  function PromiseAfter(m: Manager, p: Promise, move: Move): Promise
  {
    match move
    case Pass(ms) => p.(slack := p.slack - Waiting(m, ms))
    case Grant(_, next) => next
    case _ => p
  }

  /** `None` when the promise is broken somewhere. */
  function Play(m: Manager, p: Promise, moves: seq<Move>): Option<Manager>
    decreases |moves|
  {
    if moves == [] then Some(m)
    else if Kept(m, p, moves[0]) then Play(Step(m, EventOf(moves[0])), PromiseAfter(m, p, moves[0]), moves[1..])
    else None
  }

  /** The longest the rest of the round can take once its next attempt has begun. */
  function Remaining(m: Manager, p: Promise): int
    requires p.k >= 1
  {
    RETRY_DELAY_MS * (Pow2(p.k - 1) - Pow2(m.retryCount)) + p.slack
  }

  function NextAttempt(m: Manager): int
  {
    if m.timer.Some? && m.timer.value in m.armed && m.armed[m.timer.value] > m.now then m.armed[m.timer.value]
    else m.now
  }

  /** The round will be over before the skewed expiry. */
  predicate OnTime(m: Manager, p: Promise)
  {
    && m.tokens.Some? && Handles(m) && (m.armed != map[] || m.inFlight != [])
    && m.retryCount < p.k <= m.maxRetries && 0 <= p.slack
    && NextAttempt(m) + Remaining(m, p) < m.tokenExpiresAt - 1000 * CLOCK_SKEW_MARGIN_S
  }

  lemma StartOnTime(m: Manager, pair: TokenPair, p: Promise)
    requires m.armed == map[] && m.inFlight == [] && m.retryCount == 0
    requires m.refreshBefore < pair.expiresIn <= MAX_EXPIRES_IN_S && Sufficient(m, p)
    ensures OnTime(Started(m, pair), p)
  {
    Pow2Monotone(0, p.k - 1);
    var n := Started(m, pair);
    assert n.armed.Keys == {m.nextTimer};
  }

  lemma MoveOnTime(m: Manager, p: Promise, move: Move)
    requires OnTime(m, p) && Kept(m, p, move)
    ensures OnTime(Step(m, EventOf(move)), PromiseAfter(m, p, move))
  {
    StepHandles(m, EventOf(move));
    if m.armed != map[] {
      var id :| id in m.armed;
      assert m.timer == Some(id);
    }
    Pow2Monotone(m.retryCount, p.k - 1);
    match move
    case Pass(_) =>
    case Due(id) => assert (m.armed - {id}).Keys == {};
    case Refuse(answer) =>
      Pow2Monotone(m.retryCount + 1, p.k - 1);
      assert m.nextTimer in Step(m, Answer(answer)).armed;
    case Grant(pair, next) =>
      Pow2Monotone(0, next.k - 1);
      assert m.nextTimer in Step(m, Answer(Some(pair))).armed;
  }

  /** The pair accepted last, starting with `first`. */
  function Latest(first: TokenPair, refreshed: seq<TokenPair>): TokenPair
  {
    if refreshed == [] then first else Last(refreshed)
  }

  /** The pair received last, accepted or not. */
  function Held(first: TokenPair, moves: seq<Move>): TokenPair
    decreases |moves|
  {
    if moves == [] then first
    else
      match moves[0]
      case Grant(pair, _) => Held(pair, moves[1..])
      case Refuse(Some(pair)) => Held(pair, moves[1..])
      case _ => Held(first, moves[1..])
  }

  /** The pair received last in any run, accepted or not. */
  function Received(first: TokenPair, es: seq<Event>): TokenPair
    decreases |es|
  {
    if es == [] then first
    else
      match es[0]
      case Answer(Some(pair)) => Received(pair, es[1..])
      case _ => Received(first, es[1..])
  }

  /** A request under way carries the refresh token of the pair the manager holds. */
  predicate SendsHeld(m: Manager)
  {
    m.inFlight != [] ==> m.tokens.Some? && m.inFlight == [m.tokens.value.refreshToken]
  }

  lemma StepSendsHeld(m: Manager, e: Event)
    requires Handles(m) && SendsHeld(m) && Possible(m, e)
    ensures SendsHeld(Step(m, e))
    ensures Step(m, e).tokens == if e.Answer? && e.answer.Some? then e.answer else m.tokens
    ensures e.Fire? && m.tokens.Some? ==> Step(m, e).inFlight == [m.tokens.value.refreshToken]
  {
    if e.Fire? {
      assert m.armed != map[];
    }
  }

  lemma {:induction false} RunSendsHeld(m: Manager, es: seq<Event>)
    requires Handles(m) && SendsHeld(m) && m.tokens.Some? && Run(m, es).Some?
    ensures var end := Run(m, es).value;
            && Handles(end) && SendsHeld(end)
            && end.tokens == Some(Received(m.tokens.value, es))
    decreases |es|
  {
    if es == [] {
    } else {
      StepHandles(m, es[0]);
      StepSendsHeld(m, es[0]);
      RunSendsHeld(Step(m, es[0]), es[1..]);
    }
  }

  /**
   * In every run after `start`, whatever the Gateway answers and however often the manager is stopped: a request under
   * way is one, and it carries the refresh token of the pair received last; a timer that fires sends exactly that one.
   */
  lemma RefreshSendsLatest(refreshBefore: int, maxRetries: int, now: int, first: TokenPair, es: seq<Event>)
    requires Run(Started(Fresh(refreshBefore, maxRetries, now), first), es).Some?
    ensures var end := Run(Started(Fresh(refreshBefore, maxRetries, now), first), es).value;
            && (end.inFlight != [] ==> end.inFlight == [Received(first, es).refreshToken])
            && (forall id :: Possible(end, Fire(id)) ==>
                  Step(end, Fire(id)).inFlight == [Received(first, es).refreshToken])
  {
    var s := Started(Fresh(refreshBefore, maxRetries, now), first);
    RunSendsHeld(s, es);
    var end := Run(s, es).value;
    forall id | Possible(end, Fire(id)) ensures Step(end, Fire(id)).inFlight == [Received(first, es).refreshToken] {
      StepSendsHeld(end, Fire(id));
    }
  }

  /** The getter returns the token of `pair`, more than a minute before the expiry of the pair accepted last. */
  predicate Serving(m: Manager, pair: TokenPair)
  {
    AccessToken(m) == Some(pair.accessToken) && m.tokenExpiresAt - m.now > 60_000
  }

  lemma OnTimeServes(m: Manager, p: Promise)
    requires OnTime(m, p)
    ensures Serving(m, m.tokens.value)
  {
    Pow2Monotone(m.retryCount, p.k - 1);
  }

  predicate OnlyValidPairs(moves: seq<Move>)
  {
    forall move :: move in moves ==> !(move.Refuse? && move.answer.Some?)
  }

  lemma {:induction false} AvailableFrom(m: Manager, p: Promise, moves: seq<Move>, first: TokenPair)
    requires OnTime(m, p) && SendsHeld(m) && Play(m, p, moves).Some?
    ensures var end := Play(m, p, moves).value;
            && Serving(end, Held(m.tokens.value, moves))
            && (end.inFlight != [] ==> end.inFlight == [Held(m.tokens.value, moves).refreshToken])
            && (OnlyValidPairs(moves) && m.tokens.value == Latest(first, m.refreshed) ==>
                  Held(m.tokens.value, moves) == Latest(first, end.refreshed))
    decreases |moves|
  {
    if moves == [] {
      OnTimeServes(m, p);
    } else {
      MoveOnTime(m, p, moves[0]);
      StepSendsHeld(m, EventOf(moves[0]));
      assert moves[0] in moves;
      assert OnlyValidPairs(moves) ==> OnlyValidPairs(moves[1..]);
      AvailableFrom(Step(m, EventOf(moves[0])), PromiseAfter(m, p, moves[0]), moves[1..], first);
    }
  }

  /**
   * Over any number of rotations, while every round keeps a sufficient promise and every accepted pair outlives the
   * refresh margin: at every instant after `start` the getter returns the token of the pair received last, more than a
   * minute before the accepted expiry, and a request under way carries that pair's refresh token. Unless an attempt was
   * answered with an invalid pair, that is the pair accepted
   * last.
   */
  lemma TokenAvailability(refreshBefore: int, maxRetries: int, now: int, first: TokenPair, p: Promise, moves: seq<Move>)
    requires refreshBefore < first.expiresIn <= MAX_EXPIRES_IN_S
    requires Sufficient(Fresh(refreshBefore, maxRetries, now), p)
    requires Play(Started(Fresh(refreshBefore, maxRetries, now), first), p, moves).Some?
    ensures var end := Play(Started(Fresh(refreshBefore, maxRetries, now), first), p, moves).value;
            && Serving(end, Held(first, moves))
            && (end.inFlight != [] ==> end.inFlight == [Held(first, moves).refreshToken])
            && (OnlyValidPairs(moves) ==> Held(first, moves) == Latest(first, end.refreshed))
  {
    StartOnTime(Fresh(refreshBefore, maxRetries, now), first, p);
    AvailableFrom(Started(Fresh(refreshBefore, maxRetries, now), first), p, moves, first);
  }

  /** A pair that is refused for its expiry is served all the same, until the expiry of the pair accepted before it. */
  lemma InvalidPairIsServed(m: Manager, pair: TokenPair)
    requires m.inFlight != [] && !ValidExpiry(pair.expiresIn)
    ensures var n := Step(m, Answer(Some(pair)));
            && n.retryCount == m.retryCount + 1 && n.refreshed == m.refreshed && n.tokenExpiresAt == m.tokenExpiresAt
            && AccessToken(n) == if NearExpiry(m) then None else Some(pair.accessToken)
  {
  }

  /** The bound cannot be relaxed: one answer that takes exactly the margin leaves the getter without a token. */
  lemma MarginIsExact(m: Manager, pair: TokenPair)
    requires m.armed == map[] && m.inFlight == [] && m.timer == None
    requires 60 <= m.refreshBefore < pair.expiresIn <= MAX_EXPIRES_IN_S
    requires (pair.expiresIn - m.refreshBefore) * 1000 <= MAX_TIMEOUT_MS
    ensures var s := Started(m, pair);
            var t := Step(s, Tick((pair.expiresIn - m.refreshBefore) * 1000));
            && s.timer.Some? && Possible(t, Fire(s.timer.value))
            && var u := Step(t, Fire(s.timer.value));
            forall wait: nat :: AccessToken(Step(u, Tick(wait))) == None <==> wait >= 1000 * m.refreshBefore - 60_000
  {
  }

  predicate NoGrant(moves: seq<Move>)
  {
    forall move :: move in moves ==> !move.Grant?
  }

  /**
   * A round whose waiting stays within the margin but in which even the last attempt fails ends at the retry limit: the
   * getter still works when it is given up, and no earlier failure gives it up.
   */
  lemma {:induction false} GivesUpByLimit(m: Manager, p: Promise, moves: seq<Move>, answer: Option<TokenPair>)
    requires OnTime(m, p) && p.k == m.maxRetries && NoGrant(moves) && IsFailure(answer)
    requires Play(m, p, moves).Some? && Play(m, p, moves).value.inFlight != []
    ensures var end := Play(m, p, moves).value;
            && !NearExpiry(end) && !NearExpiry(Step(end, Answer(answer)))
            && end.failures == m.failures && end.maxRetries == m.maxRetries
            && Step(end, Answer(answer)).failures == m.failures + (if end.retryCount + 1 == m.maxRetries then 1 else 0)
    decreases |moves|
  {
    Pow2Monotone(m.retryCount, p.k - 1);
    if moves == [] {
    } else {
      assert moves[0] in moves && NoGrant(moves[1..]);
      MoveOnTime(m, p, moves[0]);
      var n := Step(m, EventOf(moves[0]));
      assert n.failures == m.failures;
      GivesUpByLimit(n, PromiseAfter(m, p, moves[0]), moves[1..], answer);
    }
  }

  // ----- Where the code does not do what its interface suggests -----

  /** Nothing is armed and nothing is under way, so nothing will happen any more. */
  predicate AtRest(m: Manager)
  {
    m.armed == map[] && m.inFlight == []
  }

  lemma {:induction false} RestLasts(m: Manager, es: seq<Event>)
    requires AtRest(m) && Run(m, es).Some?
    ensures AtRest(Run(m, es).value)
    decreases |es|
  {
    if es == [] {
    } else {
      RestLasts(Step(m, es[0]), es[1..]);
    }
  }

  /** The rotation comes back to life: some continuation arms a timer. */
  ghost predicate CanRearm(m: Manager)
  {
    exists es :: Run(m, es).Some? && Run(m, es).value.armed != map[]
  }

  /**
   * `stop()` ends the rotation exactly when no refresh is under way: then no continuation arms a timer again, and
   * otherwise a good answer does.
   */
  lemma StopEndsRotationIff(m: Manager)
    requires Handles(m)
    ensures CanRearm(Step(m, Stop)) <==> m.inFlight != []
  {
    var t := Step(m, Stop);
    if m.inFlight == [] {
      forall es | Run(t, es).Some? ensures Run(t, es).value.armed == map[] {
        RestLasts(t, es);
      }
    } else {
      var pair := TokenPair("", "", 600);
      var u := Step(t, Answer(Some(pair)));
      assert t.nextTimer in u.armed;
      assert [Answer(Some(pair))][1..] == [];
      assert Run(u, []) == Some(u);
      assert Run(t, [Answer(Some(pair))]) == Some(u);
    }
  }

  /** A refresh delay is the intended one exactly while it fits a Node timer; beyond that the refresh is due at once. */
  lemma RefreshDelay(m: Manager, pair: TokenPair)
    requires m.refreshBefore < pair.expiresIn
    ensures var s := Scheduled(m, pair);
            var wanted := (pair.expiresIn - m.refreshBefore) * 1000;
            && s.timer.Some? && s.timer.value in s.armed
            && (s.armed[s.timer.value] == m.now + wanted <==> wanted <= MAX_TIMEOUT_MS)
            && (wanted > MAX_TIMEOUT_MS ==> s.armed[s.timer.value] == m.now + 1)
  {
  }

  /** A token of thirty days is refreshed after one millisecond instead of five minutes before it expires. */
  lemma MonthLongToken(access: string, refresh: string)
    ensures var s := Started(Fresh(300, 3, 0), TokenPair(access, refresh, 30 * 86400));
            s.tokenExpiresAt == 2_592_000_000 && s.armed == map[0 := 1]
  {
    var m := Fresh(300, 3, 0);
    var pair := TokenPair(access, refresh, 30 * 86400);
    RefreshDelay(m.(tokens := Some(pair), tokenExpiresAt := 2_592_000_000), pair);
  }

  /** A refresh is under way when the manager is stopped, and its answer arms the next one. */
  lemma StopDuringRefresh(access: string, refresh: string)
    ensures var pair := TokenPair(access, refresh, 600);
            var end := Run(Started(Fresh(300, 3, 0), pair), [Tick(300_000), Fire(0), Stop, Answer(Some(pair))]);
            end.Some? && end.value.armed == map[1 := 600_000]
  {
    var pair := TokenPair(access, refresh, 600);
    var es := [Tick(300_000), Fire(0), Stop, Answer(Some(pair))];
    var s0 := Started(Fresh(300, 3, 0), pair);
    assert s0.armed == map[0 := 300_000];
    var s1 := Step(s0, es[0]);
    var s2 := Step(s1, es[1]);
    assert s2.armed == map[] && s2.inFlight == [refresh];
    var s3 := Step(s2, es[2]);
    var s4 := Step(s3, es[3]);
    assert s3.armed == map[] && s4.armed == map[1 := 600_000];
    assert Run(s3, [es[3]]) == Run(s4, [es[3]][1..]);
    assert es[1..][1..] == es[2..] && es[2..][1..] == [es[3]];
    assert Run(s2, es[2..]) == Run(s3, es[2..][1..]);
    assert Run(s1, es[1..]) == Run(s2, es[1..][1..]);
  }
}
