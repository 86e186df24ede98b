/** At-most-once execution of plugins: the journal of the execution handler under concurrent requests and cleanups. */
module ExecutionJournal {
  import opened Text
  import opened JsonCodec

  const JOURNAL_TTL_MS := 5 * 60 * 1000

  datatype Entry =
    | Started(startedAt: nat)
    | Completed(startedAt: nat, result: Option<Json>, error: Option<string>)

  /** How a plugin body came out. */
  datatype Outcome = Success(result: Json) | Failure(message: string)

  /** A request that holds the journal entry of `id`: still resolving, or with its plugin body running. */
  datatype Active = Active(id: string, plugin: string, startedAt: nat, running: bool)

  datatype Begun = Begun(id: string, plugin: string, startedAt: nat)

  /**
   * The journal and the clock; the requests under way, by ticket; and as history the bodies begun, how the latest body
   * of each id came out, and the ids of requests that failed before their body.
   */
  datatype State = State(
    allowed: set<string>, entries: map<string, Entry>, now: nat,
    active: map<nat, Active>, next: nat,
    begun: seq<Begun>, outcomes: map<string, Outcome>, failed: set<string>)

  function Initial(allowed: set<string>, now: nat): State
  {
    State(allowed, map[], now, map[], 0, [], map[], {})
  }

  datatype Reply =
    | Returned(result: Option<Json>)
    | Rejected(message: string)
    | Accepted(ticket: nat)

  /** What an entry answers a later request with the same id; an empty error counts as no error. */
  function Replay(id: string, entry: Entry): Reply
  {
    match entry
    case Started(_) => Rejected("Execution " + id + " already in progress")
    case Completed(_, result, error) =>
      if error.Some? && error.value != "" then Rejected(error.value) else Returned(result)
  }

  predicate Permitted(s: State, plugin: string)
  {
    s.allowed == {} || plugin in s.allowed
  }

  function ReplyTo(s: State, id: string, plugin: string): Reply
  {
    if id in s.entries then Replay(id, s.entries[id])
    else if !Permitted(s, plugin) then Rejected("Plugin not allowed: " + plugin)
    else Accepted(s.next)
  }

  function Arrived(s: State, id: string, plugin: string): State
  {
    if ReplyTo(s, id, plugin).Accepted? then
      s.(entries := s.entries[id := Started(s.now)],
         active := s.active[s.next := Active(id, plugin, s.now, false)], next := s.next + 1)
    else s
  }

  function CompletedBy(startedAt: nat, o: Outcome): Entry
  {
    match o
    case Success(result) => Completed(startedAt, Some(result), None)
    case Failure(message) => Completed(startedAt, None, Some(message))
  }

  /** The body of a request comes back. If its entry were gone, reading its start time would throw and write nothing. */
  function Ended(s: State, ticket: nat, o: Outcome): State
    requires ticket in s.active
  {
    var id := s.active[ticket].id;
    var t := s.(active := s.active - {ticket}, outcomes := s.outcomes[id := o]);
    if id in s.entries then t.(entries := s.entries[id := CompletedBy(s.entries[id].startedAt, o)]) else t
  }

  predicate Expired(now: int, entry: Entry)
  {
    entry.Completed? && now - entry.startedAt > JOURNAL_TTL_MS
  }

  function CleanedUp(s: State): State
  {
    s.(entries := map id | id in s.entries && !Expired(s.now, s.entries[id]) :: s.entries[id])
  }

  datatype Event =
    | Arrive(id: string, plugin: string)
    | Resolve(ticket: nat)
    | ResolveFails(ticket: nat)
    | End(ticket: nat, outcome: Outcome)
    | Cleanup
    | Tick(ms: nat)

  predicate Possible(s: State, e: Event)
  {
    match e
    case Resolve(ticket) => ticket in s.active && !s.active[ticket].running
    case ResolveFails(ticket) => ticket in s.active && !s.active[ticket].running
    case End(ticket, _) => ticket in s.active && s.active[ticket].running
    case _ => true
  }

  function Step(s: State, e: Event): State
    requires Possible(s, e)
  {
    match e
    case Arrive(id, plugin) => Arrived(s, id, plugin)
    case Resolve(ticket) =>
      var a := s.active[ticket];
      s.(active := s.active[ticket := a.(running := true)], begun := s.begun + [Begun(a.id, a.plugin, a.startedAt)])
    case ResolveFails(ticket) => s.(active := s.active - {ticket}, failed := s.failed + {s.active[ticket].id})
    case End(ticket, o) => Ended(s, ticket, o)
    case Cleanup => CleanedUp(s)
    case Tick(ms) => s.(now := s.now + ms)
  }

  function Run(s: State, es: seq<Event>): Option<State>
    decreases |es|
  {
    if es == [] then Some(s) else if Possible(s, es[0]) then Run(Step(s, es[0]), es[1..]) else None
  }

  // ----- The handler as the source has it -----

  class ExecutionHandler {
    const allowedPlugins: set<string>
    var journal: map<string, Entry>
    // The clock, the requests suspended in `execute`, and history
    var now: nat
    var active: map<nat, Active>
    var next: nat
    var begun: seq<Begun>
    var outcomes: map<string, Outcome>
    var failed: set<string>

    ghost function Value(): State
      reads this
    {
      State(allowedPlugins, journal, now, active, next, begun, outcomes, failed)
    }

    constructor (allowedPlugins: set<string>, now: nat)
      ensures Value() == Initial(allowedPlugins, now)
    {
      this.allowedPlugins := allowedPlugins;
      journal, this.now, active, next, begun, outcomes, failed := map[], now, map[], 0, [], map[], {};
    }

    /** `execute` up to its first await. */
    method Execute(id: string, plugin: string) returns (reply: Reply)
      modifies this
      ensures reply == ReplyTo(old(Value()), id, plugin)
      ensures Value() == Arrived(old(Value()), id, plugin)
    {
      if id in journal {
        var existing := journal[id];
        if existing.Completed? {
          if existing.error.Some? && existing.error.value != "" {
            return Rejected(existing.error.value);
          }
          return Returned(existing.result);
        }
        return Rejected("Execution " + id + " already in progress");
      }
      ghost var before := journal;
      journal := journal[id := Started(now)];
      if allowedPlugins != {} {
        if plugin !in allowedPlugins {
          journal := journal - {id};
          assert journal == before;
          return Rejected("Plugin not allowed: " + plugin);
        }
      }
      active := active[next := Active(id, plugin, now, false)];
      next := next + 1;
      return Accepted(next - 1);
    }

    /** Plugin resolved and proxy created: the body begins. */
    method OnResolved(ticket: nat)
      requires Possible(Value(), Resolve(ticket))
      modifies this
      ensures Value() == Step(old(Value()), Resolve(ticket))
    {
      var a := active[ticket];
      active := active[ticket := a.(running := true)];
      begun := begun + [Begun(a.id, a.plugin, a.startedAt)];
    }

    /** Resolution or proxy creation throws, outside the try block. */
    method OnResolveFailed(ticket: nat)
      requires Possible(Value(), ResolveFails(ticket))
      modifies this
      ensures Value() == Step(old(Value()), ResolveFails(ticket))
    {
      failed := failed + {active[ticket].id};
      active := active - {ticket};
    }

    method OnBodyEnd(ticket: nat, o: Outcome)
      requires Possible(Value(), End(ticket, o))
      modifies this
      ensures Value() == Step(old(Value()), End(ticket, o))
    {
      var id := active[ticket].id;
      active := active - {ticket};
      outcomes := outcomes[id := o];
      if id in journal {
        match o
        case Success(result) => journal := journal[id := Completed(journal[id].startedAt, Some(result), None)];
        case Failure(message) => journal := journal[id := Completed(journal[id].startedAt, None, Some(message))];
      }
    }

    method CleanupJournal()
      modifies this
      ensures Value() == Step(old(Value()), Cleanup)
    {
      var todo := journal.Keys;
      while todo != {}
        invariant Value() == old(Value()).(entries := journal)
        invariant todo <= journal.Keys <= old(journal).Keys
        invariant forall id :: id in journal ==> journal[id] == old(journal)[id]
        invariant forall id :: id in old(journal) && id !in todo ==>
                    (id in journal <==> !Expired(now, old(journal)[id]))
        decreases todo
      {
        var id :| id in todo;
        var entry := journal[id];
        if entry.Completed? && now - entry.startedAt > JOURNAL_TTL_MS {
          journal := journal - {id};
        }
        todo := todo - {id};
      }
    }
  }

  // ----- What every run keeps -----

  /** A request under way holds its id: the entry is there, started, and its own. */
  ghost predicate HoldsId(s: State)
  {
    && (forall t :: t in s.active ==>
          t < s.next && s.active[t].id in s.entries && s.entries[s.active[t].id] == Started(s.active[t].startedAt))
    && (forall t, u :: t in s.active && u in s.active && s.active[t].id == s.active[u].id ==> t == u)
    && (forall id :: id in s.entries ==> s.entries[id].startedAt <= s.now)
  }

  /** A body that began long enough ago not to matter for the entry its id has now. */
  predicate Past(s: State, b: Begun)
  {
    && s.now - b.startedAt > JOURNAL_TTL_MS
    && (b.id in s.entries ==> s.entries[b.id].startedAt - b.startedAt > JOURNAL_TTL_MS)
  }

  predicate Present(s: State, b: Begun)
  {
    b.id in s.entries && s.entries[b.id].startedAt == b.startedAt
  }

  ghost predicate FarApart(begun: seq<Begun>)
  {
    forall i, j :: 0 <= i < j < |begun| && begun[i].id == begun[j].id ==>
      begun[j].startedAt - begun[i].startedAt > JOURNAL_TTL_MS
  }

  ghost predicate BodiesApart(s: State)
  {
    && FarApart(s.begun)
    && (forall i :: 0 <= i < |s.begun| ==> Past(s, s.begun[i]) || Present(s, s.begun[i]))
    && (forall t, i ::
          t in s.active && !s.active[t].running && 0 <= i < |s.begun| && s.begun[i].id == s.active[t].id ==>
          Past(s, s.begun[i]))
  }

  /** Completed entries tell how the latest body of their id came out. */
  ghost predicate EntriesTell(s: State)
  {
    forall id :: id in s.entries && s.entries[id].Completed? ==>
      id in s.outcomes && s.entries[id] == CompletedBy(s.entries[id].startedAt, s.outcomes[id])
  }

  /** An id is blocked: its entry says started, but no request is under way that could complete it. */
  ghost predicate Blocked(s: State, id: string)
  {
    id in s.entries && s.entries[id].Started? && forall t :: t in s.active ==> s.active[t].id != id
  }

  ghost predicate FailuresBlock(s: State)
  {
    forall id :: id in s.failed <==> Blocked(s, id)
  }

  ghost predicate Inv(s: State)
  {
    HoldsId(s) && BodiesApart(s) && EntriesTell(s)
  }

  lemma StepHoldsId(s: State, e: Event)
    requires HoldsId(s) && Possible(s, e)
    ensures HoldsId(Step(s, e))
  {
  }

  lemma ResolveApart(s: State, ticket: nat)
    requires HoldsId(s) && BodiesApart(s) && Possible(s, Resolve(ticket))
    ensures BodiesApart(Step(s, Resolve(ticket)))
  {
    var t, a := Step(s, Resolve(ticket)), s.active[ticket];
    forall i | 0 <= i < |t.begun| ensures Past(t, t.begun[i]) || Present(t, t.begun[i]) {
      if i < |s.begun| {
        assert Past(s, s.begun[i]) || Present(s, s.begun[i]);
      }
    }
    forall i | 0 <= i < |s.begun| && s.begun[i].id == a.id
      ensures a.startedAt - s.begun[i].startedAt > JOURNAL_TTL_MS
    {
      assert Past(s, s.begun[i]);
    }
    forall u, i | u in t.active && !t.active[u].running && 0 <= i < |t.begun| && t.begun[i].id == t.active[u].id
      ensures Past(t, t.begun[i])
    {
      assert u != ticket && u in s.active && s.active[u].id != a.id;
      assert Past(s, s.begun[i]);
    }
  }

  /** Steps that begin no body keep bodies apart if entries only vanish once they have expired. */
  lemma OthersApart(s: State, t: State)
    requires BodiesApart(s) && t.begun == s.begun && t.now >= s.now
    requires forall id :: id in t.entries && id in s.entries ==> t.entries[id].startedAt == s.entries[id].startedAt
    requires forall id :: id in t.entries && id !in s.entries ==> t.entries[id].startedAt == t.now
    requires forall id :: id in s.entries && id !in t.entries ==> t.now - s.entries[id].startedAt > JOURNAL_TTL_MS
    requires forall u :: u in t.active && !t.active[u].running ==>
               || (u in s.active && t.active[u] == s.active[u])
               || (t.active[u].id !in s.entries)
    ensures BodiesApart(t)
  {
    forall i | 0 <= i < |t.begun|
      ensures Past(s, t.begun[i]) ==> Past(t, t.begun[i])
      ensures Past(t, t.begun[i]) || Present(t, t.begun[i])
    {
      assert Past(s, s.begun[i]) || Present(s, s.begun[i]);
    }
  }

  lemma StepApart(s: State, e: Event)
    requires HoldsId(s) && BodiesApart(s) && Possible(s, e)
    ensures BodiesApart(Step(s, e))
  {
    match e
    case Resolve(ticket) => ResolveApart(s, ticket);
    case _ => OthersApart(s, Step(s, e));
  }

  lemma StepTells(s: State, e: Event)
    requires HoldsId(s) && EntriesTell(s) && Possible(s, e)
    ensures EntriesTell(Step(s, e))
  {
  }

  /** No request with this id is under way. */
  ghost predicate Idle(s: State, id: string)
  {
    forall t :: t in s.active ==> s.active[t].id != id
  }

  lemma ArriveBlocks(s: State, i: string, plugin: string, id: string)
    requires HoldsId(s)
    ensures Blocked(Arrived(s, i, plugin), id) <==> Blocked(s, id)
  {
    var t := Arrived(s, i, plugin);
    if ReplyTo(s, i, plugin).Accepted? {
      assert forall u :: u in s.active ==> u in t.active && t.active[u] == s.active[u];
      assert s.next in t.active && t.active[s.next].id == i;
    }
  }

  lemma ResolveBlocks(s: State, ticket: nat, id: string)
    requires Possible(s, Resolve(ticket))
    ensures Blocked(Step(s, Resolve(ticket)), id) <==> Blocked(s, id)
  {
    var t := Step(s, Resolve(ticket));
    assert forall u :: u in s.active <==> u in t.active;
    assert forall u :: u in s.active ==> t.active[u].id == s.active[u].id;
  }

  /** A request leaves the table. */
  lemma LeaveBlocks(s: State, ticket: nat, t: State, id: string)
    requires HoldsId(s) && ticket in s.active && t.active == s.active - {ticket}
    ensures s.active[ticket].id != id ==> (Idle(t, id) <==> Idle(s, id))
    ensures s.active[ticket].id == id ==> Idle(t, id) && !Idle(s, id) && id in s.entries && s.entries[id].Started?
  {
    assert forall u :: u in t.active <==> u in s.active && u != ticket;
  }

  lemma StepFailuresBlock(s: State, e: Event)
    requires HoldsId(s) && FailuresBlock(s) && Possible(s, e)
    ensures FailuresBlock(Step(s, e))
  {
    hide HoldsId;
    var t := Step(s, e);
    forall id ensures id in t.failed <==> Blocked(t, id) {
      assert id in s.failed <==> Blocked(s, id);
      assert Blocked(s, id) <==> id in s.entries && s.entries[id].Started? && Idle(s, id);
      assert Blocked(t, id) <==> id in t.entries && t.entries[id].Started? && Idle(t, id);
      match e {
        case Arrive(i, plugin) => ArriveBlocks(s, i, plugin, id);
        case Resolve(ticket) => ResolveBlocks(s, ticket, id);
        case ResolveFails(ticket) => LeaveBlocks(s, ticket, t, id);
        case End(ticket, o) => LeaveBlocks(s, ticket, t, id);
        case _ =>
      }
    }
  }

  lemma {:induction false} RunInv(s: State, es: seq<Event>)
    requires Inv(s) && FailuresBlock(s) && Run(s, es).Some?
    ensures Inv(Run(s, es).value) && FailuresBlock(Run(s, es).value)
    decreases |es|
  {
    if es == [] {
    } else {
      StepHoldsId(s, es[0]);
      StepApart(s, es[0]);
      StepTells(s, es[0]);
      StepFailuresBlock(s, es[0]);
      RunInv(Step(s, es[0]), es[1..]);
    }
  }

  // ----- Main results -----

  /**
   * At most once, over all interleavings of requests, completions and cleanups: two bodies with the same id never run
   * at the same time and their requests began more than five minutes apart; the entry of a request under way is always
   * there and says started.
   */
  lemma AtMostOnce(allowed: set<string>, now: nat, es: seq<Event>)
    requires Run(Initial(allowed, now), es).Some?
    ensures var s := Run(Initial(allowed, now), es).value;
            && (forall t, u :: t in s.active && u in s.active && s.active[t].id == s.active[u].id ==> t == u)
            && FarApart(s.begun)
            && (forall t :: t in s.active ==>
                  s.active[t].id in s.entries && s.entries[s.active[t].id] == Started(s.active[t].startedAt))
  {
    RunInv(Initial(allowed, now), es);
  }

  /** The allowlist lets the plugin run; an empty one lets all. */
  predicate OnList(allowed: set<string>, plugin: string)
  {
    allowed == {} || plugin in allowed
  }

  /** Every request under way, and every body begun, is for a plugin on the list. */
  ghost predicate OnlyListed(s: State)
  {
    && (forall t :: t in s.active ==> OnList(s.allowed, s.active[t].plugin))
    && (forall b :: b in s.begun ==> OnList(s.allowed, b.plugin))
  }

  /** What is new after a step or a run was asked for. */
  ghost predicate Asked(s: State, t: State, es: seq<Event>)
  {
    && (forall u :: u in t.active ==>
          || (u in s.active && t.active[u].id == s.active[u].id && t.active[u].plugin == s.active[u].plugin)
          || Arrive(t.active[u].id, t.active[u].plugin) in es)
    && (forall b :: b in t.begun && b !in s.begun ==>
          || (exists u :: u in s.active && b.id == s.active[u].id && b.plugin == s.active[u].plugin)
          || Arrive(b.id, b.plugin) in es)
  }

  lemma StepAsks(s: State, e: Event)
    requires OnlyListed(s) && Possible(s, e)
    ensures OnlyListed(Step(s, e)) && Step(s, e).allowed == s.allowed && Asked(s, Step(s, e), [e])
  {
    if e.Resolve? {
      assert e.ticket in s.active;
    }
  }

  lemma {:induction false} RunAsks(s: State, es: seq<Event>)
    requires OnlyListed(s) && Run(s, es).Some?
    ensures var t := Run(s, es).value;
            OnlyListed(t) && t.allowed == s.allowed && Asked(s, t, es)
    decreases |es|
  {
    if es == [] {
    } else {
      hide OnlyListed, Step;
      var n := Step(s, es[0]);
      StepAsks(s, es[0]);
      RunAsks(n, es[1..]);
      assert forall e :: e in es <==> e == es[0] || e in es[1..];
    }
  }

  /**
   * The allowlist holds over all interleavings: every body that ever begins, and every request under way, is for a
   * plugin on the list (for any plugin if the list is empty), and was asked for with that id and plugin.
   */
  lemma OnlyAllowedRun(allowed: set<string>, now: nat, es: seq<Event>)
    requires Run(Initial(allowed, now), es).Some?
    ensures var s := Run(Initial(allowed, now), es).value;
            && (forall b :: b in s.begun ==> (allowed == {} || b.plugin in allowed) && Arrive(b.id, b.plugin) in es)
            && (forall t :: t in s.active ==>
                  && (allowed == {} || s.active[t].plugin in allowed)
                  && Arrive(s.active[t].id, s.active[t].plugin) in es)
  {
    RunAsks(Initial(allowed, now), es);
  }

  /**
   * A request whose id has no entry is accepted if and only if its plugin is on the list: then exactly its own entry
   * and request are new, and otherwise it is told so and nothing changes.
   */
  lemma AcceptedIffListed(s: State, id: string, plugin: string)
    requires HoldsId(s) && id !in s.entries
    ensures var t := Step(s, Arrive(id, plugin));
            if s.allowed == {} || plugin in s.allowed then
              && ReplyTo(s, id, plugin) == Accepted(s.next) && s.next !in s.active
              && t == s.(entries := s.entries[id := Started(s.now)], next := s.next + 1,
                         active := s.active[s.next := Active(id, plugin, s.now, false)])
            else ReplyTo(s, id, plugin) == Rejected("Plugin not allowed: " + plugin) && t == s
  {
  }

  /** What the caller whose request ran the body was told. */
  function FirstReply(o: Outcome): Reply
  {
    match o
    case Success(result) => Returned(Some(result))
    case Failure(message) => Rejected(message)
  }

  /**
   * A duplicate of a completed request runs nothing and changes nothing, and it is answered like the request that ran
   * the body, unless that failed with an empty message: then, and only then, the duplicate is told it succeeded.
   */
  lemma DuplicateReplays(allowed: set<string>, now: nat, es: seq<Event>, id: string, plugin: string)
    requires Run(Initial(allowed, now), es).Some?
    requires var s := Run(Initial(allowed, now), es).value; id in s.entries && s.entries[id].Completed?
    ensures var s := Run(Initial(allowed, now), es).value;
            && Step(s, Arrive(id, plugin)) == s
            && id in s.outcomes
            && (ReplyTo(s, id, plugin) == FirstReply(s.outcomes[id]) <==> s.outcomes[id] != Failure(""))
            && (s.outcomes[id] == Failure("") ==> ReplyTo(s, id, plugin) == Returned(None))
  {
    RunInv(Initial(allowed, now), es);
  }

  /** A body fails with an empty message; the request is answered with that error, its duplicate with success. */
  lemma EmptyMessageReplaysAsSuccess() returns (es: seq<Event>)
    ensures Run(Initial({}, 0), es).Some?
    ensures var s := Run(Initial({}, 0), es).value;
            && "a" in s.outcomes && FirstReply(s.outcomes["a"]) == Rejected("")
            && ReplyTo(s, "a", "p") == Returned(None)
  {
    es := [Arrive("a", "p"), Resolve(0), End(0, Failure(""))];
    var s1 := Step(Initial({}, 0), es[0]);
    var s2 := Step(s1, es[1]);
    var s3 := Step(s2, es[2]);
    assert Run(s2, es[2..]) == Run(s3, es[2..][1..]);
    assert Run(s1, es[1..]) == Run(s2, es[1..][1..]) && es[1..][1..] == es[2..];
  }

  /** The plugin of a request cannot be resolved: nothing runs any more, and the id is blocked. */
  lemma FailedResolutionBlocks() returns (es: seq<Event>)
    ensures Run(Initial({}, 0), es).Some?
    ensures var s := Run(Initial({}, 0), es).value;
            Blocked(s, "a") && s.active == map[] && s.begun == []
            && ReplyTo(s, "a", "p") == Rejected("Execution a already in progress")
  {
    es := [Arrive("a", "p"), ResolveFails(0)];
    var s1 := Step(Initial({}, 0), es[0]);
    var s2 := Step(s1, es[1]);
    assert Run(s1, es[1..]) == Run(s2, es[1..][1..]);
    assert "Execution " + "a" + " already in progress" == "Execution a already in progress";
  }

  /** A blocked id stays blocked for good: no request with it is ever accepted again. */
  lemma {:induction false} BlockedForGood(s: State, es: seq<Event>, id: string, plugin: string)
    requires HoldsId(s) && Blocked(s, id) && Run(s, es).Some?
    ensures var t := Run(s, es).value;
            && Blocked(t, id) && !ReplyTo(t, id, plugin).Accepted?
            && (forall i :: |s.begun| <= i < |t.begun| ==> t.begun[i].id != id)
            && |s.begun| <= |t.begun| && t.begun[..|s.begun|] == s.begun
    decreases |es|
  {
    if es == [] {
    } else {
      StepHoldsId(s, es[0]);
      BlockedStep(s, es[0], id);
      BlockedForGood(Step(s, es[0]), es[1..], id, plugin);
    }
  }

  lemma BlockedStep(s: State, e: Event, id: string)
    requires HoldsId(s) && Blocked(s, id) && Possible(s, e)
    ensures Blocked(Step(s, e), id)
    ensures var t := Step(s, e);
            && (|| t.begun == s.begun
                || (|t.begun| == |s.begun| + 1 && t.begun[..|s.begun|] == s.begun && Last(t.begun).id != id))
  {
  }

  /** In every run an id is blocked exactly when a request with it failed before its body, outside the try block. */
  lemma BlockedIffFailedEarly(allowed: set<string>, now: nat, es: seq<Event>, id: string)
    requires Run(Initial(allowed, now), es).Some?
    ensures var s := Run(Initial(allowed, now), es).value;
            Blocked(s, id) <==> id in s.failed
  {
    RunInv(Initial(allowed, now), es);
  }

  /** Five minutes is exact: after a completed execution a cleanup later than that frees the id, and no earlier one. */
  lemma FreeAfterCleanupIff(s: State, id: string, plugin: string)
    requires id in s.entries && Permitted(s, plugin)
    ensures ReplyTo(Step(s, Cleanup), id, plugin).Accepted?
       <==> s.entries[id].Completed? && s.now - s.entries[id].startedAt > 300_000
  {
  }
}
