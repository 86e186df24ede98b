/**
 * The IPC client: a table of pending requests, and one suspended generator per `execute` call that turns pushed
 * messages into pulled events.
 */
module AgentClient {
  import opened Text
  import opened JsonCodec

  /** Where the body of an `execute` generator stands. */
  datatype Phase =
    | AtYield                        // gave out an event, not asked for the next one yet
    | Awaiting(signalled: bool)      // awaits its wakeup promise, which `notify` may have resolved already
    | Returned
    | Threw(message: string)

  /** The local variables of one `execute` call, and the events its consumer has been given. */
  datatype Stream = Stream(
    command: string, queue: seq<Json>, done: bool, error: Option<string>, phase: Phase, yielded: seq<Json>)

  datatype Answer = Resolved(value: Json) | Rejected(message: string)

  /**
   * `executes` and `statuses` are the pending table (status requests in insertion order), `timers` the requests whose
   * timer is armed, `answers` the settled status promises, `sent` what the transport was given, oldest first.
   */
  datatype Client = Client(
    executes: set<string>, statuses: seq<string>, timers: set<string>,
    streams: map<string, Stream>, answers: map<string, Answer>, sent: seq<Json>, closed: bool)

  const NEW := Client({}, [], {}, map[], map[], [], false)

  // ----- Outgoing messages -----

  function ExecuteFrame(id: string, command: string, params: Json): Json
  {
    Obj(map["type" := Str("execute"), "requestId" := Str(id), "command" := Str(command), "params" := params])
  }

  function StatusFrame(id: string): Json
  {
    Obj(map["type" := Str("status"), "requestId" := Str(id)])
  }

  /** The two requests, field by field. */
  lemma RequestFramesAre(id: string, command: string, params: Json)
    ensures var m := ExecuteFrame(id, command, params);
            && m.fields.Keys == {"type", "requestId", "command", "params"} && Field(m, "params") == Some(params)
            && IsText(m, "type", "execute") && IsText(m, "requestId", id) && IsText(m, "command", command)
    ensures var m := StatusFrame(id);
            m.fields.Keys == {"type", "requestId"} && IsText(m, "type", "status") && IsText(m, "requestId", id)
  {
  }

  // ----- Incoming messages -----

  datatype Route =
    | StatusReply
    | ToEvent(id: string, data: Json)
    | ToDone(id: string, result: Json)
    | ToError(id: string, message: string)
    | Unrouted

  /** Which pending request a message is for, and what it says. An absent payload counts as `Null`. */
  function RouteOf(m: Json): Route
  {
    if HasType(m, "status") then StatusReply
    else
      match Field(m, "requestId")
      case Some(Str(id)) =>
        if id == "" then Unrouted
        else if HasType(m, "event") then ToEvent(id, Payload(m, "data"))
        else if HasType(m, "done") then ToDone(id, Payload(m, "result"))
        else if HasType(m, "error") then ToError(id, ErrorText(m))
        else Unrouted
      case _ => Unrouted
  }

  function Payload(m: Json, key: string): Json
  {
    match Field(m, key) case Some(v) => v case None => Null
  }

  function ErrorText(m: Json): string
  {
    match Field(m, "message") case Some(Str(text)) => text case _ => "Unknown error"
  }

  /** Which messages go where, and what they bring: a status message needs no id, all others need a nonempty one. */
  lemma RoutesIff(m: Json, id: string)
    ensures RouteOf(m) == StatusReply <==> IsText(m, "type", "status")
    ensures forall data ::
              RouteOf(m) == ToEvent(id, data)
              <==> && id != "" && IsText(m, "requestId", id) && IsText(m, "type", "event")
                   && data == if "data" in m.fields then m.fields["data"] else Null
    ensures forall result ::
              RouteOf(m) == ToDone(id, result)
              <==> && id != "" && IsText(m, "requestId", id) && IsText(m, "type", "done")
                   && result == if "result" in m.fields then m.fields["result"] else Null
    ensures forall text ::
              RouteOf(m) == ToError(id, text)
              <==> && id != "" && IsText(m, "requestId", id) && IsText(m, "type", "error")
                   && (IsText(m, "message", text)
                       || (text == "Unknown error" && forall t :: !IsText(m, "message", t)))
  {
    forall text
      ensures RouteOf(m) == ToError(id, text)
         <==> && id != "" && IsText(m, "requestId", id) && IsText(m, "type", "error")
              && (IsText(m, "message", text) || (text == "Unknown error" && forall t :: !IsText(m, "message", t)))
    {
      match Field(m, "message")
      case Some(Str(t)) => assert IsText(m, "message", t);
      case _ =>
    }
  }

  /** A message that brings nothing, or is for a request that is not pending, changes nothing at all. */
  lemma StrangersIgnored(c: Client, m: Json)
    requires !IsText(m, "type", "status")
    requires forall id :: id != "" && IsText(m, "requestId", id) ==> id !in c.executes && id !in c.statuses
    ensures Receive(c, m) == c
  {
    RoutesIff(m, "");
    if m.Obj? && "requestId" in m.fields && m.fields["requestId"].Str? {
      assert IsText(m, "requestId", m.fields["requestId"].text);
    }
  }

  // ----- One generator -----

  function Notified(p: Phase): Phase
  {
    if p.Awaiting? then Awaiting(true) else p
  }

  function Push(s: Stream, item: Json): Stream
  {
    s.(queue := s.queue + [item], phase := Notified(s.phase))
  }

  /** `resolve` (no error) or `reject` of the pending entry. */
  function Finish(s: Stream, error: Option<string>): Stream
  {
    s.(done := true, error := if error.Some? then error else s.error, phase := Notified(s.phase))
  }

  /** The generator runs on from the head of its loop to its next suspension or its end. */
  function Advance(s: Stream): Stream
  {
    if s.queue != [] then s.(queue := s.queue[1..], yielded := s.yielded + [s.queue[0]], phase := AtYield)
    else if !s.done then s.(phase := Awaiting(false))
    else match s.error
      case Some(message) => s.(phase := Threw(message))
      case None => s.(phase := Returned)
  }

  predicate CanAdvance(s: Stream)
  {
    s.phase == AtYield || s.phase == Awaiting(true)
  }

  // ----- Steps of the client -----

  datatype Event =
    | Execute(id: string, command: string, params: Json)
    | Status(id: string)
    | Message(m: Json)
    | Timeout(id: string)
    | Consume(id: string)     // the consumer asks for the next event, or the resolved wakeup runs
    | Close

  predicate Legal(c: Client, e: Event)
  {
    match e
    case Execute(id, _, _) => id != "" && id !in c.streams && id !in c.statuses && id !in c.answers
    case Status(id) => id != "" && id !in c.streams && id !in c.statuses && id !in c.answers
    case Message(_) => true
    case Timeout(id) => id in c.timers
    case Consume(id) => id in c.streams && CanAdvance(c.streams[id])
    case Close => true
  }

  function Update(c: Client, id: string, s: Stream): Client
  {
    c.(streams := c.streams[id := s])
  }

  function Without(ids: seq<string>, id: string): seq<string>
  {
    if ids == [] then [] else if ids[0] == id then ids[1..] else [ids[0]] + Without(ids[1..], id)
  }

  function BeginExecute(c: Client, id: string, command: string, params: Json): Client
  {
    c.(executes := c.executes + {id}, timers := c.timers + {id}, sent := c.sent + [ExecuteFrame(id, command, params)],
       streams := c.streams[id := Advance(Stream(command, [], false, None, AtYield, []))])
  }

  /** A terminal message takes the request out of the table and settles it. */
  function Settle(c: Client, id: string, answer: Answer): (d: Client)
    ensures d.sent == c.sent && d.closed == c.closed
  {
    if id in c.executes && id in c.streams then
      var error := if answer.Rejected? then Some(answer.message) else None;
      Update(c, id, Finish(c.streams[id], error)).(executes := c.executes - {id}, timers := c.timers - {id})
    else if id in c.statuses then
      c.(statuses := Without(c.statuses, id), timers := c.timers - {id}, answers := c.answers[id := answer])
    else c
  }

  function Receive(c: Client, m: Json): (d: Client)
    ensures d.sent == c.sent && d.closed == c.closed
  {
    match RouteOf(m)
    case StatusReply => if c.statuses == [] then c else Settle(c, c.statuses[0], Resolved(m))
    case ToEvent(id, data) =>
      if id in c.executes && id in c.streams then Update(c, id, Push(c.streams[id], data)) else c
    case ToDone(id, result) => Settle(c, id, Resolved(result))
    case ToError(id, message) => Settle(c, id, Rejected(message))
    case Unrouted => c
  }

  /** The timer of an execute call ends its generator but leaves its entry in the table. */
  function Expire(c: Client, id: string): Client
  {
    if id in c.streams then
      var s := c.streams[id];
      Update(c, id, Finish(s, Some("execute '" + s.command + "' timed out"))).(timers := c.timers - {id})
    else
      c.(timers := c.timers - {id}, statuses := Without(c.statuses, id),
         answers := c.answers[id := Rejected("status request timed out")])
  }

  const CLOSED := "HostAgentClient closed"

  function Shut(c: Client): Client
  {
    Client({}, [], c.timers - c.executes - (set id | id in c.statuses),
           map id | id in c.streams ::
             if id in c.executes then Finish(c.streams[id], Some(CLOSED)) else c.streams[id],
           map id | id in c.answers.Keys + (set i | i in c.statuses) ::
             if id in c.statuses then Rejected(CLOSED) else c.answers[id],
           c.sent, true)
  }

  function Step(c: Client, e: Event): Client
    requires Legal(c, e)
  {
    match e
    case Execute(id, command, params) => BeginExecute(c, id, command, params)
    case Status(id) => c.(statuses := c.statuses + [id], timers := c.timers + {id}, sent := c.sent + [StatusFrame(id)])
    case Message(m) => Receive(c, m)
    case Timeout(id) => Expire(c, id)
    case Consume(id) => Update(c, id, Advance(c.streams[id]))
    case Close => Shut(c)
  }

  /** `None` when some event of the run was not possible at its place. */
  function Run(c: Client, es: seq<Event>): Option<Client>
    decreases |es|
  {
    if es == [] then Some(c) else if Legal(c, es[0]) then Run(Step(c, es[0]), es[1..]) else None
  }

  // ----- The client as the source has it -----

  /** The part of `close` that rejects the execute requests of the table. */
  method RejectStreams(ids: set<string>, streams: map<string, Stream>) returns (rejected: map<string, Stream>)
    ensures rejected == map id | id in streams :: if id in ids then Finish(streams[id], Some(CLOSED)) else streams[id]
  {
    rejected := streams;
    var todo := ids;
    while todo != {}
      invariant todo <= ids
      invariant rejected == map id | id in streams ::
                              if id in ids && id !in todo then Finish(streams[id], Some(CLOSED)) else streams[id]
      decreases todo
    {
      var id :| id in todo;
      if id in rejected {
        var s := rejected[id].(error := Some(CLOSED), done := true);
        rejected := rejected[id := if s.phase.Awaiting? then s.(phase := Awaiting(true)) else s];
      }
      todo := todo - {id};
    }
  }

  /** The part of `close` that rejects the status requests. */
  method RejectStatuses(ids: seq<string>, answers: map<string, Answer>) returns (rejected: map<string, Answer>)
    ensures rejected == map id | id in answers.Keys + (set i | i in ids) ::
                          if id in ids then Rejected(CLOSED) else answers[id]
  {
    rejected := answers;
    for i := 0 to |ids|
      invariant rejected == map id | id in answers.Keys + (set k | k in ids[..i]) ::
                              if id in ids[..i] then Rejected(CLOSED) else answers[id]
    {
      assert ids[..i + 1] == ids[..i] + [ids[i]];
      rejected := rejected[ids[i] := Rejected(CLOSED)];
    }
    assert ids[..|ids|] == ids;
  }

  class HostAgentClient {
    var executes: set<string>
    var statuses: seq<string>
    var timers: set<string>
    var streams: map<string, Stream>
    var answers: map<string, Answer>
    var sent: seq<Json>
    var closed: bool

    ghost function Value(): Client
      reads this
    {
      Client(executes, statuses, timers, streams, answers, sent, closed)
    }

    constructor ()
      ensures Value() == NEW
    {
      executes, statuses, timers, streams, answers := {}, [], {}, map[], map[];
      sent, closed := [], false;
    }

    /** First `next()` of `execute`: registers the request, sends it, then waits. */
    method BeginExecution(id: string, command: string, params: Json)
      requires Legal(Value(), Execute(id, command, params))
      modifies this
      ensures Value() == Step(old(Value()), Execute(id, command, params))
    {
      timers := timers + {id};
      executes := executes + {id};
      sent := sent + [ExecuteFrame(id, command, params)];
      streams := streams[id := Stream(command, [], false, None, AtYield, [])];
      streams := streams[id := Advance(streams[id])];
    }

    method BeginStatus(id: string)
      requires Legal(Value(), Status(id))
      modifies this
      ensures Value() == Step(old(Value()), Status(id))
    {
      timers := timers + {id};
      statuses := statuses + [id];
      sent := sent + [StatusFrame(id)];
    }

    method SettleRequest(id: string, answer: Answer)
      modifies this
      ensures Value() == Settle(old(Value()), id, answer)
    {
      if id in executes && id in streams {
        timers := timers - {id};
        executes := executes - {id};
        var s := streams[id];
        if answer.Rejected? {
          s := s.(error := Some(answer.message));
        }
        s := s.(done := true);
        if s.phase.Awaiting? {
          s := s.(phase := Awaiting(true));
        }
        streams := streams[id := s];
      } else if id in statuses {
        timers := timers - {id};
        statuses := Without(statuses, id);
        answers := answers[id := answer];
      }
    }

    method HandleMessage(m: Json)
      modifies this
      ensures Value() == Step(old(Value()), Message(m))
    {
      match RouteOf(m)
      case StatusReply =>
        if statuses != [] {
          SettleRequest(statuses[0], Resolved(m));
        }
      case ToEvent(id, data) =>
        if id in executes && id in streams {
          var s := streams[id];
          s := s.(queue := s.queue + [data]);
          if s.phase.Awaiting? {
            s := s.(phase := Awaiting(true));
          }
          streams := streams[id := s];
        }
      case ToDone(id, result) => SettleRequest(id, Resolved(result));
      case ToError(id, message) => SettleRequest(id, Rejected(message));
      case Unrouted =>
    }

    method OnTimeout(id: string)
      requires Legal(Value(), Timeout(id))
      modifies this
      ensures Value() == Step(old(Value()), Timeout(id))
    {
      timers := timers - {id};
      if id in streams {
        var s := streams[id];
        s := s.(error := Some("execute '" + s.command + "' timed out"), done := true);
        if s.phase.Awaiting? {
          s := s.(phase := Awaiting(true));
        }
        streams := streams[id := s];
      } else {
        statuses := Without(statuses, id);
        answers := answers[id := Rejected("status request timed out")];
      }
    }

    method Shutdown()
      modifies this
      ensures Value() == Step(old(Value()), Close)
    {
      timers := timers - executes - (set id | id in statuses);
      streams := RejectStreams(executes, streams);
      answers := RejectStatuses(statuses, answers);
      executes, statuses, closed := {}, [], true;
    }

    /** The generator body between two suspensions. */
    method Next(id: string)
      requires Legal(Value(), Consume(id))
      modifies this
      ensures Value() == Step(old(Value()), Consume(id))
    {
      var s := streams[id];
      if !s.done || |s.queue| > 0 {
        if |s.queue| > 0 {
          s := s.(yielded := s.yielded + [s.queue[0]], queue := s.queue[1..], phase := AtYield);
        } else {
          s := s.(phase := Awaiting(false));
        }
      } else if s.error.Some? {
        s := s.(phase := Threw(s.error.value));
      } else {
        s := s.(phase := Returned);
      }
      streams := streams[id := s];
    }
  }

  // ----- What the consumer is owed, read off the history alone -----

  /**
   * The payloads of the event messages that arrived for `id` while it was listening: after its `execute` (or from the
   * start, if `listening`) and before its first terminal message or a close.
   */
  function Received(id: string, listening: bool, es: seq<Event>): seq<Json>
    decreases |es|
  {
    if es == [] then []
    else
      var rest := es[1..];
      match es[0]
      case Execute(i, _, _) => Received(id, listening || i == id, rest)
      case Close => Received(id, false, rest)
      case Message(m) =>
        if !listening then Received(id, false, rest)
        else
          (match RouteOf(m)
          case ToEvent(i, data) => (if i == id then [data] else []) + Received(id, true, rest)
          case ToDone(i, _) => Received(id, i != id, rest)
          case ToError(i, _) => Received(id, i != id, rest)
          case _ => Received(id, true, rest))
      case _ => Received(id, listening, rest)
  }

  function Events(c: Client, id: string): seq<Json>
  {
    if id in c.streams then c.streams[id].yielded + c.streams[id].queue else []
  }

  /** No lost wakeup, an ended generator left nothing behind, and a normal end means no error was set. */
  predicate StreamOk(s: Stream)
  {
    && (s.phase == Awaiting(false) ==> s.queue == [] && !s.done)
    && (s.phase == Returned ==> s.queue == [] && s.done && s.error == None)
    && (s.phase.Threw? ==> s.done && s.error.Some?)
    && (s.error.Some? ==> s.done)
  }

  ghost predicate Inv(c: Client)
  {
    && (forall id :: id in c.streams ==> StreamOk(c.streams[id]) && id != "")
    && (forall id :: id in c.executes ==> id in c.streams)
    && (forall id :: id in c.streams && !c.streams[id].done ==> id in c.executes && id in c.timers)
    && (forall id :: id in c.executes && id in c.streams && c.streams[id].done ==> c.streams[id].error.Some?)
    && (forall id :: id in c.timers ==> (id in c.executes && !c.streams[id].done) || id in c.statuses)
    && (forall id :: id in c.statuses ==> id !in c.streams)
  }

  lemma WithoutMembers(ids: seq<string>, id: string)
    ensures forall x :: x in Without(ids, id) ==> x in ids
    ensures forall x :: x in ids && x != id ==> x in Without(ids, id)
  {
  }

  lemma SettleInv(c: Client, id: string, answer: Answer)
    requires Inv(c)
    ensures Inv(Settle(c, id, answer))
  {
    WithoutMembers(c.statuses, id);
  }

  lemma PushInv(c: Client, id: string, data: Json)
    requires Inv(c) && id in c.executes
    ensures Inv(Update(c, id, Push(c.streams[id], data)))
  {
  }

  lemma AdvanceInv(c: Client, id: string)
    requires Inv(c) && Legal(c, Consume(id))
    ensures Inv(Update(c, id, Advance(c.streams[id])))
  {
  }

  lemma BeginInv(c: Client, id: string, command: string, params: Json)
    requires Inv(c) && Legal(c, Execute(id, command, params))
    ensures Inv(BeginExecute(c, id, command, params))
  {
  }

  lemma ExpireInv(c: Client, id: string)
    requires Inv(c) && id in c.timers
    ensures Inv(Expire(c, id))
  {
    WithoutMembers(c.statuses, id);
  }

  lemma ShutInv(c: Client)
    requires Inv(c)
    ensures Inv(Shut(c))
  {
    var d := Shut(c);
    forall id | id in d.streams
      ensures StreamOk(d.streams[id]) && id != "" && (!d.streams[id].done ==> id in d.executes && id in d.timers)
    {
      assert StreamOk(c.streams[id]);
    }
  }

  /**
   * Closing ends everything at once: nothing is pending, no timer is armed, the transport is closed, every status call
   * is answered, and every generator that was still pending fails with the same error.
   */
  lemma CloseEndsAll(c: Client)
    requires Inv(c)
    ensures var d := Step(c, Close);
            && d.closed && d.executes == {} && d.statuses == [] && d.timers == {} && d.sent == c.sent
            && (forall id :: id in c.statuses ==>
                  id in d.answers && d.answers[id] == Rejected("HostAgentClient closed"))
            && (forall id :: id in c.streams ==>
                  && id in d.streams && d.streams[id].done
                  && (!c.streams[id].done ==> d.streams[id].error == Some("HostAgentClient closed"))
                  && d.streams[id].phase != Awaiting(false))
  {
    var d := Step(c, Close);
    forall id | id in c.streams ensures d.streams[id].phase != Awaiting(false) {
      assert StreamOk(c.streams[id]);
    }
    assert forall id :: id in c.timers ==> id in c.executes || id in c.statuses;
  }

  lemma StepInv(c: Client, e: Event)
    requires Inv(c) && Legal(c, e)
    ensures Inv(Step(c, e))
  {
    match e
    case Execute(id, command, params) => BeginInv(c, id, command, params);
    case Status(id) =>
    case Message(m) =>
      match RouteOf(m) {
        case StatusReply => if c.statuses != [] { SettleInv(c, c.statuses[0], Resolved(m)); }
        case ToEvent(id, data) => if id in c.executes { PushInv(c, id, data); }
        case ToDone(id, result) => SettleInv(c, id, Resolved(result));
        case ToError(id, message) => SettleInv(c, id, Rejected(message));
        case Unrouted =>
      }
    case Timeout(id) => ExpireInv(c, id);
    case Consume(id) => AdvanceInv(c, id);
    case Close => ShutInv(c);
  }

  lemma PushEvents(c: Client, i: string, data: Json, id: string)
    requires i in c.streams
    ensures Events(Update(c, i, Push(c.streams[i], data)), id) == Events(c, id) + if i == id then [data] else []
  {
    var s := c.streams[i];
    assert s.yielded + (s.queue + [data]) == s.yielded + s.queue + [data];
    assert Events(c, id) + [] == Events(c, id);
  }

  lemma AdvanceEvents(c: Client, i: string, id: string)
    requires i in c.streams
    ensures Events(Update(c, i, Advance(c.streams[i])), id) == Events(c, id)
  {
    var s := c.streams[i];
    if s.queue != [] {
      assert s.yielded + [s.queue[0]] + s.queue[1..] == s.yielded + s.queue;
    }
  }

  lemma BeginEvents(c: Client, i: string, command: string, params: Json, id: string)
    requires i !in c.streams
    ensures Events(BeginExecute(c, i, command, params), id) == Events(c, id)
  {
  }

  lemma SettleEvents(c: Client, i: string, a: Answer, id: string)
    requires Inv(c)
    ensures Events(Settle(c, i, a), id) == Events(c, id)
    ensures id in Settle(c, i, a).executes <==> id in c.executes && id != i
  {
  }

  lemma ExpireEvents(c: Client, i: string, id: string)
    ensures Events(Expire(c, i), id) == Events(c, id)
  {
  }

  lemma ShutEvents(c: Client, id: string)
    ensures Events(Shut(c), id) == Events(c, id)
  {
  }

  lemma MessageEvents(c: Client, m: Json, rest: seq<Event>, id: string)
    requires Inv(c)
    ensures Events(c, id) + Received(id, id in c.executes, [Message(m)] + rest)
         == Events(Receive(c, m), id) + Received(id, id in Receive(c, m).executes, rest)
  {
    hide Inv, RouteOf, Events;
    assert ([Message(m)] + rest)[1..] == rest;
    match RouteOf(m)
    case StatusReply => if c.statuses != [] { StatusReplyEvents(c, m, id); }
    case ToEvent(i, data) =>
      assert i in c.executes ==> i in c.streams by { ExecutesHaveStreams(c); }
      if i in c.executes {
        PushEvents(c, i, data, id);
      }
      assert Events(c, id) + ([data] + Received(id, true, rest)) == Events(c, id) + [data] + Received(id, true, rest);
      assert [] + Received(id, true, rest) == Received(id, true, rest);
      assert Events(c, id) + [] == Events(c, id);
    case ToDone(i, result) => SettleEvents(c, i, Resolved(result), id);
    case ToError(i, message) => SettleEvents(c, i, Rejected(message), id);
    case Unrouted =>
  }

  lemma ExecutesHaveStreams(c: Client)
    requires Inv(c)
    ensures forall id :: id in c.executes ==> id in c.streams
  {
  }

  lemma StatusReplyEvents(c: Client, m: Json, id: string)
    requires Inv(c) && c.statuses != []
    ensures var n := Settle(c, c.statuses[0], Resolved(m));
            Events(n, id) == Events(c, id) && (id in n.executes <==> id in c.executes)
  {
    assert c.statuses[0] in c.statuses;
    SettleEvents(c, c.statuses[0], Resolved(m), id);
  }

  /** One step moves exactly the owed payloads into the stream of each id, in order, and into no other stream. */
  lemma StepEvents(c: Client, e: Event, rest: seq<Event>, id: string)
    requires Inv(c) && Legal(c, e)
    ensures Events(c, id) + Received(id, id in c.executes, [e] + rest)
         == Events(Step(c, e), id) + Received(id, id in Step(c, e).executes, rest)
  {
    hide Inv;
    assert ([e] + rest)[1..] == rest;
    match e
    case Execute(i, command, params) => BeginEvents(c, i, command, params, id);
    case Status(_) =>
    case Message(m) => MessageEvents(c, m, rest, id);
    case Timeout(i) => ExpireEvents(c, i, id);
    case Consume(i) => AdvanceEvents(c, i, id);
    case Close => ShutEvents(c, id);
  }

  /** In every run, events given out followed by events queued are the events received, for every request at once. */
  lemma {:induction false} QueueCorrect(c: Client, es: seq<Event>, id: string)
    requires Inv(c) && Run(c, es).Some?
    ensures var end := Run(c, es).value;
            && Inv(end)
            && Events(end, id) == Events(c, id) + Received(id, id in c.executes, es)
    decreases |es|
  {
    if es == [] {
    } else {
      StepInv(c, es[0]);
      StepEvents(c, es[0], es[1..], id);
      assert [es[0]] + es[1..] == es;
      QueueCorrect(Step(c, es[0]), es[1..], id);
    }
  }

  // ----- How a stream ends, read off the history alone -----

  /** `Pending`, or settled for good or ill. Only a later error replaces an earlier verdict. */
  datatype Verdict = Pending | Good | Bad(message: string)

  function VerdictOf(s: Stream): Verdict
  {
    if !s.done then Pending else match s.error case None => Good case Some(message) => Bad(message)
  }

  function Ending(id: string, command: string, listening: bool, v: Verdict, es: seq<Event>): Verdict
    decreases |es|
  {
    if es == [] then v
    else
      var rest := es[1..];
      match es[0]
      case Timeout(i) =>
        Ending(id, command, listening, if i == id then Bad("execute '" + command + "' timed out") else v, rest)
      case Close => Ending(id, command, false, if listening then Bad("HostAgentClient closed") else v, rest)
      case Message(m) =>
        (match RouteOf(m)
        case ToDone(i, _) =>
          if listening && i == id then Ending(id, command, false, if v == Pending then Good else v, rest)
          else Ending(id, command, listening, v, rest)
        case ToError(i, message) =>
          if listening && i == id then Ending(id, command, false, Bad(message), rest)
          else Ending(id, command, listening, v, rest)
        case _ => Ending(id, command, listening, v, rest))
      case _ => Ending(id, command, listening, v, rest)
  }

  lemma SettleEnding(c: Client, i: string, a: Answer, id: string)
    requires Inv(c) && id in c.streams
    ensures var d := Settle(c, i, a);
            && id in d.streams && d.streams[id].command == c.streams[id].command
            && (id in d.executes <==> id in c.executes && id != i)
            && VerdictOf(d.streams[id])
               == if id == i && id in c.executes then Settled(VerdictOf(c.streams[id]), a) else VerdictOf(c.streams[id])
  {
  }

  /** A good answer settles what is still pending, a bad one replaces the verdict. */
  function Settled(v: Verdict, a: Answer): Verdict
  {
    match a
    case Resolved(_) => if v == Pending then Good else v
    case Rejected(message) => Bad(message)
  }

  lemma MessageEnding(c: Client, m: Json, rest: seq<Event>, id: string)
    requires Inv(c) && id in c.streams
    ensures var d := Receive(c, m);
            && id in d.streams && d.streams[id].command == c.streams[id].command
            && Ending(id, c.streams[id].command, id in c.executes, VerdictOf(c.streams[id]), [Message(m)] + rest)
               == Ending(id, c.streams[id].command, id in d.executes, VerdictOf(d.streams[id]), rest)
  {
    hide Inv, RouteOf, VerdictOf, Settle;
    assert ([Message(m)] + rest)[1..] == rest;
    match RouteOf(m)
    case StatusReply => if c.statuses != [] { StatusReplyEnding(c, m, id); }
    case ToEvent(i, data) => PushEnding(c, i, data, id);
    case ToDone(i, result) => SettleEnding(c, i, Resolved(result), id);
    case ToError(i, message) => SettleEnding(c, i, Rejected(message), id);
    case Unrouted =>
  }

  lemma StatusReplyEnding(c: Client, m: Json, id: string)
    requires Inv(c) && id in c.streams && c.statuses != []
    ensures var d := Settle(c, c.statuses[0], Resolved(m));
            && id in d.streams && d.streams[id] == c.streams[id] && (id in d.executes <==> id in c.executes)
  {
    assert c.statuses[0] in c.statuses;
  }

  lemma PushEnding(c: Client, i: string, data: Json, id: string)
    requires id in c.streams
    ensures i in c.executes && i in c.streams ==>
              var d := Update(c, i, Push(c.streams[i], data));
              && id in d.streams && d.streams[id].command == c.streams[id].command
              && VerdictOf(d.streams[id]) == VerdictOf(c.streams[id]) && d.executes == c.executes
  {
  }

  lemma ExpireEnding(c: Client, i: string, id: string)
    requires Inv(c) && id in c.streams && i in c.timers
    ensures var d := Expire(c, i);
            && id in d.streams && d.streams[id].command == c.streams[id].command && d.executes == c.executes
            && VerdictOf(d.streams[id])
               == if i == id then Bad("execute '" + c.streams[id].command + "' timed out") else VerdictOf(c.streams[id])
  {
  }

  lemma ShutEnding(c: Client, id: string)
    requires Inv(c) && id in c.streams
    ensures var d := Shut(c);
            && id in d.streams && d.streams[id].command == c.streams[id].command && id !in d.executes
            && VerdictOf(d.streams[id]) == if id in c.executes then Bad(CLOSED) else VerdictOf(c.streams[id])
  {
  }

  lemma LocalEnding(c: Client, e: Event, id: string)
    requires Inv(c) && id in c.streams && Legal(c, e) && (e.Execute? || e.Status? || e.Consume?)
    ensures var d := Step(c, e);
            && id in d.streams && d.streams[id].command == c.streams[id].command
            && (id in d.executes <==> id in c.executes)
            && VerdictOf(d.streams[id]) == VerdictOf(c.streams[id])
  {
  }

  lemma StepEnding(c: Client, e: Event, rest: seq<Event>, id: string)
    requires Inv(c) && Legal(c, e) && id in c.streams
    ensures id in Step(c, e).streams && Step(c, e).streams[id].command == c.streams[id].command
    ensures var s, t := c.streams[id], Step(c, e).streams[id];
            Ending(id, s.command, id in c.executes, VerdictOf(s), [e] + rest)
            == Ending(id, s.command, id in Step(c, e).executes, VerdictOf(t), rest)
  {
    hide Inv, VerdictOf, RouteOf;
    assert ([e] + rest)[1..] == rest;
    match e
    case Message(m) => MessageEnding(c, m, rest, id);
    case Timeout(i) => ExpireEnding(c, i, id);
    case Close => ShutEnding(c, id);
    case _ => LocalEnding(c, e, id);
  }

  lemma {:induction false} EndingCorrect(c: Client, es: seq<Event>, id: string)
    requires Inv(c) && Run(c, es).Some? && id in c.streams
    ensures var end := Run(c, es).value;
            && id in end.streams
            && VerdictOf(end.streams[id])
               == Ending(id, c.streams[id].command, id in c.executes, VerdictOf(c.streams[id]), es)
    decreases |es|
  {
    if es == [] {
    } else {
      StepInv(c, es[0]);
      StepEnding(c, es[0], es[1..], id);
      assert [es[0]] + es[1..] == es;
      EndingCorrect(Step(c, es[0]), es[1..], id);
    }
  }

  /** A generator stands where it stood, apart from its queue and its wakeup. */
  predicate StandsAlike(c: Client, d: Client, id: string)
  {
    && id in c.streams && id in d.streams
    && (d.streams[id].phase.Threw? <==> c.streams[id].phase.Threw?)
    && d.streams[id].yielded == c.streams[id].yielded
  }

  lemma SettleStands(c: Client, i: string, a: Answer, id: string)
    requires id in c.streams
    ensures StandsAlike(c, Settle(c, i, a), id)
  {
  }

  lemma PushStands(c: Client, i: string, data: Json, id: string)
    requires id in c.streams && i in c.streams
    ensures StandsAlike(c, Update(c, i, Push(c.streams[i], data)), id)
  {
  }

  lemma ReceiveStands(c: Client, m: Json, id: string)
    requires id in c.streams
    ensures StandsAlike(c, Receive(c, m), id)
  {
    hide RouteOf, Settle;
    match RouteOf(m)
    case StatusReply => if c.statuses != [] { SettleStands(c, c.statuses[0], Resolved(m), id); }
    case ToEvent(i, data) => if i in c.streams { PushStands(c, i, data, id); }
    case ToDone(i, result) => SettleStands(c, i, Resolved(result), id);
    case ToError(i, message) => SettleStands(c, i, Rejected(message), id);
    case Unrouted =>
  }

  lemma ExpireStands(c: Client, i: string, id: string)
    requires id in c.streams
    ensures StandsAlike(c, Expire(c, i), id)
  {
  }

  lemma ShutStands(c: Client, id: string)
    requires id in c.streams
    ensures StandsAlike(c, Shut(c), id)
  {
  }

  /** Nothing but its own pulls moves a generator. */
  lemma StepStands(c: Client, e: Event, id: string)
    requires Legal(c, e) && id in c.streams && e != Consume(id)
    ensures StandsAlike(c, Step(c, e), id)
  {
    hide Receive, Expire, Shut;
    match e
    case Message(m) => ReceiveStands(c, m, id);
    case Timeout(i) => ExpireStands(c, i, id);
    case Close => ShutStands(c, id);
    case _ =>
  }

  /** A generator throws only by a pull of its own, with an empty queue. */
  lemma StepThrows(c: Client, e: Event, id: string)
    requires Legal(c, e) && id in c.streams && !c.streams[id].phase.Threw?
    requires id in Step(c, e).streams && Step(c, e).streams[id].phase.Threw?
    ensures e == Consume(id) && c.streams[id].queue == [] && Step(c, e).streams[id].yielded == c.streams[id].yielded
  {
    if e != Consume(id) {
      hide Step;
      StepStands(c, e, id);
    }
  }

  lemma StepEnded(c: Client, e: Event, id: string)
    requires Legal(c, e) && id in c.streams && c.streams[id].phase.Threw?
    ensures id in Step(c, e).streams && Step(c, e).streams[id].phase.Threw?
    ensures Step(c, e).streams[id].yielded == c.streams[id].yielded
  {
    hide Step;
    StepStands(c, e, id);
  }

  lemma {:induction false} RunEnded(c: Client, es: seq<Event>, id: string)
    requires Inv(c) && Run(c, es).Some? && id in c.streams && c.streams[id].phase.Threw?
    ensures var end := Run(c, es).value;
            id in end.streams && end.streams[id].phase.Threw? && end.streams[id].yielded == c.streams[id].yielded
    decreases |es|
  {
    hide Inv, Step, Legal;
    if es == [] {
    } else {
      StepInv(c, es[0]);
      StepEnded(c, es[0], id);
      RunEnded(Step(c, es[0]), es[1..], id);
    }
  }

  /** When a generator has thrown, everything received up to that pull had been given out. */
  lemma {:induction false} ThrowMoment(c: Client, es: seq<Event>, id: string) returns (k: nat)
    requires Inv(c) && Run(c, es).Some? && id in c.streams && !c.streams[id].phase.Threw?
    requires id in Run(c, es).value.streams && Run(c, es).value.streams[id].phase.Threw?
    ensures 0 < k <= |es| && es[k - 1] == Consume(id)
    ensures Run(c, es).value.streams[id].yielded == Events(c, id) + Received(id, id in c.executes, es[..k])
    decreases |es|
  {
    hide Inv, Step, Legal, Received, Events;
    var n := Step(c, es[0]);
    assert es == [es[0]] + es[1..];
    StepInv(c, es[0]);
    StepEnding(c, es[0], es[1..], id);
    if n.streams[id].phase.Threw? {
      k := 1;
      StepThrows(c, es[0], id);
      RunEnded(n, es[1..], id);
      assert es[..1] == [es[0]];
      NothingReceived(c, id, es[0]);
    } else {
      var j := ThrowMoment(n, es[1..], id);
      k := j + 1;
      StepEvents(c, es[0], es[1..][..j], id);
      assert es[..k] == [es[0]] + es[1..][..j];
    }
  }

  lemma NothingReceived(c: Client, id: string, e: Event)
    requires e == Consume(id) && id in c.streams && c.streams[id].queue == []
    ensures Events(c, id) + Received(id, id in c.executes, [e]) == c.streams[id].yielded
  {
    assert [e][1..] == [];
  }

  /** What `GeneratorCorrect` says of a stream at the end of a run, given what the run delivered for it. */
  ghost predicate Correct(s: Stream, received: seq<Json>, v: Verdict)
  {
    && s.yielded + s.queue == received
    && VerdictOf(s) == v
    && (s.phase == Awaiting(false) ==> s.yielded == received && v == Pending)
    && (s.phase == Returned ==> s.yielded == received && v == Good)
    && (s.phase.Threw? ==> v.Bad?)
  }

  /**
   * The generator of `execute`, begun at any time beside any other requests, under every interleaving of messages,
   * timeouts, closes and pulls of all of them: what it gave out is an initial part of what was received for it; if it
   * sleeps unsignalled it gave out everything and is not settled; it returns only after giving out everything received
   * before it was settled without an error; and when it threw, it had given out everything received by then.
   */
  lemma GeneratorCorrect(c: Client, id: string, command: string, params: Json, es: seq<Event>)
    requires Inv(c) && Legal(c, Execute(id, command, params)) && Run(Step(c, Execute(id, command, params)), es).Some?
    ensures var end := Run(Step(c, Execute(id, command, params)), es).value;
            && id in end.streams
            && Correct(end.streams[id], Received(id, true, es), Ending(id, command, true, Pending, es))
            && (end.streams[id].phase.Threw? ==>
                  exists k :: 0 < k <= |es| && es[k - 1] == Consume(id)
                              && end.streams[id].yielded == Received(id, true, es[..k]))
  {
    var d := Step(c, Execute(id, command, params));
    BegunStream(c, id, command, params);
    QueueCorrect(d, es, id);
    EndingCorrect(d, es, id);
    var s := Run(d, es).value.streams[id];
    assert [] + Received(id, true, es) == Received(id, true, es);
    assert s.queue == [] ==> s.yielded + s.queue == s.yielded;
    if s.phase.Threw? {
      var k := ThrowMoment(d, es, id);
      assert [] + Received(id, true, es[..k]) == Received(id, true, es[..k]);
      assert es[k - 1] == Consume(id);
    }
  }

  lemma BegunStream(c: Client, id: string, command: string, params: Json)
    requires Inv(c) && Legal(c, Execute(id, command, params))
    ensures var d := Step(c, Execute(id, command, params));
            && Inv(d) && id in d.executes && id in d.streams
            && d.streams[id] == Stream(command, [], false, None, Awaiting(false), []) && Events(d, id) == []
  {
    StepInv(c, Execute(id, command, params));
  }

  /** A consumer that keeps pulling, with nothing new arriving. */
  function Drain(s: Stream, pulls: nat): Stream
    decreases pulls
  {
    if pulls == 0 || !CanAdvance(s) then s else Drain(Advance(s), pulls - 1)
  }

  /** Pulling cannot go on for ever: it comes to rest with everything given out, and settled streams have ended. */
  lemma {:induction false} DrainComesToRest(s: Stream, pulls: nat)
    requires CanAdvance(s) && pulls >= |s.queue| + 1
    ensures var r := Drain(s, pulls);
            && !CanAdvance(r)
            && r.queue == [] && r.yielded == s.yielded + s.queue
            && r.phase == match VerdictOf(s)
                          case Pending => Awaiting(false)
                          case Good => Returned
                          case Bad(message) => Threw(message)
    decreases pulls
  {
    var t := Advance(s);
    if s.queue == [] {
      assert Drain(t, pulls - 1) == t;
    } else {
      DrainComesToRest(t, pulls - 1);
      assert t.yielded + t.queue == s.yielded + s.queue;
    }
  }

  // ----- What is sent -----

  /** The frame of the request an event makes, if it makes one. */
  function Request(e: Event): seq<Json>
  {
    match e
    case Execute(id, command, params) => [ExecuteFrame(id, command, params)]
    case Status(id) => [StatusFrame(id)]
    case _ => []
  }

  function Requests(es: seq<Event>): seq<Json>
  {
    if es == [] then [] else Request(es[0]) + Requests(es[1..])
  }

  lemma StepSends(c: Client, e: Event)
    requires Legal(c, e)
    ensures Step(c, e).sent == c.sent + Request(e)
  {
    hide Receive, ExecuteFrame, StatusFrame;
    assert c.sent + [] == c.sent;
  }

  /** Every run sends one frame for each request it makes, in the order of the requests, and nothing else. */
  lemma {:induction false} SentInOrder(c: Client, es: seq<Event>)
    requires Run(c, es).Some?
    ensures Run(c, es).value.sent == c.sent + Requests(es)
    decreases |es|
  {
    hide Step, Legal, Request;
    if es == [] {
      assert c.sent + [] == c.sent;
    } else {
      StepSends(c, es[0]);
      SentInOrder(Step(c, es[0]), es[1..]);
      Regroup(c.sent, Request(es[0]), Requests(es[1..]));
    }
  }

  // ----- Status requests -----

  /** No status request waits twice, or waits without a timer, or waits with an answer. */
  ghost predicate StatusesWait(c: Client)
  {
    && (forall i, j :: 0 <= i < j < |c.statuses| ==> c.statuses[i] != c.statuses[j])
    && (forall id :: id in c.statuses ==> id in c.timers && id !in c.answers)
  }

  /** What one event answers a waiting status request: a status message goes to whoever has waited longest. */
  function AnswerFor(c: Client, e: Event, id: string): Option<Answer>
  {
    match e
    case Message(m) =>
      (match RouteOf(m)
      case StatusReply => if c.statuses != [] && c.statuses[0] == id then Some(Resolved(m)) else None
      case ToDone(i, result) => if i == id then Some(Resolved(result)) else None
      case ToError(i, message) => if i == id then Some(Rejected(message)) else None
      case _ => None)
    case Timeout(i) => if i == id then Some(Rejected("status request timed out")) else None
    case Close => Some(Rejected("HostAgentClient closed"))
    case _ => None
  }

  lemma {:induction false} WithoutOnce(ids: seq<string>, id: string)
    requires forall i, j :: 0 <= i < j < |ids| ==> ids[i] != ids[j]
    ensures id !in Without(ids, id)
    ensures forall x :: x != id ==> (x in Without(ids, id) <==> x in ids)
    ensures var r := Without(ids, id); forall i, j :: 0 <= i < j < |r| ==> r[i] != r[j]
  {
    if ids != [] && ids[0] != id {
      WithoutOnce(ids[1..], id);
      var r := Without(ids[1..], id);
      forall j | 0 <= j < |r| ensures r[j] != ids[0] {
        assert r[j] in r && r[j] in ids[1..];
      }
    } else if ids != [] {
      assert forall x :: x in ids <==> x == ids[0] || x in ids[1..];
    }
  }

  /** What an event should leave of one status request. */
  ghost predicate StatusAfter(c: Client, answer: Option<Answer>, n: Client, id: string)
  {
    && (id in c.answers ==> id in n.answers && n.answers[id] == c.answers[id])
    && (id in c.statuses ==>
          match answer
          case Some(a) => id !in n.statuses && id !in n.timers && id in n.answers && n.answers[id] == a
          case None => id in n.statuses && id !in n.answers)
  }

  lemma StatusSettles(c: Client, i: string, a: Answer, id: string)
    requires Inv(c) && StatusesWait(c)
    ensures StatusesWait(Settle(c, i, a))
    ensures StatusAfter(c, if i == id then Some(a) else None, Settle(c, i, a), id)
  {
    hide Finish;
    if i in c.executes {
      assert i !in c.statuses;
    } else {
      WithoutOnce(c.statuses, i);
    }
  }

  lemma StatusExpires(c: Client, i: string, id: string)
    requires Inv(c) && StatusesWait(c) && i in c.timers
    ensures StatusesWait(Expire(c, i))
    ensures StatusAfter(c, AnswerFor(c, Timeout(i), id), Expire(c, i), id)
  {
    hide Finish;
    if i in c.streams {
      assert i !in c.statuses;
    } else {
      WithoutOnce(c.statuses, i);
    }
  }

  lemma StatusBegins(c: Client, e: Event, id: string)
    requires Inv(c) && StatusesWait(c) && Legal(c, e) && (e.Execute? || e.Status? || e.Consume? || e.Close?)
    ensures StatusesWait(Step(c, e)) && StatusAfter(c, AnswerFor(c, e, id), Step(c, e), id)
  {
  }

  lemma StepStatuses(c: Client, e: Event, id: string)
    requires Inv(c) && StatusesWait(c) && Legal(c, e)
    ensures StatusesWait(Step(c, e)) && StatusAfter(c, AnswerFor(c, e, id), Step(c, e), id)
  {
    hide Inv;
    match e
    case Message(m) =>
      match RouteOf(m) {
        case StatusReply => if c.statuses != [] { StatusSettles(c, c.statuses[0], Resolved(m), id); }
        case ToDone(i, result) => StatusSettles(c, i, Resolved(result), id);
        case ToError(i, message) => StatusSettles(c, i, Rejected(message), id);
        case _ =>
      }
    case Timeout(i) => StatusExpires(c, i, id);
    case _ => StatusBegins(c, e, id);
  }

  function FirstAnswer(c: Client, es: seq<Event>, id: string): Option<Answer>
    requires Run(c, es).Some?
    decreases |es|
  {
    if es == [] then None
    else match AnswerFor(c, es[0], id)
      case Some(a) => Some(a)
      case None => FirstAnswer(Step(c, es[0]), es[1..], id)
  }

  lemma {:induction false} AnswersStay(c: Client, es: seq<Event>, id: string)
    requires Inv(c) && StatusesWait(c) && Run(c, es).Some? && id in c.answers
    ensures id in Run(c, es).value.answers && Run(c, es).value.answers[id] == c.answers[id]
    ensures id !in Run(c, es).value.statuses
    decreases |es|
  {
    if es == [] {
    } else {
      StepInv(c, es[0]);
      StepStatuses(c, es[0], id);
      AnswersStay(Step(c, es[0]), es[1..], id);
    }
  }

  /** In every run a status call is settled by its first answer, once and for all; without one it waits, timer armed. */
  lemma {:induction false} StatusHistory(c: Client, es: seq<Event>, id: string)
    requires Inv(c) && StatusesWait(c) && Run(c, es).Some? && id in c.statuses
    ensures var end := Run(c, es).value;
            match FirstAnswer(c, es, id)
            case Some(a) => id !in end.statuses && id in end.answers && end.answers[id] == a
            case None => id in end.statuses && id in end.timers && id !in end.answers
    decreases |es|
  {
    if es == [] {
    } else {
      StepInv(c, es[0]);
      StepStatuses(c, es[0], id);
      if AnswerFor(c, es[0], id) == None {
        StatusHistory(Step(c, es[0]), es[1..], id);
      } else {
        AnswersStay(Step(c, es[0]), es[1..], id);
      }
    }
  }
}
