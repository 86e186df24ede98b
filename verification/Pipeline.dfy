/**
 * The execute tunnel as a whole: Gateway response, HTTP reader, IPC server, NDJSON socket, framer, client table and
 * generator together hand a consumer the list of events of the response, whatever else the connection is used for.
 */
module Pipeline {
  import opened Text
  import opened JsonCodec
  import opened NdjsonFraming
  import opened HttpReading
  import opened IpcServing
  import opened AgentClient

  // ----- What the consumer should get -----

  /** Everything up to and including the first `execution:done`. */
  function UpToDone(events: seq<Json>): seq<Json>
  {
    if events == [] then []
    else if IsDone(events[0]) then [events[0]]
    else [events[0]] + UpToDone(events[1..])
  }

  predicate HasDone(events: seq<Json>)
  {
    exists e :: e in events && IsDone(e)
  }

  /** How the request should end once everything has arrived. */
  function Conclusion(events: seq<Json>, error: Option<string>): Verdict
  {
    if HasDone(events) then Good
    else match error case Some(message) => Bad(message) case None => Pending
  }

  // ----- The receiving end: socket chunks and all the client's own events in any order -----

  datatype Link = Link(framer: Framer, client: Client)

  datatype Move = Arrive(chunk: string) | Local(e: Event)

  function Deliveries(ms: seq<Json>): seq<Event>
  {
    if ms == [] then [] else [Message(ms[0])] + Deliveries(ms[1..])
  }

  function NewMessages(codec: Codec, f: Framer, chunk: string): seq<Json>
  {
    Messages(codec, Init(Split(f.buffer + chunk, '\n')))
  }

  /** The client events one move causes. */
  function Caused(codec: Codec, f: Framer, move: Move): seq<Event>
  {
    match move
    case Arrive(chunk) => Deliveries(NewMessages(codec, f, chunk))
    case Local(e) => [e]
  }

  function FramerAfter(codec: Codec, f: Framer, move: Move): Framer
  {
    if move.Arrive? then AfterFeed(codec, f, move.chunk) else f
  }

  /** `None` when the framer rejects a chunk or an event is not possible at its place. */
  function Play(codec: Codec, l: Link, moves: seq<Move>): Option<Link>
    decreases |moves|
  {
    if moves == [] then Some(l)
    else if moves[0].Arrive? && !Accepts(l.framer, moves[0].chunk) then None
    else
      match Run(l.client, Caused(codec, l.framer, moves[0]))
      case Some(client) => Play(codec, Link(FramerAfter(codec, l.framer, moves[0]), client), moves[1..])
      case None => None
  }

  function Chunks(moves: seq<Move>): seq<string>
  {
    if moves == [] then []
    else if moves[0].Arrive? then [moves[0].chunk] + Chunks(moves[1..])
    else Chunks(moves[1..])
  }

  /**
   * The request neither times out nor is closed, and messages come through the framer only. Everything else may happen:
   * other requests, their pulls and their timeouts.
   */
  predicate Undisturbed(id: string, moves: seq<Move>)
  {
    forall move :: move in moves && move.Local? ==> Harmless(id, move.e) && !move.e.Message?
  }

  predicate Harmless(id: string, e: Event)
  {
    e != Timeout(id) && !e.Close?
  }

  predicate Calm(id: string, es: seq<Event>)
  {
    forall e :: e in es ==> Harmless(id, e)
  }

  // ----- A play is a run of the client on the messages the framer delivers -----

  function MessagesOf(es: seq<Event>): seq<Json>
  {
    if es == [] then []
    else if es[0].Message? then [es[0].m] + MessagesOf(es[1..])
    else MessagesOf(es[1..])
  }

  lemma {:induction false} RunConcat(c: Client, a: seq<Event>, b: seq<Event>)
    requires Run(c, a).Some?
    ensures Run(c, a + b) == Run(Run(c, a).value, b)
    decreases |a|
  {
    hide Step, Legal;
    if a == [] {
      assert a + b == b;
    } else {
      RunConcat(Step(c, a[0]), a[1..], b);
      assert (a + b)[1..] == a[1..] + b;
    }
  }

  lemma {:induction false} MessagesOfConcat(a: seq<Event>, b: seq<Event>)
    ensures MessagesOf(a + b) == MessagesOf(a) + MessagesOf(b)
  {
    if a == [] {
      assert a + b == b;
    } else {
      MessagesOfConcat(a[1..], b);
      assert (a + b)[1..] == a[1..] + b;
      if a[0].Message? {
        Regroup([a[0].m], MessagesOf(a[1..]), MessagesOf(b));
      }
    }
  }

  lemma {:induction false} DeliveriesCarry(ms: seq<Json>)
    ensures MessagesOf(Deliveries(ms)) == ms
    ensures forall e :: e in Deliveries(ms) ==> e.Message?
  {
    if ms == [] {
    } else {
      DeliveriesCarry(ms[1..]);
      assert Deliveries(ms)[1..] == Deliveries(ms[1..]);
    }
  }

  lemma MoveCarries(codec: Codec, f: Framer, move: Move, id: string)
    requires move.Arrive? ==> Accepts(f, move.chunk)
    requires move.Local? ==> Harmless(id, move.e) && !move.e.Message?
    ensures Calm(id, Caused(codec, f, move))
    ensures FramerAfter(codec, f, move).delivered == f.delivered + MessagesOf(Caused(codec, f, move))
  {
    if move.Arrive? {
      hide Split, Messages;
      DeliveriesCarry(NewMessages(codec, f, move.chunk));
    } else {
      assert MessagesOf([move.e]) == [] && f.delivered + [] == f.delivered;
    }
  }

  lemma ChunksStep(codec: Codec, f: Framer, moves: seq<Move>)
    requires moves != [] && (moves[0].Arrive? ==> Accepts(f, moves[0].chunk))
    ensures FeedAll(codec, f, Chunks(moves)) == FeedAll(codec, FramerAfter(codec, f, moves[0]), Chunks(moves[1..]))
  {
    hide AfterFeed, Accepts;
    if moves[0].Arrive? {
      assert Chunks(moves)[1..] == Chunks(moves[1..]);
    }
  }

  lemma PlayStep(codec: Codec, l: Link, moves: seq<Move>)
    requires moves != [] && Play(codec, l, moves).Some?
    ensures moves[0].Arrive? ==> Accepts(l.framer, moves[0].chunk)
    ensures var client := Run(l.client, Caused(codec, l.framer, moves[0]));
            && client.Some?
            && Play(codec, l, moves)
               == Play(codec, Link(FramerAfter(codec, l.framer, moves[0]), client.value), moves[1..])
  {
    hide Run, Caused, FramerAfter, Accepts;
  }

  lemma {:induction false} PlayIsRun(codec: Codec, l: Link, moves: seq<Move>, id: string) returns (es: seq<Event>)
    requires Undisturbed(id, moves) && Play(codec, l, moves).Some?
    ensures var end := Play(codec, l, moves).value;
            && Run(l.client, es) == Some(end.client)
            && FeedAll(codec, l.framer, Chunks(moves)) == Some(end.framer)
            && end.framer.delivered == l.framer.delivered + MessagesOf(es)
    ensures Calm(id, es)
    decreases |moves|
  {
    hide Caused, FramerAfter, Accepts, Step, Legal, Harmless;
    if moves == [] {
      es := [];
      assert l.framer.delivered + [] == l.framer.delivered;
    } else {
      hide Play, Run, FeedAll, MessagesOf, Chunks;
      assert moves[0] in moves;
      PlayStep(codec, l, moves);
      var first := Caused(codec, l.framer, moves[0]);
      var framer := FramerAfter(codec, l.framer, moves[0]);
      var client := Run(l.client, first).value;
      var rest := PlayIsRun(codec, Link(framer, client), moves[1..], id);
      es := first + rest;
      RunConcat(l.client, first, rest);
      MessagesOfConcat(first, rest);
      MoveCarries(codec, l.framer, moves[0], id);
      ChunksStep(codec, l.framer, moves);
      Regroup(l.framer.delivered, MessagesOf(first), MessagesOf(rest));
    }
  }

  // ----- A settled request, in calm runs -----

  /** Settled requests are out of the table, and a generator that threw left nothing queued. */
  predicate Drained(c: Client, id: string)
  {
    id in c.streams ==>
      && (c.streams[id].done ==> id !in c.executes)
      && (c.streams[id].phase.Threw? ==> c.streams[id].queue == [])
  }

  lemma FreshRequest(c: Client, id: string, command: string, params: Json)
    requires Inv(c) && Legal(c, Execute(id, command, params))
    ensures var d := Step(c, Execute(id, command, params));
            Inv(d) && id in d.streams && id in d.executes && Drained(d, id)
  {
    hide Step;
    BegunStream(c, id, command, params);
  }

  lemma LocalDrains(c: Client, e: Event, id: string)
    requires Inv(c) && Drained(c, id) && Legal(c, e) && (e.Execute? || e.Status? || e.Consume?)
    ensures Drained(Step(c, e), id)
  {
  }

  lemma ExpireDrains(c: Client, i: string, id: string)
    requires Inv(c) && Drained(c, id) && i != id
    ensures Drained(Expire(c, i), id)
  {
  }

  lemma SettleDrains(c: Client, i: string, answer: Answer, id: string)
    requires Inv(c) && Drained(c, id)
    ensures Drained(Settle(c, i, answer), id)
  {
  }

  lemma PushDrains(c: Client, i: string, data: Json, id: string)
    requires Inv(c) && Drained(c, id) && i in c.executes
    ensures Drained(Update(c, i, Push(c.streams[i], data)), id)
  {
  }

  lemma MessageDrains(c: Client, m: Json, id: string)
    requires Inv(c) && Drained(c, id)
    ensures Drained(Receive(c, m), id)
  {
    hide Inv, Drained, RouteOf;
    match RouteOf(m)
    case StatusReply => if c.statuses != [] { SettleDrains(c, c.statuses[0], Resolved(m), id); }
    case ToEvent(i, data) => if i in c.executes && i in c.streams { PushDrains(c, i, data, id); }
    case ToDone(i, result) => SettleDrains(c, i, Resolved(result), id);
    case ToError(i, message) => SettleDrains(c, i, Rejected(message), id);
    case Unrouted =>
  }

  lemma {:induction false} CalmDrains(c: Client, es: seq<Event>, id: string)
    requires Inv(c) && Drained(c, id)
    requires Calm(id, es) && Run(c, es).Some?
    ensures Drained(Run(c, es).value, id)
    decreases |es|
  {
    hide Inv, Drained, Expire, Receive;
    if es == [] {
    } else {
      StepInv(c, es[0]);
      assert es[0] in es && Calm(id, es[1..]);
      match es[0] {
        case Message(m) => MessageDrains(c, m, id);
        case Timeout(i) => ExpireDrains(c, i, id);
        case Execute(_, _, _) => LocalDrains(c, es[0], id);
        case Status(_) => LocalDrains(c, es[0], id);
        case Consume(_) => LocalDrains(c, es[0], id);
      }
      CalmDrains(Step(c, es[0]), es[1..], id);
    }
  }

  // ----- Only the messages for a request matter to it -----

  /** The router hands `m` to request `id`. */
  predicate IsFor(m: Json, id: string)
  {
    match RouteOf(m)
    case ToEvent(i, _) => i == id
    case ToDone(i, _) => i == id
    case ToError(i, _) => i == id
    case _ => false
  }

  function ForId(ms: seq<Json>, id: string): seq<Json>
  {
    if ms == [] then []
    else if IsFor(ms[0], id) then [ms[0]] + ForId(ms[1..], id)
    else ForId(ms[1..], id)
  }

  lemma {:induction false} ForIdConcat(a: seq<Json>, b: seq<Json>, id: string)
    ensures ForId(a + b, id) == ForId(a, id) + ForId(b, id)
  {
    hide IsFor;
    if a == [] {
      assert a + b == b;
    } else {
      ForIdConcat(a[1..], b, id);
      assert (a + b)[1..] == a[1..] + b;
      if IsFor(a[0], id) {
        Regroup([a[0]], ForId(a[1..], id), ForId(b, id));
      }
    }
  }

  /** A started request is not started again. */
  lemma {:induction false} StartedOnce(c: Client, es: seq<Event>, id: string)
    requires Inv(c) && Run(c, es).Some? && id in c.streams
    ensures forall e :: e in es && e.Execute? ==> e.id != id
    decreases |es|
  {
    hide Inv, Step;
    if es == [] {
    } else {
      StepInv(c, es[0]);
      StepEnding(c, es[0], es[1..], id);
      StartedOnce(Step(c, es[0]), es[1..], id);
      assert forall e :: e in es <==> e == es[0] || e in es[1..];
    }
  }

  /** Nothing but the messages for it changes what a request receives or how it ends, while nothing disturbs it. */
  lemma {:induction false} OnlyItsMessages(id: string, command: string, listening: bool, v: Verdict, es: seq<Event>)
    requires Calm(id, es) && forall e :: e in es && e.Execute? ==> e.id != id
    ensures var own := Deliveries(ForId(MessagesOf(es), id));
            && Received(id, listening, es) == Received(id, listening, own)
            && Ending(id, command, listening, v, es) == Ending(id, command, listening, v, own)
    decreases |es|
  {
    hide RouteOf, Deliveries;
    if es == [] {
      assert Deliveries([]) == [] by { DeliverNone(); }
    } else {
      var rest := es[1..];
      assert es[0] in es && Calm(id, rest);
      if es[0].Message? {
        var m, ms := es[0].m, MessagesOf(rest);
        assert MessagesOf(es)[1..] == ms;
        if IsFor(m, id) {
          DeliverOne(m, ForId(ms, id));
          assert ([Message(m)] + Deliveries(ForId(ms, id)))[1..] == Deliveries(ForId(ms, id));
        }
        match RouteOf(m) {
          case ToDone(i, _) =>
            var w := if listening && i == id && v == Pending then Good else v;
            OnlyItsMessages(id, command, listening && i != id, w, rest);
          case ToError(i, message) =>
            OnlyItsMessages(id, command, listening && i != id, if listening && i == id then Bad(message) else v, rest);
          case _ => OnlyItsMessages(id, command, listening, v, rest);
        }
      } else {
        OnlyItsMessages(id, command, listening, v, rest);
      }
    }
  }

  lemma DeliverNone()
    ensures Deliveries([]) == []
  {
  }

  lemma DeliverOne(m: Json, ms: seq<Json>)
    ensures Deliveries([m] + ms) == [Message(m)] + Deliveries(ms)
  {
    assert ([m] + ms)[1..] == ms;
  }

  lemma {:induction false} DeliveriesConcat(a: seq<Json>, b: seq<Json>)
    ensures Deliveries(a + b) == Deliveries(a) + Deliveries(b)
  {
    if a == [] {
      assert a + b == b;
    } else {
      DeliveriesConcat(a[1..], b);
      assert a + b == [a[0]] + (a[1..] + b) && a == [a[0]] + a[1..];
      hide Deliveries;
      DeliverOne(a[0], a[1..] + b);
      DeliverOne(a[0], a[1..]);
      Regroup([Message(a[0])], Deliveries(a[1..]), Deliveries(b));
    }
  }

  lemma {:induction false} ReceivedGrows(id: string, listening: bool, a: seq<Event>, b: seq<Event>)
    ensures Received(id, listening, a) <= Received(id, listening, a + b)
    decreases |a|
  {
    hide RouteOf;
    if a == [] {
    } else {
      assert (a + b)[1..] == a[1..] + b;
      ReceivedGrows(id, true, a[1..], b);
      ReceivedGrows(id, false, a[1..], b);
    }
  }

  // ----- What the forwarded frames amount to -----

  lemma EventFrameRoutes(id: string, e: Json)
    requires id != ""
    ensures RouteOf(EventFrame(id, e)) == ToEvent(id, e)
  {
  }

  lemma DoneFrameRoutes(id: string, e: Json)
    requires id != ""
    ensures RouteOf(DoneFrame(id, e)) == ToDone(id, e)
  {
  }

  lemma ErrorFrameRoutes(id: string, code: string, message: string)
    requires id != ""
    ensures RouteOf(ErrorFrame(id, code, message)) == ToError(id, message)
  {
  }

  /** Once settled, a request neither hears nor changes its mind. */
  lemma {:induction false} DeafAfterwards(id: string, command: string, v: Verdict, ms: seq<Json>)
    ensures Received(id, false, Deliveries(ms)) == []
    ensures Ending(id, command, false, v, Deliveries(ms)) == v
  {
    hide RouteOf;
    if ms == [] {
    } else {
      DeafAfterwards(id, command, v, ms[1..]);
      assert Deliveries(ms)[1..] == Deliveries(ms[1..]);
    }
  }

  /** How a sequence of frames leaves a fresh request: what it received and how it ended. */
  predicate Means(id: string, command: string, frames: seq<Json>, received: seq<Json>, v: Verdict)
  {
    && Received(id, true, Deliveries(frames)) == received
    && Ending(id, command, true, Pending, Deliveries(frames)) == v
  }

  lemma ErrorMeans(id: string, command: string, error: Option<string>)
    requires id != ""
    ensures Means(id, command, ErrorFrames(id, error), [], Conclusion([], error))
  {
    hide RouteOf, ErrorFrame;
    assert !HasDone([]);
    DeliverNone();
    if error.Some? {
      var m := ErrorFrame(id, "TUNNEL_ERROR", error.value);
      ErrorFrameRoutes(id, "TUNNEL_ERROR", error.value);
      assert ErrorFrames(id, error) == [m];
      DeliverOne(m, []);
      assert [m] + [] == [m] && [Message(m)] + [] == [Message(m)];
      assert [Message(m)][1..] == [];
      assert Received(id, true, [Message(m)]) == [];
      assert Ending(id, command, true, Pending, [Message(m)]) == Bad(error.value);
    } else {
      assert ErrorFrames(id, error) == [];
      assert Received(id, true, []) == [];
    }
  }

  lemma EventMeans(id: string, command: string, m: Json, e: Json, frames: seq<Json>, received: seq<Json>, v: Verdict)
    requires RouteOf(m) == ToEvent(id, e)
    requires Means(id, command, frames, received, v)
    ensures Means(id, command, [m] + frames, [e] + received, v)
  {
    hide RouteOf;
    DeliverOne(m, frames);
    assert ([Message(m)] + Deliveries(frames))[1..] == Deliveries(frames);
  }

  lemma DoneMeans(id: string, command: string, m: Json, e: Json, frames: seq<Json>)
    requires RouteOf(m) == ToDone(id, e)
    ensures Means(id, command, [m] + frames, [], Good)
  {
    hide RouteOf;
    DeliverOne(m, frames);
    assert ([Message(m)] + Deliveries(frames))[1..] == Deliveries(frames);
    DeafAfterwards(id, command, Good, frames);
  }

  lemma {:induction false} FramesMean(id: string, command: string, events: seq<Json>, error: Option<string>)
    requires id != ""
    ensures Means(id, command, FramesFor(id, events) + ErrorFrames(id, error), UpToDone(events),
                  Conclusion(events, error))
  {
    hide RouteOf, Means, EventFrame, DoneFrame, ErrorFrames, IsDone;
    if events == [] {
      assert [] + ErrorFrames(id, error) == ErrorFrames(id, error);
      ErrorMeans(id, command, error);
    } else {
      var e, rest := events[0], events[1..];
      var after := FramesFor(id, rest) + ErrorFrames(id, error);
      EventFrameRoutes(id, e);
      if IsDone(e) {
        DoneFrameRoutes(id, e);
        DoneMeans(id, command, DoneFrame(id, e), e, after);
        EventMeans(id, command, EventFrame(id, e), e, [DoneFrame(id, e)] + after, [], Good);
        assert e in events && HasDone(events);
        assert [e] + [] == UpToDone(events);
        Regroup([DoneFrame(id, e)], FramesFor(id, rest), ErrorFrames(id, error));
        Regroup([EventFrame(id, e)], [DoneFrame(id, e)] + FramesFor(id, rest), ErrorFrames(id, error));
      } else {
        FramesMean(id, command, rest, error);
        EventMeans(id, command, EventFrame(id, e), e, after, UpToDone(rest), Conclusion(rest, error));
        assert HasDone(events) == HasDone(rest);
        Regroup([EventFrame(id, e)], FramesFor(id, rest), ErrorFrames(id, error));
      }
    }
  }

  /** Whatever messages are still to come, an early good ending is the final one. */
  lemma {:induction false} GoodIsFinal(id: string, command: string, listening: bool, v: Verdict,
                                        a: seq<Json>, b: seq<Json>)
    requires listening <==> v == Pending
    requires Ending(id, command, listening, v, Deliveries(a)) == Good
    ensures Ending(id, command, listening, v, Deliveries(a + b)) == Good
    ensures Received(id, listening, Deliveries(a + b)) == Received(id, listening, Deliveries(a))
    decreases |a|
  {
    hide RouteOf;
    if !listening {
      DeafAfterwards(id, command, v, a);
      DeafAfterwards(id, command, v, a + b);
    } else if a != [] {
      var rest := a[1..];
      assert (a + b)[1..] == rest + b;
      assert Deliveries(a)[1..] == Deliveries(rest);
      assert Deliveries(a + b)[1..] == Deliveries(rest + b);
      match RouteOf(a[0]) {
        case ToDone(i, _) => GoodIsFinal(id, command, i != id, if i == id then Good else v, rest, b);
        case ToError(i, message) =>
          if i == id {
            DeafAfterwards(id, command, Bad(message), rest);
          } else {
            GoodIsFinal(id, command, true, v, rest, b);
          }
        case _ => GoodIsFinal(id, command, true, v, rest, b);
      }
    }
  }

  // ----- Main results -----

  /** What has been delivered when only a part of the wire text has arrived. */
  lemma DeliveredPart(codec: Codec, frames: seq<Json>, t: string, rest: string) returns (later: seq<Json>)
    requires Lawful(codec)
    requires t + rest == Wire(codec, frames)
    ensures AfterText(codec, t).delivered + later == frames
    ensures rest == "" ==> later == []
  {
    hide Split, Messages, Wire;
    WireLines(codec, frames);
    SplitResume(t, rest, '\n');
    var more := Split(Last(Split(t, '\n')) + rest, '\n');
    assert Init(Init(Split(t, '\n')) + more) == Init(Split(t, '\n')) + Init(more);
    MessagesConcat(codec, Init(Split(t, '\n')), Init(more));
    later := Messages(codec, Init(more));
    if rest == "" {
      assert t + rest == t;
      assert AfterText(codec, t).delivered == frames;
      assert |later| == 0;
    }
  }

  /** The end of a request, from the frames for it that were heard and those still to come. */
  lemma EndOfRequest(id: string, command: string, events: seq<Json>, error: Option<string>, s: Stream,
                     heard: seq<Json>, later: seq<Json>)
    requires id != "" && heard + later == FramesFor(id, events) + ErrorFrames(id, error)
    requires Correct(s, Received(id, true, Deliveries(heard)), Ending(id, command, true, Pending, Deliveries(heard)))
    requires StreamOk(s) && (s.phase.Threw? ==> s.queue == [])
    ensures s.yielded <= UpToDone(events)
    ensures s.phase == Returned ==> s.yielded == UpToDone(events) && HasDone(events)
    ensures later == [] ==> s.yielded + s.queue == UpToDone(events) && VerdictOf(s) == Conclusion(events, error)
    ensures later == [] && !CanAdvance(s) ==>
              && s.yielded == UpToDone(events)
              && (s.phase == Awaiting(false) <==> Conclusion(events, error) == Pending)
              && (s.phase == Returned <==> Conclusion(events, error) == Good)
              && (s.phase.Threw? <==> Conclusion(events, error).Bad?)
  {
    hide Received, Ending, UpToDone, HasDone, FramesFor, ErrorFrames;
    FramesMean(id, command, events, error);
    DeliveriesConcat(heard, later);
    ReceivedGrows(id, true, Deliveries(heard), Deliveries(later));
    assert s.yielded <= s.yielded + s.queue;
    assert s.queue == [] ==> s.yielded + s.queue == s.yielded;
    if VerdictOf(s) == Good {
      GoodIsFinal(id, command, true, Pending, heard, later);
    }
    if later == [] {
      assert heard + later == heard;
    }
  }

  /** Splits equal concatenations whose first parts are equal. */
  lemma Cancel<T>(a: seq<T>, b: seq<T>, c: seq<T>)
    requires a + b == a + c
    ensures b == c
  {
    assert b == (a + b)[|a|..] && c == (a + c)[|a|..];
  }

  /**
   * End to end, for a request begun at any time beside any other requests: for every response, every list of messages
   * on the wire in which those for the request are the frames of that response, every cutting of the streams, and every
   * interleaving of arriving chunks with whatever the client's other callers do. At any time the events given out are
   * an initial part of the events of the response up to the first `execution:done`. Once everything has arrived, given
   * out and queued together are exactly those; once the consumer can pull no more they are given out, and the generator
   * has returned if there is an `execution:done`, thrown if there is none and the response failed, and otherwise still
   * waits.
   */
  lemma EndToEnd(codec: Codec, c: Client, t: string, id: string, command: string, params: Json, res: Response,
                 sent: seq<Json>, moves: seq<Move>, rest: string)
    requires Lawful(codec) && Inv(c) && Legal(c, Execute(id, command, params))
    requires t + Concat(Chunks(moves)) + rest == Wire(codec, sent)
    requires ForId(sent, id) == ForId(AfterText(codec, t).delivered, id) + Frames(codec, id, res)
    requires Undisturbed(id, moves)
    requires Play(codec, Link(AfterText(codec, t), Step(c, Execute(id, command, params))), moves).Some?
    ensures var events, error := ResponseEvents(codec, res), ResponseError(res);
            var l := Link(AfterText(codec, t), Step(c, Execute(id, command, params)));
            var client := Play(codec, l, moves).value.client;
            && id in client.streams
            && var s := client.streams[id];
            && s.yielded <= UpToDone(events)
            && (s.phase == Returned ==> s.yielded == UpToDone(events) && HasDone(events))
            && (rest == "" ==> s.yielded + s.queue == UpToDone(events) && VerdictOf(s) == Conclusion(events, error))
            && (rest == "" && !CanAdvance(s) ==>
                  && s.yielded == UpToDone(events)
                  && (s.phase == Awaiting(false) <==> Conclusion(events, error) == Pending)
                  && (s.phase == Returned <==> Conclusion(events, error) == Good)
                  && (s.phase.Threw? <==> Conclusion(events, error).Bad?))
  {
    hide Play, Step, Run, FeedAll, Wire, Received, Ending, Inv, ForId, AfterText, Undisturbed, Calm, Correct;
    hide Conclusion, UpToDone, HasDone, FramesFor, ErrorFrames, Concat, Chunks, CanAdvance;
    hide ResponseEvents, ResponseError;
    FreshRequest(c, id, command, params);
    var d := Step(c, Execute(id, command, params));
    var l := Link(AfterText(codec, t), d);
    var end := Play(codec, l, moves).value;
    var es := PlayIsRun(codec, l, moves, id);
    FeedAllFrom(codec, t, Chunks(moves));
    var later := DeliveredPart(codec, sent, t + Concat(Chunks(moves)), rest);
    var before, heard := AfterText(codec, t).delivered, MessagesOf(es);
    ForIdConcat(before + heard, later, id);
    ForIdConcat(before, heard, id);
    Regroup(ForId(before, id), ForId(heard, id), ForId(later, id));
    Cancel(ForId(before, id), ForId(heard, id) + ForId(later, id), Frames(codec, id, res));
    GeneratorCorrect(c, id, command, params, es);
    StartedOnce(d, es, id);
    OnlyItsMessages(id, command, true, Pending, es);
    CalmDrains(d, es, id);
    SoundStream(d, es, id);
    EndOfRequest(id, command, ResponseEvents(codec, res), ResponseError(res), end.client.streams[id],
                 ForId(heard, id), ForId(later, id));
    if rest == "" {
      assert ForId(later, id) == [] by { ForNobody(id); }
    }
  }

  lemma ForNobody(id: string)
    ensures ForId([], id) == []
  {
  }

  lemma SoundStream(c: Client, es: seq<Event>, id: string)
    requires Inv(c) && Run(c, es).Some? && id in Run(c, es).value.streams && Drained(Run(c, es).value, id)
    ensures var s := Run(c, es).value.streams[id]; StreamOk(s) && (s.phase.Threw? ==> s.queue == [])
  {
    hide Run;
    QueueCorrect(c, es, id);
  }

  // ----- The tunnel on its own, with nothing assumed about the run -----

  function Arrivals(chunks: seq<string>): seq<Move>
  {
    if chunks == [] then [] else [Arrive(chunks[0])] + Arrivals(chunks[1..])
  }

  lemma {:induction false} DeliveriesRun(c: Client, ms: seq<Json>)
    ensures Run(c, Deliveries(ms)).Some?
    decreases |ms|
  {
    if ms == [] {
    } else {
      DeliveriesRun(Step(c, Message(ms[0])), ms[1..]);
      assert Deliveries(ms)[1..] == Deliveries(ms[1..]);
    }
  }

  lemma {:induction false} ArrivalsChunks(chunks: seq<string>, id: string)
    ensures Chunks(Arrivals(chunks)) == chunks && Undisturbed(id, Arrivals(chunks))
  {
    if chunks == [] {
    } else {
      var moves := Arrivals(chunks);
      ArrivalsChunks(chunks[1..], id);
      assert moves[0] == Arrive(chunks[0]) && moves[1..] == Arrivals(chunks[1..]);
      assert forall move :: move in moves <==> move == moves[0] || move in moves[1..];
    }
  }

  /** An arriving chunk is never out of turn. */
  lemma ArrivePlays(codec: Codec, l: Link, moves: seq<Move>)
    requires moves != [] && moves[0].Arrive? && Accepts(l.framer, moves[0].chunk)
    ensures Run(l.client, Deliveries(NewMessages(codec, l.framer, moves[0].chunk))).Some?
    ensures var client := Run(l.client, Deliveries(NewMessages(codec, l.framer, moves[0].chunk))).value;
            Play(codec, l, moves) == Play(codec, Link(AfterFeed(codec, l.framer, moves[0].chunk), client), moves[1..])
  {
    hide Run, AfterFeed, Accepts, NewMessages, Deliveries;
    DeliveriesRun(l.client, NewMessages(codec, l.framer, moves[0].chunk));
  }

  lemma {:induction false} ArrivalsPlay(codec: Codec, l: Link, chunks: seq<string>)
    requires FeedAll(codec, l.framer, chunks).Some?
    ensures Play(codec, l, Arrivals(chunks)).Some?
    decreases |chunks|
  {
    hide Run, AfterFeed, Accepts, NewMessages, Deliveries;
    if chunks == [] {
    } else {
      hide Play;
      var moves := Arrivals(chunks);
      assert moves[0] == Arrive(chunks[0]) && moves[1..] == Arrivals(chunks[1..]);
      ArrivePlays(codec, l, moves);
      var client := Run(l.client, Deliveries(NewMessages(codec, l.framer, chunks[0]))).value;
      ArrivalsPlay(codec, Link(AfterFeed(codec, l.framer, chunks[0]), client), chunks[1..]);
    }
  }

  lemma OwnFramesForId(id: string, events: seq<Json>, error: Option<string>)
    requires id != ""
    ensures ForId(FramesFor(id, events) + ErrorFrames(id, error), id) == FramesFor(id, events) + ErrorFrames(id, error)
  {
    hide ForId, FramesFor, ErrorFrames;
    ForIdConcat(FramesFor(id, events), ErrorFrames(id, error), id);
    EventFramesForId(id, events);
    ErrorFramesForId(id, error);
  }

  lemma {:induction false} EventFramesForId(id: string, events: seq<Json>)
    requires id != ""
    ensures ForId(FramesFor(id, events), id) == FramesFor(id, events)
  {
    hide RouteOf, EventFrame, DoneFrame, IsDone;
    if events == [] {
    } else {
      var e, rest := events[0], FramesFor(id, events[1..]);
      EventFramesForId(id, events[1..]);
      EventFrameRoutes(id, e);
      DoneFrameRoutes(id, e);
      assert ([DoneFrame(id, e)] + rest)[1..] == rest;
      assert ([EventFrame(id, e)] + rest)[1..] == rest;
      assert ([EventFrame(id, e)] + ([DoneFrame(id, e)] + rest))[1..] == [DoneFrame(id, e)] + rest;
    }
  }

  lemma ErrorFramesForId(id: string, error: Option<string>)
    requires id != ""
    ensures ForId(ErrorFrames(id, error), id) == ErrorFrames(id, error)
  {
    if error.Some? {
      ErrorFrameRoutes(id, "TUNNEL_ERROR", error.value);
    }
  }

  /**
   * For every response whose frames fit the framer beside the chunks, and every cutting of the stream: the chunks are
   * all accepted, and a consumer that then pulls gets exactly the events of the response up to the first
   * `execution:done`, after which the generator has returned, thrown the response's error, or waits. A request that
   * fails, an HTTP error and a missing body are thrown at the consumer with their text.
   */
  lemma BoundedTunnelDelivers(codec: Codec, id: string, command: string, params: Json, res: Response,
                              chunks: seq<string>, longestLine: nat, longestChunk: nat)
    requires Lawful(codec) && id != "" && Concat(chunks) == Wire(codec, Frames(codec, id, res))
    requires forall m :: m in Frames(codec, id, res) ==> ByteLength(codec.stringify(m)) <= longestLine
    requires forall c :: c in chunks ==> ByteLength(c) <= longestChunk
    requires longestLine + longestChunk <= 1_048_576
    ensures var l := Link(EMPTY, Step(NEW, Execute(id, command, params)));
            && Play(codec, l, Arrivals(chunks)).Some?
            && var client := Play(codec, l, Arrivals(chunks)).value.client;
            && id in client.streams
            && var s := client.streams[id];
               var r := Drain(s, |s.queue| + 1);
            && r.yielded == UpToDone(ResponseEvents(codec, res))
            && r.phase == (match Conclusion(ResponseEvents(codec, res), ResponseError(res))
                           case Pending => Awaiting(false)
                           case Good => Returned
                           case Bad(message) => Threw(message))
            && (match res
                case FetchFailed(message) => r.yielded == [] && r.phase == Threw(message)
                case Refused(status, text) =>
                  r.yielded == [] && r.phase == Threw("Gateway HTTP " + Decimal(status) + ": " + text)
                case NoBody => r.yielded == [] && r.phase == Threw("Gateway returned no response body")
                case Streaming(_, _) => true)
  {
    hide Inv, Legal, Step, Play, Run, Wire, Split, ByteLength, FramesFor, ErrorFrames, FeedAll, Drain, Decimal;
    assert UpToDone([]) == [] && !HasDone([]);
    hide UpToDone;
    RoundTrip(codec, Frames(codec, id, res), chunks, longestLine, longestChunk);
    var s := AloneOnConnection(codec, id, command, params, res, chunks);
    RestAfterDrain(s);
  }

  /** Event number `k` is the first that says the execution is done. */
  predicate DoneFirstAt(events: seq<Json>, k: nat)
  {
    && k < |events| && Field(events[k], "type") == Some(Str("execution:done"))
    && forall i :: 0 <= i < k ==> Field(events[i], "type") != Some(Str("execution:done"))
  }

  lemma {:induction false} UpToFirstDone(events: seq<Json>, k: nat)
    requires DoneFirstAt(events, k)
    ensures HasDone(events) && UpToDone(events) == events[..k + 1]
    decreases k
  {
    assert events[k] in events;
    if k > 0 {
      var rest := events[1..];
      assert forall i :: 0 <= i < |rest| ==> rest[i] == events[i + 1];
      UpToFirstDone(rest, k - 1);
      assert events[..k + 1] == [events[0]] + rest[..k];
    }
  }

  predicate NoneDone(events: seq<Json>)
  {
    forall e :: e in events ==> Field(e, "type") != Some(Str("execution:done"))
  }

  lemma {:induction false} UpToTheEnd(events: seq<Json>)
    requires NoneDone(events)
    ensures !HasDone(events) && UpToDone(events) == events
  {
    if events == [] {
    } else {
      assert events[0] in events && NoneDone(events[1..]);
      UpToTheEnd(events[1..]);
    }
  }

  /**
   * From the Gateway's pen to the consumer: events written line by line, cut anywhere on the way to the agent and again
   * on the way to the client, are yielded one by one, up to the first `execution:done` if there is one. After that the
   * generator has returned; without it, it has thrown what broke the body off, or waits if nothing did.
   */
  lemma WrittenIsYielded(codec: Codec, id: string, command: string, params: Json,
                         events: seq<Json>, lead: string, pad: string, body: seq<string>, failure: Option<string>,
                         chunks: seq<string>, longestLine: nat, longestChunk: nat)
    requires Lawful(codec) && id != "" && Blank(lead) && Blank(pad)
    requires Concat(body) == Body(codec, events, lead, pad)
    requires Concat(chunks) == Wire(codec, Frames(codec, id, Streaming(body, failure)))
    requires forall m :: m in Frames(codec, id, Streaming(body, failure)) ==>
               ByteLength(codec.stringify(m)) <= longestLine
    requires forall c :: c in chunks ==> ByteLength(c) <= longestChunk
    requires longestLine + longestChunk <= 1_048_576
    ensures var l := Link(EMPTY, Step(NEW, Execute(id, command, params)));
            && Play(codec, l, Arrivals(chunks)).Some?
            && var client := Play(codec, l, Arrivals(chunks)).value.client;
            && id in client.streams
            && var s := client.streams[id];
               var r := Drain(s, |s.queue| + 1);
            && (forall k: nat :: DoneFirstAt(events, k) ==> r.yielded == events[..k + 1] && r.phase == Returned)
            && (NoneDone(events) ==>
                  r.yielded == events
                  && r.phase == match failure { case Some(message) => Threw(message) case None => Awaiting(false) })
  {
    hide Lawful, Step, Play, Wire, Body, ByteLength, FramesFor, ErrorFrames, Drain, UpToDone, HasDone, Arrivals;
    hide NoneDone, Concat, ResponseEvents, Blank;
    var res := Streaming(body, failure);
    assert Concat(body) == Body(codec, events, lead, pad) + "";
    WrittenIsRead(codec, events, lead, pad, "", body, failure);
    forall k: nat | DoneFirstAt(events, k) ensures HasDone(events) && UpToDone(events) == events[..k + 1] {
      UpToFirstDone(events, k);
    }
    if NoneDone(events) {
      UpToTheEnd(events);
    }
    BoundedTunnelDelivers(codec, id, command, params, res, chunks, longestLine, longestChunk);
  }

  /** The state of the stream when everything has arrived and the consumer has not pulled yet. */
  lemma AloneOnConnection(codec: Codec, id: string, command: string, params: Json, res: Response, chunks: seq<string>)
    returns (s: Stream)
    requires Lawful(codec) && id != "" && Concat(chunks) == Wire(codec, Frames(codec, id, res))
    requires FeedAll(codec, EMPTY, chunks).Some?
    ensures var l := Link(EMPTY, Step(NEW, Execute(id, command, params)));
            && Play(codec, l, Arrivals(chunks)).Some?
            && var client := Play(codec, l, Arrivals(chunks)).value.client;
            id in client.streams && client.streams[id] == s
    ensures StreamOk(s) && s.phase.Awaiting? && s.yielded + s.queue == UpToDone(ResponseEvents(codec, res))
    ensures VerdictOf(s) == Conclusion(ResponseEvents(codec, res), ResponseError(res))
  {
    var l := Link(EMPTY, Step(NEW, Execute(id, command, params)));
    NewIsSound(id, command, params);
    hide Inv, Legal, Step, Play, Run, Wire, FramesFor, ErrorFrames, UpToDone, FeedAll, StreamOk, Conclusion;
    ArrivalsPlay(codec, l, chunks);
    ArrivalsChunks(chunks, id);
    AloneHears(codec, id, command, params, res, chunks);
    BegunStream(NEW, id, command, params);
    ArrivalsWait(codec, l, chunks, id);
    PlaySound(codec, l, Arrivals(chunks), id);
    s := Play(codec, l, Arrivals(chunks)).value.client.streams[id];
  }

  lemma NewIsSound(id: string, command: string, params: Json)
    requires id != ""
    ensures Inv(NEW) && Legal(NEW, Execute(id, command, params))
  {
  }

  lemma AloneHears(codec: Codec, id: string, command: string, params: Json, res: Response, chunks: seq<string>)
    requires Lawful(codec) && id != "" && Concat(chunks) == Wire(codec, Frames(codec, id, res))
    requires Legal(NEW, Execute(id, command, params))
    requires Play(codec, Link(EMPTY, Step(NEW, Execute(id, command, params))), Arrivals(chunks)).Some?
    ensures var l := Link(EMPTY, Step(NEW, Execute(id, command, params)));
            var client := Play(codec, l, Arrivals(chunks)).value.client;
            && id in client.streams
            && client.streams[id].yielded + client.streams[id].queue == UpToDone(ResponseEvents(codec, res))
            && VerdictOf(client.streams[id]) == Conclusion(ResponseEvents(codec, res), ResponseError(res))
  {
    hide Inv, Legal, Step, Play, Run, Wire, Frames, ForId, UpToDone, Conclusion, Lawful, VerdictOf, AfterText, Concat;
    hide Chunks, Arrivals, Undisturbed, CanAdvance, HasDone, ResponseEvents, ResponseError;
    NewIsSound(id, command, params);
    ArrivalsChunks(chunks, id);
    AloneOnWire(codec, id, res, chunks);
    EndToEnd(codec, NEW, "", id, command, params, res, Frames(codec, id, res), Arrivals(chunks), "");
  }

  lemma AloneOnWire(codec: Codec, id: string, res: Response, chunks: seq<string>)
    requires id != ""
    ensures AfterText(codec, "") == EMPTY
    ensures ForId(Frames(codec, id, res), id) == ForId(AfterText(codec, "").delivered, id) + Frames(codec, id, res)
    ensures "" + Concat(chunks) + "" == Concat(chunks)
  {
    hide ForId, FramesFor, ErrorFrames;
    OwnFramesForId(id, ResponseEvents(codec, res), ResponseError(res));
    ForNobody(id);
    assert [] + Frames(codec, id, res) == Frames(codec, id, res);
  }

  /** The consumer has not pulled again since it began to wait. */
  predicate Waits(c: Client, id: string)
  {
    id in c.streams && c.streams[id].phase.Awaiting?
  }

  lemma SettleWaits(c: Client, i: string, a: Answer, id: string)
    requires Waits(c, id)
    ensures Waits(Settle(c, i, a), id)
  {
  }

  lemma ReceiveWaits(c: Client, m: Json, id: string)
    requires Waits(c, id)
    ensures Waits(Receive(c, m), id)
  {
    hide RouteOf, Settle;
    match RouteOf(m)
    case StatusReply => if c.statuses != [] { SettleWaits(c, c.statuses[0], Resolved(m), id); }
    case ToEvent(i, data) =>
    case ToDone(i, result) => SettleWaits(c, i, Resolved(result), id);
    case ToError(i, message) => SettleWaits(c, i, Rejected(message), id);
    case Unrouted =>
  }

  lemma {:induction false} DeliveriesWait(c: Client, ms: seq<Json>, id: string)
    requires Waits(c, id)
    ensures Run(c, Deliveries(ms)).Some? && Waits(Run(c, Deliveries(ms)).value, id)
    decreases |ms|
  {
    hide Waits, Receive;
    if ms == [] {
    } else {
      ReceiveWaits(c, ms[0], id);
      DeliveriesWait(Receive(c, ms[0]), ms[1..], id);
      assert Deliveries(ms)[1..] == Deliveries(ms[1..]);
    }
  }

  lemma {:induction false} ArrivalsWait(codec: Codec, l: Link, chunks: seq<string>, id: string)
    requires Waits(l.client, id) && Play(codec, l, Arrivals(chunks)).Some?
    ensures Waits(Play(codec, l, Arrivals(chunks)).value.client, id)
    decreases |chunks|
  {
    hide Waits, Run, AfterFeed, Accepts;
    if chunks == [] {
    } else {
      var moves := Arrivals(chunks);
      assert moves[0] == Arrive(chunks[0]) && moves[1..] == Arrivals(chunks[1..]);
      DeliveriesWait(l.client, NewMessages(codec, l.framer, chunks[0]), id);
      var client := Run(l.client, Caused(codec, l.framer, moves[0])).value;
      ArrivalsWait(codec, Link(AfterFeed(codec, l.framer, chunks[0]), client), chunks[1..], id);
    }
  }

  /** Draining a stream whose consumer waits gives out all of it, whether there is anything to pull or not. */
  lemma RestAfterDrain(s: Stream)
    requires StreamOk(s) && s.phase.Awaiting?
    ensures var r := Drain(s, |s.queue| + 1);
            && r.yielded == s.yielded + s.queue
            && r.phase == match VerdictOf(s)
                          case Pending => Awaiting(false)
                          case Good => Returned
                          case Bad(message) => Threw(message)
  {
    if CanAdvance(s) {
      DrainComesToRest(s, |s.queue| + 1);
    } else {
      assert s.yielded + [] == s.yielded;
    }
  }

  lemma PlaySound(codec: Codec, l: Link, moves: seq<Move>, id: string)
    requires Inv(l.client) && Undisturbed(id, moves) && Play(codec, l, moves).Some?
    ensures Inv(Play(codec, l, moves).value.client)
    ensures forall i :: i in Play(codec, l, moves).value.client.streams ==>
              StreamOk(Play(codec, l, moves).value.client.streams[i])
  {
    hide Play, Run, Undisturbed;
    var es := PlayIsRun(codec, l, moves, id);
    QueueCorrect(l.client, es, id);
  }

  // ----- Several tunnels on one connection -----

  /** One callback of the tunnel of request `id`. */
  datatype Sending = Sending(id: string, call: Callback)

  /** The frames of several tunnels, in the order of their callbacks. */
  function SentBy(traffic: seq<Sending>): seq<Json>
  {
    if traffic == [] then [] else [Forward(traffic[0].id, traffic[0].call)] + SentBy(traffic[1..])
  }

  function CallsOf(traffic: seq<Sending>, id: string): seq<Callback>
  {
    if traffic == [] then []
    else if traffic[0].id == id then [traffic[0].call] + CallsOf(traffic[1..], id)
    else CallsOf(traffic[1..], id)
  }

  lemma ForwardIsFor(i: string, call: Callback, id: string)
    requires id != ""
    ensures IsFor(Forward(i, call), id) <==> i == id
  {
    if i != "" {
      match call {
        case OnEvent(event) => EventFrameRoutes(i, event);
        case OnDone(result) => DoneFrameRoutes(i, result);
        case OnError(message) => ErrorFrameRoutes(i, "TUNNEL_ERROR", message);
      }
    }
  }

  /** However the callbacks of several tunnels interleave, the frames for one of them are its own, in order. */
  lemma {:induction false} TunnelsDoNotMix(traffic: seq<Sending>, id: string)
    requires id != ""
    ensures ForId(SentBy(traffic), id) == ForwardAll(id, CallsOf(traffic, id))
  {
    hide IsFor, Forward;
    if traffic == [] {
    } else {
      var first, rest := traffic[0], traffic[1..];
      ForwardIsFor(first.id, first.call, id);
      TunnelsDoNotMix(rest, id);
      assert SentBy(traffic)[1..] == SentBy(rest);
      if first.id == id {
        assert CallsOf(traffic, id)[1..] == CallsOf(rest, id);
      }
    }
  }

  /** So they are the frames of its response as soon as the calls were those of its response. */
  lemma TunnelFrames(codec: Codec, traffic: seq<Sending>, id: string, res: Response)
    requires id != ""
    requires CallsOf(traffic, id) == CallsForAll(ResponseEvents(codec, res)) + ErrorCalls(ResponseError(res))
    ensures ForId(SentBy(traffic), id) == Frames(codec, id, res)
  {
    hide ForId, SentBy, CallsOf, ForwardAll, FramesFor, ErrorFrames;
    TunnelsDoNotMix(traffic, id);
    ForwardConcat(id, CallsForAll(ResponseEvents(codec, res)), ErrorCalls(ResponseError(res)));
    ForwardEvents(id, ResponseEvents(codec, res));
    ForwardError(id, ResponseError(res));
  }

  // ----- The request leg -----

  lemma ExecuteFrameTunnels(id: string, command: string, params: Json, hasGateway: bool, tokenOk: bool,
                            status: map<string, Json>)
    ensures HandleMessage(ExecuteFrame(id, command, params), hasGateway, tokenOk, status)
         == if !params.Obj? then Ignored
            else if !hasGateway then Reply(ErrorFrame(id, "NO_GATEWAY", NO_GATEWAY))
            else if tokenOk then Tunnel(id, command, Some(params))
            else Crashed
  {
    var frame := ExecuteFrame(id, command, params);
    assert Field(frame, "type") == Some(Str("execute"));
    assert Field(frame, "requestId") == Some(Str(id));
    assert Field(frame, "command") == Some(Str(command));
    assert Field(frame, "params") == Some(params);
    assert Field(frame, "stream") == None;
  }

  /**
   * Whatever a client sends and however the stream is cut, the server hears an initial part of it, in the end all of
   * it, in order; and each execute request it hears is tunnelled as it was made, provided its parameters are an object
   * and the token getter returns; if that throws, the process is gone.
   */
  lemma RequestsReachTunnel(codec: Codec, c: Client, es: seq<Event>, chunks: seq<string>, rest: string,
                            tokenOk: bool, status: map<string, Json>)
    requires Lawful(codec) && c.sent == [] && Run(c, es).Some?
    requires Concat(chunks) + rest == Wire(codec, Run(c, es).value.sent)
    requires FeedAll(codec, EMPTY, chunks).Some?
    ensures var heard := FeedAll(codec, EMPTY, chunks).value.delivered;
            heard <= Requests(es) && (rest == "" ==> heard == Requests(es))
    ensures forall id, command, params ::
              HandleMessage(ExecuteFrame(id, command, params), true, tokenOk, status)
              == if !params.Obj? then Ignored else if tokenOk then Tunnel(id, command, Some(params)) else Crashed
  {
    hide Wire, FeedAll, HandleMessage, ExecuteFrame, Split, Run, Requests;
    SentInOrder(c, es);
    assert [] + Requests(es) == Requests(es);
    ChunkingIndependence(codec, chunks);
    var later := DeliveredPart(codec, Requests(es), Concat(chunks), rest);
    forall id, command, params
      ensures HandleMessage(ExecuteFrame(id, command, params), true, tokenOk, status)
           == if !params.Obj? then Ignored else if tokenOk then Tunnel(id, command, Some(params)) else Crashed
    {
      ExecuteFrameTunnels(id, command, params, true, tokenOk, status);
    }
  }

  lemma NoGatewayFrame(id: string)
    ensures var frame := ErrorFrame(id, "NO_GATEWAY", NO_GATEWAY);
            && HasFields(frame, "error", id, {"type", "requestId", "code", "message"})
            && Field(frame, "code") == Some(Str("NO_GATEWAY"))
  {
  }

  /**
   * Without a Gateway the server's reply ends the request it answers and no other: it is out of the table, and its
   * generator throws as soon as it has given out what it had queued.
   */
  lemma NoGatewayRejects(c: Client, id: string, command: string, params: Json, tokenOk: bool,
                         status: map<string, Json>)
    requires Inv(c) && id in c.executes && id in c.streams && !c.streams[id].done && params.Obj?
    ensures var reaction := HandleMessage(ExecuteFrame(id, command, params), false, tokenOk, status);
            && reaction.Reply?
            && HasFields(reaction.frame, "error", id, {"type", "requestId", "code", "message"})
            && Field(reaction.frame, "code") == Some(Str("NO_GATEWAY"))
            && var d := Receive(c, reaction.frame);
            && id in d.streams && id !in d.executes && id !in d.timers
            && (forall i :: i != id && i in c.streams ==> i in d.streams && d.streams[i] == c.streams[i])
            && VerdictOf(d.streams[id])
               == Bad("GatewayClient not configured — cannot tunnel execute requests")
            && d.streams[id].yielded + d.streams[id].queue == c.streams[id].yielded + c.streams[id].queue
            && (CanAdvance(d.streams[id]) ==>
                  Drain(d.streams[id], |d.streams[id].queue| + 1).phase
                  == Threw("GatewayClient not configured — cannot tunnel execute requests"))
  {
    NoGatewayFrame(id);
    hide HandleMessage, ExecuteFrame, ErrorFrame, RouteOf, Drain, HasFields;
    ExecuteFrameTunnels(id, command, params, false, tokenOk, status);
    ErrorFrameRoutes(id, "NO_GATEWAY", NO_GATEWAY);
    var d := Receive(c, ErrorFrame(id, "NO_GATEWAY", NO_GATEWAY));
    assert d == Settle(c, id, Rejected(NO_GATEWAY));
    if CanAdvance(d.streams[id]) {
      DrainComesToRest(d.streams[id], |d.streams[id].queue| + 1);
    }
  }

  /**
   * The reply to a status request, with or without a Gateway, answers the status call that has waited longest, with
   * every field of the server's status, the type, and nothing else.
   */
  lemma StatusAnswered(c: Client, id: string, hasGateway: bool, tokenOk: bool, status: map<string, Json>)
    requires Inv(c) && StatusesWait(c) && c.statuses != [] && "type" !in status
    ensures var reaction := HandleMessage(StatusFrame(id), hasGateway, tokenOk, status);
            && reaction.Reply?
            && var d := Step(c, Message(reaction.frame));
            && d.statuses == c.statuses[1..]
            && c.statuses[0] in d.answers && d.answers[c.statuses[0]].Resolved?
            && var v := d.answers[c.statuses[0]].value;
            && v.Obj? && v.fields.Keys == status.Keys + {"type"} && v.fields["type"] == Str("status")
            && forall k :: k in status ==> v.fields[k] == status[k]
  {
    var frame := Obj(map["type" := Str("status")] + status);
    assert HasType(frame, "status");
    StepStatuses(c, Message(frame), c.statuses[0]);
  }
}
