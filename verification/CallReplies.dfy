/** Replies to incoming calls: what is sent for one request id, with any number of handlers running at once. */
module CallReplies {
  import opened Text
  import opened GatewayConnection

  predicate RepliesTo(frame: Frame, id: string)
  {
    frame == Chunk(id) || frame == Result(id) || (frame.ErrorReply? && frame.id == id)
  }

  /** All frames sent in reply to `id`, with the sockets they went out on. */
  function RepliesIn(sent: seq<Sent>, id: string): seq<Sent>
  {
    if sent == [] then []
    else if RepliesTo(sent[0].frame, id) then [sent[0]] + RepliesIn(sent[1..], id)
    else RepliesIn(sent[1..], id)
  }

  lemma {:induction false} RepliesConcat(a: seq<Sent>, b: seq<Sent>, id: string)
    ensures RepliesIn(a + b, id) == RepliesIn(a, id) + RepliesIn(b, id)
  {
    if a == [] {
      assert a + b == b;
    } else {
      RepliesConcat(a[1..], b, id);
      assert (a + b)[1..] == a[1..] + b;
    }
  }

  predicate PairAt(sent: seq<Sent>, i: nat, g: nat, id: string)
  {
    i + 1 < |sent| && sent[i] == Sent(g, Chunk(id)) && sent[i + 1] == Sent(g, Result(id))
  }

  /** The two frames of a result stand next to each other somewhere. */
  ghost predicate Adjacent(sent: seq<Sent>, g: nat, id: string)
  {
    exists i :: PairAt(sent, i, g, id)
  }

  lemma AdjacentStays(sent: seq<Sent>, more: seq<Sent>, g: nat, id: string)
    requires Adjacent(sent, g, id)
    ensures Adjacent(sent + more, g, id)
  {
    var i :| PairAt(sent, i, g, id);
    assert PairAt(sent + more, i, g, id);
  }

  /** What should have been sent for a call that came out as `f`: nothing without an open socket. */
  ghost predicate RepliedAs(sent: seq<Sent>, id: string, f: Finish)
  {
    match f.on
    case None => RepliesIn(sent, id) == []
    case Some(g) =>
      if f.ok then RepliesIn(sent, id) == [Sent(g, Chunk(id)), Sent(g, Result(id))] && Adjacent(sent, g, id)
      else exists code :: RepliesIn(sent, id) == [Sent(g, ErrorReply(id, code))]
  }

  ghost predicate Answered(s: State)
  {
    && s.running !! s.finished.Keys
    && (forall id :: id in s.finished ==> RepliedAs(s.sent, id, s.finished[id]))
    && (forall id :: id !in s.finished ==> RepliesIn(s.sent, id) == [])
  }

  lemma StillReplied(sent: seq<Sent>, more: seq<Sent>, id: string, f: Finish)
    requires RepliedAs(sent, id, f) && RepliesIn(sent + more, id) == RepliesIn(sent, id)
    ensures RepliedAs(sent + more, id, f)
  {
    if f.on.Some? && f.ok {
      AdjacentStays(sent, more, f.on.value, id);
    }
  }

  /** Frames that are no replies change nothing. */
  lemma OtherFramesSent(s: State, t: State, more: seq<Sent>)
    requires Answered(s) && t.running == s.running && t.finished == s.finished && t.sent == s.sent + more
    requires forall x, id :: x in more ==> !RepliesTo(x.frame, id)
    ensures Answered(t)
  {
    forall id ensures RepliesIn(t.sent, id) == RepliesIn(s.sent, id) {
      RepliesConcat(s.sent, more, id);
      NoReplies(more, id);
    }
    forall id | id in t.finished ensures RepliedAs(t.sent, id, t.finished[id]) {
      StillReplied(s.sent, more, id, s.finished[id]);
    }
  }

  lemma {:induction false} NoReplies(more: seq<Sent>, id: string)
    requires forall x :: x in more ==> !RepliesTo(x.frame, id)
    ensures RepliesIn(more, id) == []
  {
    if more == [] {
    } else {
      NoReplies(more[1..], id);
    }
  }

  /** A finished call sends its own replies in one go; replies to other calls stay as they were. */
  lemma ReplySent(s: State, t: State, id: string, f: Finish, more: seq<Sent>)
    requires Answered(s) && id !in s.finished
    requires t.finished == s.finished[id := f] && t.running == s.running - {id} && t.sent == s.sent + more
    requires forall x, i :: x in more && i != id ==> !RepliesTo(x.frame, i)
    requires match f.on
             case None => more == []
             case Some(g) =>
               if f.ok then more == [Sent(g, Chunk(id)), Sent(g, Result(id))]
               else exists code :: more == [Sent(g, ErrorReply(id, code))]
    ensures Answered(t)
  {
    forall i ensures RepliesIn(t.sent, i) == RepliesIn(s.sent, i) + RepliesIn(more, i) {
      RepliesConcat(s.sent, more, i);
    }
    forall i | i != id ensures RepliesIn(more, i) == [] {
      NoReplies(more, i);
    }
    forall i | i in t.finished ensures RepliedAs(t.sent, i, t.finished[i]) {
      if i == id {
        assert RepliesIn(s.sent, id) == [];
        AllReplies(more, id);
        if f.on.Some? && f.ok {
          assert PairAt(t.sent, |s.sent|, f.on.value, id);
        }
      } else {
        StillReplied(s.sent, more, i, s.finished[i]);
      }
    }
  }

  lemma {:induction false} AllReplies(more: seq<Sent>, id: string)
    requires forall x :: x in more ==> RepliesTo(x.frame, id)
    ensures RepliesIn(more, id) == more
  {
    if more == [] {
    } else {
      AllReplies(more[1..], id);
      assert [more[0]] + more[1..] == more;
    }
  }

  function FrameOn(on: Option<nat>, frame: Frame): seq<Sent>
  {
    match on case Some(g) => [Sent(g, frame)] case None => []
  }

  lemma SendAppends(s: State, frame: Frame)
    ensures Send(s, frame).sent == s.sent + FrameOn(OpenSocket(s), frame)
    ensures OpenSocket(Send(s, frame)) == OpenSocket(s)
  {
  }

  /** The frames `handleCall` ends with. */
  function ClosingFrames(on: Option<nat>, id: string, ok: bool): seq<Sent>
  {
    match on
    case None => []
    case Some(g) => if ok then [Sent(g, Chunk(id)), Sent(g, Result(id))] else [Sent(g, ErrorReply(id, "HANDLER_ERROR"))]
  }

  lemma HandlerSends(s: State, id: string, ok: bool)
    ensures var t := HandlerDone(s, id, ok);
            && t.sent == s.sent + ClosingFrames(OpenSocket(s), id, ok)
            && t.running == s.running - {id} && t.finished == s.finished[id := Finish(ok, OpenSocket(s))]
  {
    var t := s.(running := s.running - {id}, finished := s.finished[id := Finish(ok, OpenSocket(s))]);
    assert OpenSocket(t) == OpenSocket(s);
    if ok {
      SendAppends(t, Chunk(id));
      SendAppends(Send(t, Chunk(id)), Result(id));
    } else {
      SendAppends(t, ErrorReply(id, "HANDLER_ERROR"));
    }
  }

  lemma HandlerAnswers(s: State, id: string, ok: bool)
    requires Answered(s) && id in s.running
    ensures Answered(HandlerDone(s, id, ok))
  {
    HandlerSends(s, id, ok);
    ReplySent(s, HandlerDone(s, id, ok), id, Finish(ok, OpenSocket(s)), ClosingFrames(OpenSocket(s), id, ok));
  }

  lemma CallAnswers(s: State, id: string, adapter: string)
    requires Answered(s) && id !in s.running && id !in s.finished
    ensures Answered(OnMessage(s, Call(id, adapter)))
  {
    if adapter !in s.handlers {
      var frame := ErrorReply(id, "UNKNOWN_ADAPTER");
      var t := s.(finished := s.finished[id := Finish(false, OpenSocket(s))]);
      assert OpenSocket(t) == OpenSocket(s);
      SendAppends(t, frame);
      assert s.running - {id} == s.running;
      ReplySent(s, OnMessage(s, Call(id, adapter)), id, Finish(false, OpenSocket(s)), FrameOn(OpenSocket(s), frame));
    }
  }

  predicate SameReplies(s: State, t: State)
  {
    t.running == s.running && t.finished == s.finished && t.sent == s.sent
  }

  lemma QuietAnswers(s: State, t: State)
    requires Answered(s) && SameReplies(s, t)
    ensures Answered(t)
  {
  }

  lemma HeardAnswers(s: State, g: nat, m: Incoming)
    requires Answered(s) && g < |s.socks| && (m.Call? ==> m.id !in s.running && m.id !in s.finished)
    ensures Answered(Heard(s, g, m))
  {
    hide Answered;
    var u := s.(socks := s.socks[g := s.socks[g].(greeters := [])]);
    QuietAnswers(s, u);
    match m
    case Call(id, adapter) => CallAnswers(u, id, adapter);
    case _ => QuietAnswers(u, Heard(s, g, m));
  }

  lemma SendsOther(s: State, t: State, frame: Frame)
    requires Answered(s) && t.running == s.running && t.finished == s.finished
    requires t.sent == s.sent + FrameOn(OpenSocket(s), frame)
    requires forall id :: !RepliesTo(frame, id)
    ensures Answered(t)
  {
    OtherFramesSent(s, t, FrameOn(OpenSocket(s), frame));
  }

  lemma OpenSends(s: State)
    ensures var t := OnOpen(s);
            && t.sent == s.sent + FrameOn(OpenSocket(s), HelloFrame(s.hostId))
            && t.running == s.running && t.finished == s.finished
  {
    hide Send, OpenSocket;
    SendAppends(s, HelloFrame(s.hostId));
  }

  lemma OpenAnswers(s: State)
    requires Answered(s)
    ensures Answered(OnOpen(s))
  {
    hide Answered, OnOpen;
    OpenSends(s);
    SendsOther(s, OnOpen(s), HelloFrame(s.hostId));
  }

  lemma SendCallSends(s: State, id: string, timeout: Option<int>)
    ensures var t := SendAdapterCall(s, id, timeout);
            && t.sent == s.sent + FrameOn(OpenSocket(s), AdapterCall(id))
            && t.running == s.running && t.finished == s.finished
  {
    hide Send;
    if OpenSocket(s) != None {
      var t := Arm(s, CallTimeout(Deadline(s, timeout), id)).(pending := s.pending[id := s.nextTimer]);
      SendAppends(t, AdapterCall(id));
    } else {
      assert s.sent + [] == s.sent;
    }
  }

  lemma SendCallAnswers(s: State, id: string, timeout: Option<int>)
    requires Answered(s)
    ensures Answered(SendAdapterCall(s, id, timeout))
  {
    hide Answered, SendAdapterCall;
    SendCallSends(s, id, timeout);
    SendsOther(s, SendAdapterCall(s, id, timeout), AdapterCall(id));
  }

  lemma StepAnswers(s: State, e: Event)
    requires Answered(s) && Possible(s, e)
    ensures Answered(Step(s, e))
  {
    hide Answered, OnOpen, OnClose, AfterStop, SendAdapterCall, HandlerDone, Fired;
    match e
    case Receives(g, m) =>
      if m.NullMessage? {
        QuietAnswers(s, Step(s, e));
      } else {
        HeardAnswers(s, g, m);
        QuietAnswers(Heard(s, g, m), Step(s, e));
      }
    case HandlerReturns(id, ok) => HandlerAnswers(s, id, ok);
    case Opens(g) =>
      QuietAnswers(s, SetPhase(s, g, Open));
      OpenAnswers(SetPhase(s, g, Open));
    case SendCall(id, timeout) => SendCallAnswers(s, id, timeout);
    case Fire(t, tokenOk) => FireAnswers(s, t, tokenOk);
    case _ => QuietAnswers(s, Step(s, e));
  }

  lemma BeatAnswers(s: State, t: nat, due: nat)
    requires Answered(s)
    ensures Answered(Send(s.(timers := s.timers[t := Heartbeat(due)]), Beat))
  {
    hide Answered, Send;
    var u := s.(timers := s.timers[t := Heartbeat(due)]);
    SendAppends(u, Beat);
    SendsOther(s, Send(u, Beat), Beat);
  }

  lemma FireAnswers(s: State, t: nat, tokenOk: bool)
    requires Answered(s) && t in s.timers
    ensures Answered(Fired(s, t, tokenOk))
  {
    hide Answered, CloseCurrent, CallExpired, DoConnect, Send;
    if s.timers[t].Heartbeat? {
      BeatAnswers(s, t, s.now + HEARTBEAT_INTERVAL_MS);
    } else {
      QuietAnswers(s, Fired(s, t, tokenOk));
    }
  }

  lemma {:induction false} RunAnswers(s: State, es: seq<Event>)
    requires Answered(s) && Run(s, es).Some?
    ensures Answered(Run(s, es).value)
    decreases |es|
  {
    if es == [] {
    } else {
      StepAnswers(s, es[0]);
      RunAnswers(Step(s, es[0]), es[1..]);
    }
  }

  /**
   * In every run, whatever the order in which handlers return: a request id whose handler has not returned has had no
   * reply; one whose handler returned on an open socket has had exactly one error, or a chunk and a result right after
   * it, all on that socket; and one whose handler returned without an open socket has had, and gets, none.
   */
  lemma ReplyDiscipline(handlers: set<string>, now: nat, es: seq<Event>, id: string)
    requires Run(Initial(handlers, now), es).Some?
    ensures var s := Run(Initial(handlers, now), es).value;
            && (id in s.running ==> id !in s.finished)
            && (if id in s.finished then RepliedAs(s.sent, id, s.finished[id]) else RepliesIn(s.sent, id) == [])
  {
    RunAnswers(Initial(handlers, now), es);
  }

  /** The handler's outcome and the socket that is open when it returns decide the reply. */
  lemma HandlerDecidesReply(s: State, id: string, ok: bool)
    requires Answered(s) && Possible(s, HandlerReturns(id, ok))
    ensures var t := Step(s, HandlerReturns(id, ok));
            && id in t.finished && t.finished[id] == Finish(ok, OpenSocket(s)) && RepliedAs(t.sent, id, t.finished[id])
            && forall i :: i != id ==> RepliesIn(t.sent, i) == RepliesIn(s.sent, i)
  {
    HandlerAnswers(s, id, ok);
    HandlerSends(s, id, ok);
    var more := ClosingFrames(OpenSocket(s), id, ok);
    forall i | i != id ensures RepliesIn(s.sent + more, i) == RepliesIn(s.sent, i) {
      RepliesConcat(s.sent, more, i);
      NoReplies(more, i);
    }
  }

  // ----- Which calls start a handler -----

  ghost predicate CalledFor(handlers: set<string>, es: seq<Event>, id: string)
  {
    exists g, adapter :: Receives(g, Call(id, adapter)) in es && adapter in handlers
  }

  /** Handlers run, and come back well, only for calls to a registered adapter. */
  ghost predicate Justified(s: State, t: State, es: seq<Event>)
  {
    && t.handlers == s.handlers
    && (forall id :: id in t.running ==> id in s.running || CalledFor(s.handlers, es, id))
    && (forall id :: id in t.finished && t.finished[id].ok ==>
          || (id in s.finished && s.finished[id].ok) || id in s.running || CalledFor(s.handlers, es, id))
  }

  /** A call starts its handler if and only if one is registered; otherwise it is refused on the open socket. */
  lemma CallStartsIff(s: State, g: nat, id: string, adapter: string)
    requires Possible(s, Receives(g, Call(id, adapter)))
    ensures var t := Step(s, Receives(g, Call(id, adapter)));
            && (id in t.running <==> adapter in s.handlers)
            && t.running == s.running + (if adapter in s.handlers then {id} else {})
            && (adapter in s.handlers ==> t.sent == s.sent && t.finished == s.finished)
            && (adapter !in s.handlers ==>
                  && t.finished == s.finished[id := Finish(false, OpenSocket(s))]
                  && match OpenSocket(s)
                     case Some(h) => t.sent == s.sent + [Sent(h, ErrorReply(id, "UNKNOWN_ADAPTER"))]
                     case None => t.sent == s.sent)
  {
    hide Send, GreetAll;
    var u := s.(socks := s.socks[g := s.socks[g].(greeters := [])]);
    assert OpenSocket(u) == OpenSocket(s);
    var v := u.(finished := u.finished[id := Finish(false, OpenSocket(u))]);
    assert OpenSocket(v) == OpenSocket(s);
    SendAppends(v, ErrorReply(id, "UNKNOWN_ADAPTER"));
    assert s.sent + [] == s.sent;
  }

  lemma FrameJustified(s: State, t: State, es: seq<Event>)
    requires t.handlers == s.handlers && t.running == s.running && t.finished == s.finished
    ensures Justified(s, t, es)
  {
  }

  lemma CallJustified(s: State, g: nat, id: string, adapter: string)
    requires Possible(s, Receives(g, Call(id, adapter)))
    ensures Justified(s, Step(s, Receives(g, Call(id, adapter))), [Receives(g, Call(id, adapter))])
  {
    var e := Receives(g, Call(id, adapter));
    CallStartsIff(s, g, id, adapter);
    assert Step(s, e).handlers == s.handlers;
    hide Step, Possible;
    assert e in [e];
    assert adapter in s.handlers ==> CalledFor(s.handlers, [e], id);
  }

  lemma DoneJustified(s: State, id: string, ok: bool)
    requires id in s.running
    ensures Justified(s, HandlerDone(s, id, ok), [HandlerReturns(id, ok)])
  {
    HandlerSends(s, id, ok);
  }

  lemma OtherMessageRuns(s: State, g: nat, m: Incoming)
    requires g < |s.socks| && !m.Call?
    ensures var t := Heard(s, g, m);
            t.handlers == s.handlers && t.running == s.running && t.finished == s.finished
  {
    hide OnReply;
  }

  lemma StepJustified(s: State, e: Event)
    requires Possible(s, e)
    ensures Justified(s, Step(s, e), [e])
  {
    hide Justified, OnOpen, OnClose, AfterStop, SendAdapterCall, HandlerDone, Fired, DoConnect, Heard, GreetAll;
    match e
    case Receives(g, Call(id, adapter)) => CallJustified(s, g, id, adapter);
    case Receives(g, m) =>
      if !m.NullMessage? {
        OtherMessageRuns(s, g, m);
      }
      FrameJustified(s, Step(s, e), [e]);
    case HandlerReturns(id, ok) => DoneJustified(s, id, ok);
    case _ => FrameJustified(s, Step(s, e), [e]);
  }

  lemma JustifiedOn(s: State, e: Event, t: State, u: State, es: seq<Event>)
    requires Justified(s, t, [e]) && Justified(t, u, es)
    ensures Justified(s, u, [e] + es)
  {
    forall id ensures CalledFor(s.handlers, [e], id) || CalledFor(s.handlers, es, id)
                      ==> CalledFor(s.handlers, [e] + es, id)
    {
      assert forall f :: f in [e] || f in es ==> f in [e] + es;
    }
  }

  lemma {:induction false} RunJustified(s: State, es: seq<Event>)
    requires Run(s, es).Some?
    ensures Justified(s, Run(s, es).value, es)
    decreases |es|
  {
    hide Justified, Step;
    if es == [] {
      NothingJustified(s);
    } else {
      var t := Step(s, es[0]);
      StepJustified(s, es[0]);
      RunJustified(t, es[1..]);
      JustifiedOn(s, es[0], t, Run(t, es[1..]).value, es[1..]);
      assert [es[0]] + es[1..] == es;
    }
  }

  lemma NothingJustified(s: State)
    ensures Justified(s, s, [])
  {
  }

  /** In every run, a handler runs or has returned well only for a call that arrived for a registered adapter. */
  lemma OnlyRegistered(handlers: set<string>, now: nat, es: seq<Event>, id: string)
    requires Run(Initial(handlers, now), es).Some?
    ensures var s := Run(Initial(handlers, now), es).value;
            id in s.running || (id in s.finished && s.finished[id].ok) ==>
              exists g, adapter :: Receives(g, Call(id, adapter)) in es && adapter in handlers
  {
    RunJustified(Initial(handlers, now), es);
  }
}
