/** The daemon's IPC endpoint: which requests it accepts and which frames answer an execute request. */
module IpcServing {
  import opened Text
  import opened JsonCodec
  import opened HttpReading

  datatype Request =
    | StatusRequest
    | CancelRequest(executionId: string, reason: string)
    | ExecuteRequest(requestId: string, command: string, params: Option<Json>)

  /** What the server does with one incoming message. `Crashed`: nobody awaits `handleMessage`, and it has thrown. */
  datatype Reaction =
    | Ignored
    | Crashed
    | Reply(frame: Json)
    | CancelAtGateway(executionId: string, reason: string)
    | Tunnel(requestId: string, command: string, params: Option<Json>)

  predicate AbsentOr(j: Json, key: string, ok: Json -> bool)
  {
    match Field(j, key) case None => true case Some(v) => ok(v)
  }

  /** The request a message validates as. Unknown types and schema violations are no request. */
  function ParseRequest(raw: Json): Option<Request>
  {
    if HasType(raw, "status") then Some(StatusRequest)
    else if HasType(raw, "execute") then
      match (Field(raw, "requestId"), Field(raw, "command"))
      case (Some(Str(id)), Some(Str(command))) =>
        if AbsentOr(raw, "params", (v: Json) => v.Obj?) && AbsentOr(raw, "stream", (v: Json) => v.Bool?)
        then Some(ExecuteRequest(id, command, Field(raw, "params")))
        else None
      case _ => None
    else if HasType(raw, "cancel") then
      match (Field(raw, "executionId"), Field(raw, "reason"))
      case (Some(Str(id)), None) => Some(CancelRequest(id, "user"))
      case (Some(Str(id)), Some(Str(reason))) => Some(CancelRequest(id, reason))
      case _ => None
    else None
  }

  function EventFrame(id: string, data: Json): Json
  {
    Obj(map["type" := Str("event"), "requestId" := Str(id), "data" := data])
  }

  function DoneFrame(id: string, result: Json): Json
  {
    Obj(map["type" := Str("done"), "requestId" := Str(id), "result" := result])
  }

  function ErrorFrame(id: string, code: string, message: string): Json
  {
    Obj(map["type" := Str("error"), "requestId" := Str(id), "code" := Str(code), "message" := Str(message)])
  }

  /** `tokenOk`: the token getter, which every request to the Gateway starts with, returns. */
  function HandleMessage(raw: Json, hasGateway: bool, tokenOk: bool, status: map<string, Json>): Reaction
  {
    match ParseRequest(raw)
    case None => Ignored
    case Some(StatusRequest) => Reply(Obj(map["type" := Str("status")] + status))
    case Some(CancelRequest(id, reason)) =>
      if !hasGateway then Ignored else if tokenOk then CancelAtGateway(id, reason) else Crashed
    case Some(ExecuteRequest(id, command, params)) =>
      if !hasGateway then Reply(ErrorFrame(id, "NO_GATEWAY", NO_GATEWAY))
      else if tokenOk then Tunnel(id, command, params)
      else Crashed
  }

  /** A message ends the process if and only if it is a valid execute or cancel request and the getter throws. */
  lemma MessageCrashesIff(raw: Json, hasGateway: bool, tokenOk: bool, status: map<string, Json>)
    ensures HandleMessage(raw, hasGateway, tokenOk, status) == Crashed
       <==> hasGateway && !tokenOk && ParseRequest(raw).Some? && !HasType(raw, "status")
  {
  }

  /** A status request is answered with every field of the status, the type, and nothing else. */
  lemma StatusReplyIs(raw: Json, hasGateway: bool, tokenOk: bool, status: map<string, Json>)
    requires "type" !in status
    ensures HandleMessage(raw, hasGateway, tokenOk, status).Reply? && !HasType(raw, "execute")
       <==> IsText(raw, "type", "status")
    ensures IsText(raw, "type", "status") ==>
              var frame := HandleMessage(raw, hasGateway, tokenOk, status).frame;
              && frame.Obj? && frame.fields.Keys == status.Keys + {"type"} && IsText(frame, "type", "status")
              && forall k :: k in status ==> Field(frame, k) == Some(status[k])
  {
  }

  /** Which messages cancel an execution at the Gateway, which one, and for which reason; without one it is `user`. */
  lemma CancelsIff(raw: Json, id: string, reason: string, status: map<string, Json>)
    ensures HandleMessage(raw, true, true, status) == CancelAtGateway(id, reason)
       <==> && IsText(raw, "type", "cancel") && IsText(raw, "executionId", id)
            && (IsText(raw, "reason", reason) || (Field(raw, "reason") == None && reason == "user"))
  {
  }

  /** Which messages are tunnelled, as what. */
  lemma TunnelsIff(raw: Json, id: string, command: string, params: Option<Json>, status: map<string, Json>)
    ensures HandleMessage(raw, true, true, status) == Tunnel(id, command, params)
       <==> && IsText(raw, "type", "execute") && IsText(raw, "requestId", id) && IsText(raw, "command", command)
            && params == Field(raw, "params") && (params.Some? ==> params.value.Obj?)
            && (Field(raw, "stream") == None || Field(raw, "stream").value.Bool?)
  {
  }

  /** Everything else is ignored, and so is a cancel request when there is no Gateway. */
  lemma IgnoredIff(raw: Json, hasGateway: bool, tokenOk: bool, status: map<string, Json>)
    ensures HandleMessage(raw, hasGateway, tokenOk, status) == Ignored
       <==> match HandleMessage(raw, true, true, status)
            case Reply(_) => !IsText(raw, "type", "status")
            case Tunnel(_, _, _) => false
            case CancelAtGateway(_, _) => !hasGateway
            case _ => true
  {
  }

  /** The frame sent to the IPC client for one callback of the tunnel. */
  function Forward(id: string, call: Callback): Json
  {
    match call
    case OnEvent(event) => EventFrame(id, event)
    case OnDone(result) => DoneFrame(id, result)
    case OnError(message) => ErrorFrame(id, "TUNNEL_ERROR", message)
  }

  function ForwardAll(id: string, calls: seq<Callback>): seq<Json>
  {
    if calls == [] then [] else [Forward(id, calls[0])] + ForwardAll(id, calls[1..])
  }

  // ----- What a whole response is answered with -----

  /** One event frame for each event, and a done frame behind the frame of each `execution:done`. */
  function FramesFor(id: string, events: seq<Json>): seq<Json>
  {
    if events == [] then []
    else if IsDone(events[0]) then
      [EventFrame(id, events[0])] + ([DoneFrame(id, events[0])] + FramesFor(id, events[1..]))
    else [EventFrame(id, events[0])] + FramesFor(id, events[1..])
  }

  function ErrorFrames(id: string, error: Option<string>): seq<Json>
  {
    match error case Some(message) => [ErrorFrame(id, "TUNNEL_ERROR", message)] case None => []
  }

  function Frames(codec: Codec, id: string, res: Response): seq<Json>
  {
    FramesFor(id, ResponseEvents(codec, res)) + ErrorFrames(id, ResponseError(res))
  }

  predicate HasFields(frame: Json, kind: string, id: string, keys: set<string>)
  {
    && frame.Obj? && frame.fields.Keys == keys
    && IsText(frame, "type", kind) && IsText(frame, "requestId", id)
  }

  /** What each callback puts on the wire. */
  lemma ForwardedAs(id: string, call: Callback)
    ensures var frame := Forward(id, call);
            match call
            case OnEvent(event) =>
              HasFields(frame, "event", id, {"type", "requestId", "data"}) && Field(frame, "data") == Some(event)
            case OnDone(result) =>
              HasFields(frame, "done", id, {"type", "requestId", "result"}) && Field(frame, "result") == Some(result)
            case OnError(message) =>
              && HasFields(frame, "error", id, {"type", "requestId", "code", "message"})
              && IsText(frame, "code", "TUNNEL_ERROR") && IsText(frame, "message", message)
  {
  }

  lemma {:induction false} ForwardConcat(id: string, a: seq<Callback>, b: seq<Callback>)
    ensures ForwardAll(id, a + b) == ForwardAll(id, a) + ForwardAll(id, b)
  {
    hide Forward;
    if a == [] {
      assert a + b == b;
    } else {
      ForwardConcat(id, a[1..], b);
      assert (a + b)[1..] == a[1..] + b;
      Regroup([Forward(id, a[0])], ForwardAll(id, a[1..]), ForwardAll(id, b));
    }
  }

  lemma ForwardOne(id: string, call: Callback)
    ensures ForwardAll(id, [call]) == [Forward(id, call)]
  {
    hide Forward;
    assert [call][1..] == [];
    assert [Forward(id, call)] + [] == [Forward(id, call)];
  }

  lemma ForwardTwo(id: string, a: Callback, b: Callback)
    ensures ForwardAll(id, [a, b]) == [Forward(id, a)] + [Forward(id, b)]
  {
    hide Forward;
    ForwardOne(id, b);
    assert [a, b][1..] == [b];
  }

  lemma {:induction false} ForwardEvents(id: string, events: seq<Json>)
    ensures ForwardAll(id, CallsForAll(events)) == FramesFor(id, events)
  {
    hide ForwardAll, EventFrame, DoneFrame, IsDone;
    if events == [] {
      assert ForwardAll(id, []) == [] by { ForwardNone(id); }
    } else {
      var e, rest := events[0], events[1..];
      ForwardEvents(id, rest);
      ForwardConcat(id, CallsFor(e), CallsForAll(rest));
      if IsDone(e) {
        assert CallsFor(e) == [OnEvent(e), OnDone(e)];
        ForwardTwo(id, OnEvent(e), OnDone(e));
        Regroup([EventFrame(id, e)], [DoneFrame(id, e)], FramesFor(id, rest));
      } else {
        assert CallsFor(e) == [OnEvent(e)];
        ForwardOne(id, OnEvent(e));
      }
    }
  }

  lemma ForwardNone(id: string)
    ensures ForwardAll(id, []) == []
  {
  }

  lemma ForwardError(id: string, error: Option<string>)
    ensures ForwardAll(id, ErrorCalls(error)) == ErrorFrames(id, error)
  {
    if error.Some? {
      ForwardOne(id, OnError(error.value));
    }
  }

  const NO_GATEWAY := "GatewayClient not configured — cannot tunnel execute requests"

  /**
   * `handleExecute`: with a Gateway, the frames of the response's events in order and then of its error, however the
   * body was cut; without one, an error frame. When the token getter throws, no request is made and no frame is sent,
   * and since nobody awaits `handleMessage`, the process is gone.
   */
  method HandleExecute(codec: Codec, hasGateway: bool, tokenOk: bool, id: string, res: Response)
    returns (frames: seq<Json>, crashed: bool)
    ensures crashed <==> hasGateway && !tokenOk
    ensures frames ==
      if !hasGateway then [ErrorFrame(id, "NO_GATEWAY", NO_GATEWAY)]
      else if tokenOk then Frames(codec, id, res)
      else []
  {
    crashed := false;
    if !hasGateway {
      return [ErrorFrame(id, "NO_GATEWAY", NO_GATEWAY)], false;
    }
    if !tokenOk {
      return [], true;
    }
    var calls := DoExecuteHttp(codec, res);
    frames := [];
    for i := 0 to |calls|
      invariant frames == ForwardAll(id, calls[..i])
    {
      ForwardConcat(id, calls[..i], [calls[i]]);
      ForwardOne(id, calls[i]);
      assert calls[..i + 1] == calls[..i] + [calls[i]];
      match calls[i]
      case OnEvent(event) => frames := frames + [EventFrame(id, event)];
      case OnDone(result) => frames := frames + [DoneFrame(id, result)];
      case OnError(message) => frames := frames + [ErrorFrame(id, "TUNNEL_ERROR", message)];
    }
    assert calls[..|calls|] == calls;
    ForwardConcat(id, CallsForAll(ResponseEvents(codec, res)), ErrorCalls(ResponseError(res)));
    ForwardEvents(id, ResponseEvents(codec, res));
    ForwardError(id, ResponseError(res));
  }
}
