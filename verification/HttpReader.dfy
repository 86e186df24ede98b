/** The HTTP side of the execute tunnel: reading a Gateway response as a stream of JSON lines. */
module HttpReading {
  import opened Text
  import opened JsonCodec

  /** One call the reader makes on the callbacks it was given. */
  datatype Callback = OnEvent(event: Json) | OnDone(result: Json) | OnError(message: string)

  /** How the request went. `failure` is the error that broke the body off after `chunks`, if one did. */
  datatype Response =
    | FetchFailed(message: string)
    | Refused(status: nat, text: string)
    | NoBody
    | Streaming(chunks: seq<string>, failure: Option<string>)

  // ----- What a response text means -----

  /** The event on one line. Surrounding white space does not matter, blank and malformed lines are none. */
  function EventOn(codec: Codec, line: string): Option<Json>
  {
    var trimmed := Trim(line);
    if trimmed == "" then None else codec.parse(trimmed)
  }

  function Events(codec: Codec, lines: seq<string>): seq<Json>
  {
    if lines == [] then []
    else match EventOn(codec, lines[0])
      case Some(e) => [e] + Events(codec, lines[1..])
      case None => Events(codec, lines[1..])
  }

  predicate IsDone(event: Json)
  {
    HasType(event, "execution:done")
  }

  function CallsFor(event: Json): seq<Callback>
  {
    [OnEvent(event)] + if IsDone(event) then [OnDone(event)] else []
  }

  function CallsForAll(events: seq<Json>): seq<Callback>
  {
    if events == [] then [] else CallsFor(events[0]) + CallsForAll(events[1..])
  }

  lemma {:induction false} EventsConcat(codec: Codec, a: seq<string>, b: seq<string>)
    ensures Events(codec, a + b) == Events(codec, a) + Events(codec, b)
  {
    if a == [] {
      assert a + b == b;
    } else {
      hide EventOn;
      EventsConcat(codec, a[1..], b);
      assert (a + b)[1..] == a[1..] + b;
      if EventOn(codec, a[0]).Some? {
        Regroup([EventOn(codec, a[0]).value], Events(codec, a[1..]), Events(codec, b));
      }
    }
  }

  lemma {:induction false} CallsConcat(a: seq<Json>, b: seq<Json>)
    ensures CallsForAll(a + b) == CallsForAll(a) + CallsForAll(b)
  {
    if a == [] {
      assert a + b == b;
    } else {
      hide IsDone, CallsFor;
      CallsConcat(a[1..], b);
      assert (a + b)[1..] == a[1..] + b;
      Regroup(CallsFor(a[0]), CallsForAll(a[1..]), CallsForAll(b));
    }
  }

  lemma CallsNone(codec: Codec)
    ensures CallsForAll([]) == [] && CallsForAll(Events(codec, Init(Split("", '\n')))) == []
    ensures Last(Split("", '\n')) == ""
  {
  }

  lemma CallsSnoc(codec: Codec, lines: seq<string>, line: string)
    ensures CallsForAll(Events(codec, lines + [line]))
         == CallsForAll(Events(codec, lines)) + CallsForAll(Events(codec, [line]))
  {
    EventsConcat(codec, lines, [line]);
    CallsConcat(Events(codec, lines), Events(codec, [line]));
  }

  /** The events of a whole response text: its last line counts whether a newline ends it or not. */
  function TextEvents(codec: Codec, text: string): seq<Json>
  {
    Events(codec, Split(text, '\n'))
  }

  // ----- The reader -----

  method ReadLine(codec: Codec, line: string) returns (calls: seq<Callback>)
    ensures calls == CallsForAll(Events(codec, [line]))
  {
    calls := [];
    var trimmed := Trim(line);
    if trimmed != "" {
      match codec.parse(trimmed)
      case Some(event) =>
        calls := [OnEvent(event)];
        if HasType(event, "execution:done") {
          calls := calls + [OnDone(event)];
        }
      case None =>
    }
  }

  method ReadLines(codec: Codec, lines: seq<string>) returns (calls: seq<Callback>)
    ensures calls == CallsForAll(Events(codec, lines))
  {
    calls := [];
    for i := 0 to |lines|
      invariant calls == CallsForAll(Events(codec, lines[..i]))
    {
      var more := ReadLine(codec, lines[i]);
      CallsSnoc(codec, lines[..i], lines[i]);
      assert lines[..i + 1] == lines[..i] + [lines[i]];
      calls := calls + more;
    }
    assert lines[..|lines|] == lines;
  }

  /** The events a response carries: all lines of a body that ended, the complete lines of one that broke off. */
  function ResponseEvents(codec: Codec, res: Response): seq<Json>
  {
    match res
    case Streaming(chunks, None) => TextEvents(codec, Concat(chunks))
    case Streaming(chunks, Some(_)) => Events(codec, Init(Split(Concat(chunks), '\n')))
    case _ => []
  }

  function ResponseError(res: Response): Option<string>
  {
    match res
    case FetchFailed(message) => Some(message)
    case Refused(status, text) => Some("Gateway HTTP " + Decimal(status) + ": " + text)
    case NoBody => Some("Gateway returned no response body")
    case Streaming(_, failure) => failure
  }

  function ErrorCalls(error: Option<string>): seq<Callback>
  {
    match error case Some(message) => [OnError(message)] case None => []
  }

  // ----- What the callbacks come to -----

  /** The errors among the callbacks, in order. */
  function Errors(calls: seq<Callback>): seq<string>
  {
    if calls == [] then []
    else if calls[0].OnError? then [calls[0].message] + Errors(calls[1..])
    else Errors(calls[1..])
  }

  /** The events among the callbacks, in order. */
  function Reported(calls: seq<Callback>): seq<Json>
  {
    if calls == [] then []
    else if calls[0].OnEvent? then [calls[0].event] + Reported(calls[1..])
    else Reported(calls[1..])
  }

  predicate DoneBehind(calls: seq<Callback>, i: nat)
    requires i < |calls|
  {
    && (calls[i].OnEvent? ==>
          (Field(calls[i].event, "type") == Some(Str("execution:done"))
           <==> i + 1 < |calls| && calls[i + 1] == OnDone(calls[i].event)))
    && (calls[i].OnDone? ==> i > 0 && calls[i - 1] == OnEvent(calls[i].result))
  }

  /** `onDone` is called right behind the event of each `execution:done`, with that event, and nowhere else. */
  predicate DonesInPlace(calls: seq<Callback>)
  {
    forall i :: 0 <= i < |calls| ==> DoneBehind(calls, i)
  }

  /** The callbacks for one event in front of others that are in place. */
  lemma CallsInFront(event: Json, rest: seq<Callback>)
    requires DonesInPlace(rest) && (rest != [] ==> !rest[0].OnDone?)
    ensures DonesInPlace(CallsFor(event) + rest)
  {
    var first := CallsFor(event);
    var calls := first + rest;
    assert calls[0] == OnEvent(event);
    forall i | 0 <= i < |calls| ensures DoneBehind(calls, i) {
      if i >= |first| {
        assert DoneBehind(rest, i - |first|);
      }
    }
  }

  lemma CallsAdd(event: Json, rest: seq<Callback>)
    ensures Reported(CallsFor(event) + rest) == [event] + Reported(rest)
    ensures Errors(CallsFor(event) + rest) == Errors(rest)
    ensures (CallsFor(event) + rest)[0] == OnEvent(event)
  {
    var calls := CallsFor(event) + rest;
    if IsDone(event) {
      assert calls[1..] == [OnDone(event)] + rest && calls[1..][1..] == rest;
    } else {
      assert calls[1..] == rest;
    }
  }

  lemma {:induction false} CallsInPlace(events: seq<Json>, error: Option<string>)
    ensures var calls := CallsForAll(events) + ErrorCalls(error);
            && Reported(calls) == events && DonesInPlace(calls)
            && Errors(calls) == match error { case Some(message) => [message] case None => [] }
            && (calls != [] ==> !calls[0].OnDone?)
  {
    var calls := CallsForAll(events) + ErrorCalls(error);
    if events == [] {
      assert calls == ErrorCalls(error);
      assert error.Some? ==> calls[1..] == [];
    } else {
      hide DonesInPlace, CallsFor, Reported, Errors, ErrorCalls;
      var rest := CallsForAll(events[1..]) + ErrorCalls(error);
      CallsInPlace(events[1..], error);
      Regroup(CallsFor(events[0]), CallsForAll(events[1..]), ErrorCalls(error));
      CallsInFront(events[0], rest);
      CallsAdd(events[0], rest);
    }
  }

  /**
   * What is reported, by cases: a request that fails, an HTTP error and a missing body are one error with their text;
   * a body is reported event by event, and an error comes last, if and only if the body broke off.
   */
  lemma ResponseReported(codec: Codec, res: Response)
    ensures var calls := CallsForAll(ResponseEvents(codec, res)) + ErrorCalls(ResponseError(res));
            match res
            case FetchFailed(message) => calls == [OnError(message)]
            case Refused(status, text) => calls == [OnError("Gateway HTTP " + Decimal(status) + ": " + text)]
            case NoBody => calls == [OnError("Gateway returned no response body")]
            case Streaming(_, failure) =>
              && Reported(calls) == ResponseEvents(codec, res) && DonesInPlace(calls)
              && Errors(calls) == (match failure { case Some(message) => [message] case None => [] })
              && (failure.Some? ==> calls != [] && Last(calls) == OnError(failure.value))
  {
    hide Decimal;
    CallsInPlace(ResponseEvents(codec, res), ResponseError(res));
  }

  /** The text a Gateway writes: each event on its own line, perhaps between white space such as `\r`. */
  function Body(codec: Codec, events: seq<Json>, lead: string, pad: string): string
  {
    if events == [] then ""
    else lead + codec.stringify(events[0]) + pad + "\n" + Body(codec, events[1..], lead, pad)
  }

  /** White space that may stand around an event on its line. */
  predicate Blank(s: string)
  {
    AllSpace(s) && '\n' !in s
  }

  lemma {:induction false} BodyLines(codec: Codec, events: seq<Json>, lead: string, pad: string, tail: string)
    requires Lawful(codec) && Blank(lead) && Blank(pad) && '\n' !in tail
    ensures var lines := Split(Body(codec, events, lead, pad) + tail, '\n');
            Last(lines) == tail && Events(codec, Init(lines)) == events
  {
    hide EventOn;
    if events == [] {
      assert Body(codec, events, lead, pad) + tail == tail;
      SplitNoSeparator(tail, '\n');
    } else {
      var line := lead + codec.stringify(events[0]) + pad;
      var rest := Body(codec, events[1..], lead, pad) + tail;
      assert Body(codec, events, lead, pad) + tail == line + ['\n'] + rest;
      BodyLines(codec, events[1..], lead, pad, tail);
      SplitCons(line, rest, '\n');
      var lines := Split(rest, '\n');
      assert Init([line] + lines) == [line] + Init(lines) && ([line] + Init(lines))[1..] == Init(lines);
      assert EventOn(codec, line) == Some(events[0]) by { PaddedEvent(codec, events[0], lead, pad); }
    }
  }

  lemma PaddedEvent(codec: Codec, event: Json, lead: string, pad: string)
    requires Lawful(codec) && AllSpace(lead) && AllSpace(pad)
    ensures EventOn(codec, lead + codec.stringify(event) + pad) == Some(event)
  {
    TrimDropsBoth(lead, codec.stringify(event), pad);
  }

  /**
   * What a Gateway writes line by line is read back, however it is cut, with any white space around the events: every
   * event whose line is complete; and if the body ends, rather than breaks off, an unterminated last one too.
   */
  lemma WrittenIsRead(codec: Codec, events: seq<Json>, lead: string, pad: string, tail: string, chunks: seq<string>,
                      failure: Option<string>)
    requires Lawful(codec) && Blank(lead) && Blank(pad) && '\n' !in tail
    requires Concat(chunks) == Body(codec, events, lead, pad) + tail
    ensures var read := ResponseEvents(codec, Streaming(chunks, failure));
            && (failure.Some? || tail == "" ==> read == events)
            && (forall e :: failure == None && tail == codec.stringify(e) ==> read == events + [e])
  {
    BodyRead(codec, events, lead, pad, tail);
    TailRead(codec, tail);
    hide Lawful, Blank, Events, Split, Body, Concat;
    assert events + [] == events;
  }

  lemma BodyRead(codec: Codec, events: seq<Json>, lead: string, pad: string, tail: string)
    requires Lawful(codec) && Blank(lead) && Blank(pad) && '\n' !in tail
    ensures var lines := Split(Body(codec, events, lead, pad) + tail, '\n');
            Events(codec, Init(lines)) == events && Events(codec, lines) == events + Events(codec, [tail])
  {
    BodyLines(codec, events, lead, pad, tail);
    var lines := Split(Body(codec, events, lead, pad) + tail, '\n');
    InitAndLast(lines);
    hide Lawful, Blank, AllSpace, Events, EventOn, Split, Body, Init, Last;
    EventsConcat(codec, Init(lines), [tail]);
  }

  lemma TailRead(codec: Codec, tail: string)
    requires Lawful(codec)
    ensures tail == "" ==> Events(codec, [tail]) == []
    ensures forall e :: tail == codec.stringify(e) ==> Events(codec, [tail]) == [e]
  {
    assert [tail][1..] == [];
    forall e | tail == codec.stringify(e) ensures EventOn(codec, tail) == Some(e) {
      PaddedEvent(codec, e, "", "");
      assert "" + tail + "" == tail;
    }
  }

  /** A line that is blank or does not parse is no event, wherever it stands. */
  lemma NoiseIgnored(codec: Codec, before: seq<string>, noise: string, after: seq<string>)
    requires AllSpace(noise) || codec.parse(Trim(noise)) == None
    ensures Events(codec, before + [noise] + after) == Events(codec, before + after)
  {
    if AllSpace(noise) {
      BlankTrims(noise);
    }
    assert [noise][1..] == [];
    assert Events(codec, [noise]) == [];
    hide EventOn;
    EventsConcat(codec, before, [noise]);
    EventsConcat(codec, before + [noise], after);
    EventsConcat(codec, before, after);
    assert Events(codec, before) + [] == Events(codec, before);
  }

  /** For every response and every way its body is cut: the callbacks of its events in order, then its error if any. */
  method DoExecuteHttp(codec: Codec, res: Response) returns (calls: seq<Callback>)
    ensures calls == CallsForAll(ResponseEvents(codec, res)) + ErrorCalls(ResponseError(res))
  {
    hide Split, Events, CallsForAll, Decimal;
    CallsNone(codec);
    match res
    case FetchFailed(message) => calls := [OnError(message)];
    case Refused(status, text) => calls := [OnError("Gateway HTTP " + Decimal(status) + ": " + text)];
    case NoBody => calls := [OnError("Gateway returned no response body")];
    case Streaming(chunks, failure) =>
      var buffer := "";
      calls := [];
      var i := 0;
      while i < |chunks|
        invariant 0 <= i <= |chunks|
        invariant buffer == Last(Split(Concat(chunks[..i]), '\n'))
        invariant calls == CallsForAll(Events(codec, Init(Split(Concat(chunks[..i]), '\n'))))
      {
        ReadExtends(codec, chunks, i);
        buffer := buffer + chunks[i];
        var lines := Split(buffer, '\n');
        buffer := Last(lines);
        lines := Init(lines);
        var more := ReadLines(codec, lines);
        calls := calls + more;
        i := i + 1;
      }
      assert chunks[..i] == chunks;
      match failure {
        case Some(message) => calls := calls + [OnError(message)];
        case None =>
          ghost var lines := Split(Concat(chunks), '\n');
          CallsSnoc(codec, Init(lines), Last(lines));
          assert Init(lines) + [Last(lines)] == lines;
          var more := ReadLine(codec, buffer);
          calls := calls + more;
      }
  }

  /** One more chunk completes the buffered line and leaves the earlier lines as they were. */
  lemma ReadExtends(codec: Codec, chunks: seq<string>, i: nat)
    requires i < |chunks|
    ensures var before := Split(Concat(chunks[..i]), '\n');
            var more := Split(Last(before) + chunks[i], '\n');
            var all := Split(Concat(chunks[..i + 1]), '\n');
            && Last(all) == Last(more)
            && CallsForAll(Events(codec, Init(all)))
               == CallsForAll(Events(codec, Init(before))) + CallsForAll(Events(codec, Init(more)))
  {
    hide Split, Events, CallsForAll;
    assert chunks[..i + 1] == chunks[..i] + [chunks[i]];
    ConcatSnoc(chunks[..i], chunks[i]);
    SplitResume(Concat(chunks[..i]), chunks[i], '\n');
    var before := Split(Concat(chunks[..i]), '\n');
    var more := Split(Last(before) + chunks[i], '\n');
    assert Init(Split(Concat(chunks[..i + 1]), '\n')) == Init(before) + Init(more);
    EventsConcat(codec, Init(before), Init(more));
    CallsConcat(Events(codec, Init(before)), Events(codec, Init(more)));
  }
}
