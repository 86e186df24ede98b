/** Newline-delimited JSON framing of the local transport. */
module NdjsonFraming {
  import opened Text
  import opened JsonCodec

  const MAX_BUFFER_BYTES := 1024 * 1024

  /** What one line stands for: blank and malformed lines are dropped. */
  function Message(codec: Codec, line: string): Option<Json>
  {
    if Trim(line) == "" then None else codec.parse(line)
  }

  function Messages(codec: Codec, lines: seq<string>): seq<Json>
  {
    if lines == [] then []
    else match Message(codec, lines[0])
      case Some(m) => [m] + Messages(codec, lines[1..])
      case None => Messages(codec, lines[1..])
  }

  lemma {:induction false} MessagesConcat(codec: Codec, a: seq<string>, b: seq<string>)
    ensures Messages(codec, a + b) == Messages(codec, a) + Messages(codec, b)
  {
    if a == [] {
      assert a + b == b;
    } else {
      hide Message;
      MessagesConcat(codec, a[1..], b);
      assert (a + b)[1..] == a[1..] + b;
      if Message(codec, a[0]).Some? {
        Regroup([Message(codec, a[0]).value], Messages(codec, a[1..]), Messages(codec, b));
      }
    }
  }

  lemma MessagesNone(codec: Codec)
    ensures Messages(codec, []) == []
  {
  }

  lemma MessagesUpTo(codec: Codec, lines: seq<string>, i: nat)
    requires i < |lines|
    ensures Messages(codec, lines[..i + 1])
         == Messages(codec, lines[..i]) + match Message(codec, lines[i]) case Some(m) => [m] case None => []
  {
    hide Message;
    assert lines[..i + 1] == lines[..i] + [lines[i]];
    MessagesConcat(codec, lines[..i], [lines[i]]);
    assert [lines[i]][1..] == [];
  }

  // ----- The framer as a value -----

  /** A framer's buffered text and the messages it has handed to its callback, oldest first. */
  datatype Framer = Framer(buffer: string, delivered: seq<Json>)

  const EMPTY := Framer("", [])

  predicate Accepts(f: Framer, chunk: string)
  {
    ByteLength(f.buffer) + ByteLength(chunk) <= MAX_BUFFER_BYTES
  }

  function AfterFeed(codec: Codec, f: Framer, chunk: string): Framer
  {
    if !Accepts(f, chunk) then f
    else
      var lines := Split(f.buffer + chunk, '\n');
      Framer(Last(lines), f.delivered + Messages(codec, Init(lines)))
  }

  /** A connection feeds its chunks in turn until one is rejected; `None` when that happens. */
  function FeedAll(codec: Codec, f: Framer, chunks: seq<string>): Option<Framer>
    decreases |chunks|
  {
    if chunks == [] then Some(f)
    else if Accepts(f, chunks[0]) then FeedAll(codec, AfterFeed(codec, f, chunks[0]), chunks[1..])
    else None
  }

  // ----- The framer as the source has it -----

  /** The socket: whether it has been destroyed, and what it has been given to write. */
  class Socket {
    var destroyed: bool
    var written: string

    constructor ()
      ensures !destroyed && written == ""
    {
      destroyed, written := false, "";
    }
  }

  class NdjsonFramer {
    const codec: Codec
    var buffer: string
    var delivered: seq<Json>

    ghost function Value(): Framer
      reads this
    {
      Framer(buffer, delivered)
    }

    constructor (codec: Codec)
      ensures this.codec == codec && Value() == EMPTY
    {
      this.codec := codec;
      buffer, delivered := "", [];
    }

    method Feed(socket: Socket, chunk: string) returns (ok: bool)
      modifies this, socket
      ensures ok == Accepts(old(Value()), chunk)
      ensures Value() == AfterFeed(codec, old(Value()), chunk)
      ensures socket.destroyed == (old(socket.destroyed) || !ok) && socket.written == old(socket.written)
    {
      hide Split, ByteLength, Messages, Trim;
      if ByteLength(buffer) + ByteLength(chunk) > MAX_BUFFER_BYTES {
        socket.destroyed := true;
        return false;
      }
      buffer := buffer + chunk;
      var lines := Split(buffer, '\n');
      buffer := Last(lines);
      lines := Init(lines);
      MessagesNone(codec);
      assert delivered + [] == delivered;
      var i := 0;
      while i < |lines|
        invariant 0 <= i <= |lines|
        invariant buffer == Last(Split(old(buffer) + chunk, '\n'))
        invariant delivered == old(delivered) + Messages(codec, lines[..i])
        invariant socket.destroyed == old(socket.destroyed) && socket.written == old(socket.written)
      {
        MessagesUpTo(codec, lines, i);
        if Trim(lines[i]) != "" {
          match codec.parse(lines[i])
          case Some(parsed) => delivered := delivered + [parsed];
          case None =>
        }
        i := i + 1;
      }
      assert lines[..i] == lines;
      return true;
    }

    method Reset()
      modifies this
      ensures buffer == "" && delivered == old(delivered)
    {
      buffer := "";
    }
  }

  /** What a socket has been given to write after one more message. */
  function Written(codec: Codec, destroyed: bool, written: string, m: Json): string
  {
    if destroyed then written else written + codec.stringify(m) + "\n"
  }

  method WriteNdjson(codec: Codec, socket: Socket, m: Json)
    modifies socket
    ensures socket.written == Written(codec, old(socket.destroyed), old(socket.written), m)
    ensures socket.destroyed == old(socket.destroyed)
  {
    if !socket.destroyed {
      socket.written := socket.written + codec.stringify(m) + "\n";
    }
  }

  /** Everything written by sending `ms` one after the other on a live socket. */
  function Wire(codec: Codec, ms: seq<Json>): string
  {
    if ms == [] then "" else codec.stringify(ms[0]) + "\n" + Wire(codec, ms[1..])
  }

  lemma {:induction false} WireIsRepeatedWrite(codec: Codec, ms: seq<Json>, m: Json)
    ensures Wire(codec, ms + [m]) == Written(codec, false, Wire(codec, ms), m)
  {
    if ms == [] {
      assert Wire(codec, []) == "";
    } else {
      WireIsRepeatedWrite(codec, ms[1..], m);
      assert (ms + [m])[1..] == ms[1..] + [m];
    }
  }

  // ----- How a stream is cut into chunks does not matter -----

  /** The framer after the text `t`, however it arrived. */
  function AfterText(codec: Codec, t: string): Framer
  {
    Framer(Last(Split(t, '\n')), Messages(codec, Init(Split(t, '\n'))))
  }

  lemma FeedExtendsText(codec: Codec, t: string, chunk: string)
    requires Accepts(AfterText(codec, t), chunk)
    ensures AfterFeed(codec, AfterText(codec, t), chunk) == AfterText(codec, t + chunk)
  {
    hide Split, Messages, ByteLength;
    var done := Split(t, '\n');
    var more := Split(Last(done) + chunk, '\n');
    SplitResume(t, chunk, '\n');
    assert Init(Init(done) + more) == Init(done) + Init(more);
    MessagesConcat(codec, Init(done), Init(more));
  }

  lemma {:induction false} FeedAllFrom(codec: Codec, t: string, chunks: seq<string>)
    requires FeedAll(codec, AfterText(codec, t), chunks).Some?
    ensures FeedAll(codec, AfterText(codec, t), chunks) == Some(AfterText(codec, t + Concat(chunks)))
    decreases |chunks|
  {
    hide AfterText, Accepts, AfterFeed, Concat;
    if chunks == [] {
      assert t + Concat(chunks) == t by { EmptyConcat(t); }
    } else {
      FeedExtendsText(codec, t, chunks[0]);
      FeedAllFrom(codec, t + chunks[0], chunks[1..]);
      assert t + chunks[0] + Concat(chunks[1..]) == t + Concat(chunks) by { ConcatCons(t, chunks); }
    }
  }

  lemma EmptyConcat(t: string)
    ensures t + Concat([]) == t
  {
  }

  lemma ConcatCons(t: string, chunks: seq<string>)
    requires chunks != []
    ensures t + chunks[0] + Concat(chunks[1..]) == t + Concat(chunks)
  {
  }

  /** Accepted chunks deliver exactly the lines of their concatenation and buffer what follows the last newline. */
  lemma ChunkingIndependence(codec: Codec, chunks: seq<string>)
    requires FeedAll(codec, EMPTY, chunks).Some?
    ensures var lines := Split(Concat(chunks), '\n');
            FeedAll(codec, EMPTY, chunks) == Some(Framer(Last(lines), Messages(codec, Init(lines))))
  {
    assert AfterText(codec, "") == EMPTY;
    FeedAllFrom(codec, "", chunks);
    assert "" + Concat(chunks) == Concat(chunks);
  }

  /** A feed is accepted exactly when the unfinished line before it and the chunk fit the limit together. */
  predicate Fits(before: string, chunk: string)
  {
    ByteLength(Last(Split(before, '\n'))) + ByteLength(chunk) <= 1_048_576
  }

  lemma {:induction false} AcceptedFrom(codec: Codec, t: string, chunks: seq<string>)
    ensures FeedAll(codec, AfterText(codec, t), chunks).Some?
       <==> forall i :: 0 <= i < |chunks| ==> Fits(t + Concat(chunks[..i]), chunks[i])
    decreases |chunks|
  {
    if chunks == [] {
    } else {
      var u := t + chunks[0];
      assert chunks[..0] == [] && t + "" == t;
      forall i | 0 < i <= |chunks| ensures t + Concat(chunks[..i]) == u + Concat(chunks[1..][..i - 1]) {
        assert chunks[..i][1..] == chunks[1..][..i - 1];
      }
      if Fits(t, chunks[0]) {
        FeedExtendsText(codec, t, chunks[0]);
        AcceptedFrom(codec, u, chunks[1..]);
        forall i | 0 <= i < |chunks[1..]|
          ensures Fits(u + Concat(chunks[1..][..i]), chunks[1..][i]) == Fits(t + Concat(chunks[..i + 1]), chunks[i + 1])
        {
        }
        forall i | 0 < i < |chunks|
          ensures Fits(t + Concat(chunks[..i]), chunks[i]) == Fits(u + Concat(chunks[1..][..i - 1]), chunks[1..][i - 1])
        {
        }
      } else {
        assert !Fits(t + Concat(chunks[..0]), chunks[0]);
      }
    }
  }

  /** Exactly which streams get through: every chunk fits beside the line it continues. */
  lemma AcceptedIffEveryChunkFits(codec: Codec, chunks: seq<string>)
    ensures FeedAll(codec, EMPTY, chunks).Some?
       <==> forall i :: 0 <= i < |chunks| ==> Fits(Concat(chunks[..i]), chunks[i])
  {
    assert AfterText(codec, "") == EMPTY;
    AcceptedFrom(codec, "", chunks);
    forall i | 0 <= i < |chunks| ensures "" + Concat(chunks[..i]) == Concat(chunks[..i]) {
    }
  }

  /** A line that is blank or does not parse delivers nothing, wherever it stands. */
  lemma NoiseDropped(codec: Codec, before: seq<string>, noise: string, after: seq<string>)
    requires AllSpace(noise) || codec.parse(noise) == None
    ensures Messages(codec, before + [noise] + after) == Messages(codec, before + after)
  {
    if AllSpace(noise) {
      BlankTrims(noise);
    }
    assert [noise][1..] == [];
    assert Messages(codec, [noise]) == [];
    hide Message;
    MessagesConcat(codec, before, [noise]);
    MessagesConcat(codec, before + [noise], after);
    MessagesConcat(codec, before, after);
    assert Messages(codec, before) + [] == Messages(codec, before);
  }

  // ----- What is written is what is delivered -----

  lemma {:induction false} WireLines(codec: Codec, ms: seq<Json>)
    requires Lawful(codec)
    ensures |Split(Wire(codec, ms), '\n')| == |ms| + 1
    ensures Last(Split(Wire(codec, ms), '\n')) == ""
    ensures forall i :: 0 <= i < |ms| ==> Split(Wire(codec, ms), '\n')[i] == codec.stringify(ms[i])
    ensures Messages(codec, Init(Split(Wire(codec, ms), '\n'))) == ms
  {
    if ms == [] {
    } else {
      var head, tail := codec.stringify(ms[0]), Wire(codec, ms[1..]);
      WireLines(codec, ms[1..]);
      SplitCons(head, tail, '\n');
      assert Wire(codec, ms) == head + ['\n'] + tail;
      var lines := Split(tail, '\n');
      assert Init([head] + lines) == [head] + Init(lines);
      assert ([head] + Init(lines))[1..] == Init(lines);
      assert Message(codec, head) == Some(ms[0]);
    }
  }

  /** The unfinished line of a prefix is the beginning of a line of the whole text. */
  lemma UnfinishedLineBound(t: string, rest: string, limit: nat)
    requires forall p :: p in Split(t + rest, '\n') ==> ByteLength(p) <= limit
    ensures ByteLength(Last(Split(t, '\n'))) <= limit
  {
    hide Split, ByteLength;
    var x := Last(Split(t, '\n'));
    SplitPartsClean(t, '\n');
    assert '\n' !in x;
    SplitResume(t, rest, '\n');
    SplitResume(x, rest, '\n');
    SplitNoSeparator(x, '\n');
    var parts := Split(x + rest, '\n');
    assert parts[0] in Split(t + rest, '\n');
    FirstPartExtends(x, rest);
    ByteLengthConcat(x, parts[0][|x|..]);
    assert x + parts[0][|x|..] == parts[0];
  }

  lemma {:induction false} FirstPartExtends(x: string, rest: string)
    requires '\n' !in x
    ensures x <= Split(x + rest, '\n')[0]
  {
    if x == "" {
    } else {
      FirstPartExtends(x[1..], rest);
      assert (x + rest)[1..] == x[1..] + rest;
    }
  }

  lemma {:induction false} ConcatSplitAt(chunks: seq<string>, i: nat)
    requires i <= |chunks|
    ensures Concat(chunks) == Concat(chunks[..i]) + Concat(chunks[i..])
  {
    if i == 0 {
      assert chunks[0..] == chunks;
    } else {
      ConcatSplitAt(chunks[1..], i - 1);
      assert chunks[..i][1..] == chunks[1..][..i - 1];
      assert chunks[1..][i - 1..] == chunks[i..];
    }
  }

  /** Short enough lines in short enough chunks are never rejected. */
  lemma BoundedStreamAccepted(codec: Codec, chunks: seq<string>, longestLine: nat, longestChunk: nat)
    requires forall p :: p in Split(Concat(chunks), '\n') ==> ByteLength(p) <= longestLine
    requires forall c :: c in chunks ==> ByteLength(c) <= longestChunk
    requires longestLine + longestChunk <= 1_048_576
    ensures FeedAll(codec, EMPTY, chunks).Some?
  {
    forall i | 0 <= i < |chunks| ensures Fits(Concat(chunks[..i]), chunks[i]) {
      ConcatSplitAt(chunks, i);
      UnfinishedLineBound(Concat(chunks[..i]), Concat(chunks[i..]), longestLine);
      assert chunks[i] in chunks;
    }
    AcceptedIffEveryChunkFits(codec, chunks);
  }

  /**
   * NDJSON round trip: messages written with `writeNdjson`, cut anywhere, arrive as they were sent and leave the
   * buffer empty, as long as the longest line and the longest chunk together stay within the buffer limit.
   */
  lemma RoundTrip(codec: Codec, ms: seq<Json>, chunks: seq<string>, longestLine: nat, longestChunk: nat)
    requires Lawful(codec)
    requires Concat(chunks) == Wire(codec, ms)
    requires forall m :: m in ms ==> ByteLength(codec.stringify(m)) <= longestLine
    requires forall c :: c in chunks ==> ByteLength(c) <= longestChunk
    requires longestLine + longestChunk <= 1_048_576
    ensures FeedAll(codec, EMPTY, chunks) == Some(Framer("", ms))
  {
    WireLines(codec, ms);
    WireLinesShort(codec, ms, longestLine);
    BoundedStreamAccepted(codec, chunks, longestLine, longestChunk);
    ChunkingIndependence(codec, chunks);
  }

  lemma WireLinesShort(codec: Codec, ms: seq<Json>, longestLine: nat)
    requires Lawful(codec) && forall m :: m in ms ==> ByteLength(codec.stringify(m)) <= longestLine
    ensures forall p :: p in Split(Wire(codec, ms), '\n') ==> ByteLength(p) <= longestLine
  {
    hide Split, Wire, Messages, Lawful;
    WireLines(codec, ms);
    var lines := Split(Wire(codec, ms), '\n');
    forall p | p in lines ensures ByteLength(p) <= longestLine {
      var i :| 0 <= i < |lines| && lines[i] == p;
      if i < |ms| {
        assert ms[i] in ms;
      } else {
        assert p == "";
      }
    }
  }
}
