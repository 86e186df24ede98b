/** Reading back the output of the search tools: lines of the form `file:line:content`. */
module GrepLines {
  import opened Text

  datatype Match = Match(file: string, line: nat, content: string)

  datatype GrepResult = GrepResult(matches: seq<Match>, truncated: bool, totalMatches: nat)

  /** What `.` in the pattern does not match. */
  predicate IsTerminator(c: char)
  {
    c == '\n' || c == '\r' || c == '\U{2028}' || c == '\U{2029}'
  }

  predicate OneLine(s: string)
  {
    forall c :: c in s ==> !IsTerminator(c)
  }

  // ----- The pattern ^(.+?):(\d+):(.*)$ -----

  /** Where the run of digits that starts at `i` ends. */
  function DigitsEnd(s: string, i: nat): (j: nat)
    requires i <= |s|
    ensures i <= j <= |s| && (j < |s| ==> !IsDigit(s[j]))
    ensures forall k :: i <= k < j ==> IsDigit(s[k])
    decreases |s| - i
  {
    if i < |s| && IsDigit(s[i]) then DigitsEnd(s, i + 1) else i
  }

  /** `:digits:` starts at `i`. */
  predicate NumberAt(s: string, i: nat)
  {
    && i < |s| && s[i] == ':'
    && var j := DigitsEnd(s, i + 1);
       j > i + 1 && j < |s| && s[j] == ':'
  }

  /** The pattern matches with a first group of `i` characters. */
  predicate MatchesAt(s: string, i: nat)
  {
    i >= 1 && NumberAt(s, i) && OneLine(s[..i]) && OneLine(s[DigitsEnd(s, i + 1) + 1..])
  }

  /** The groups of a match: the first one is lazy, so the shortest that works is taken. */
  function ParseFrom(s: string, i: nat): Option<Match>
    decreases |s| - i
  {
    if i >= |s| then None
    else if MatchesAt(s, i) then
      var j := DigitsEnd(s, i + 1);
      Some(Match(s[..i], ParseDecimal(s[i + 1..j]), s[j + 1..]))
    else ParseFrom(s, i + 1)
  }

  function ParseLine(s: string): Option<Match>
  {
    ParseFrom(s, 1)
  }

  function Print(m: Match): string
  {
    m.file + ":" + Decimal(m.line) + ":" + m.content
  }

  // ----- One line -----

  /** The file name, with the colon after it, contains something that reads like a line number. */
  predicate Ambiguous(file: string)
  {
    exists i :: 1 <= i < |file| && NumberAt(file + ":", i)
  }

  /** A colon stops the digits, whatever follows it. */
  lemma {:induction false} DigitsStop(a: string, b: string, i: nat)
    requires i <= |a|
    ensures DigitsEnd(a + ":" + b, i) == DigitsEnd(a + ":", i) <= |a|
    decreases |a| - i
  {
    var s, t := a + ":" + b, a + ":";
    if i < |a| {
      assert s[i] == t[i] == a[i];
      DigitsStop(a, b, i + 1);
    } else {
      assert s[i] == ':' && t[i] == ':';
    }
  }

  lemma NumberBeforeColon(a: string, b: string, i: nat)
    requires i < |a|
    ensures NumberAt(a + ":" + b, i) <==> NumberAt(a + ":", i)
  {
    DigitsStop(a, b, i + 1);
    var s, t := a + ":" + b, a + ":";
    assert forall k :: 0 <= k <= |a| ==> s[k] == t[k];
  }

  lemma {:induction false} DigitsAll(s: string, i: nat, j: nat)
    requires i <= j < |s| && s[j] == ':' && forall k :: i <= k < j ==> IsDigit(s[k])
    ensures DigitsEnd(s, i) == j
    decreases j - i
  {
    if i < j {
      DigitsAll(s, i + 1, j);
    }
  }

  /** The true first group matches, with the true groups after it. */
  lemma TrueSplitMatches(m: Match)
    requires m.file != "" && OneLine(m.file) && OneLine(m.content)
    ensures var s := Print(m);
            && |m.file| < |s| && MatchesAt(s, |m.file|)
            && s[..|m.file|] == m.file
            && var j := DigitsEnd(s, |m.file| + 1);
            && s[|m.file| + 1..j] == Decimal(m.line) && s[j + 1..] == m.content
  {
    var s, d := Print(m), Decimal(m.line);
    DecimalRoundTrip(m.line);
    var i := |m.file|;
    var j := i + 1 + |d|;
    assert s[i + 1..j] == d;
    forall k | i + 1 <= k < j ensures IsDigit(s[k]) {
      assert s[k] == d[k - i - 1] && d[k - i - 1] in d;
    }
    assert s[j] == ':';
    DigitsAll(s, i + 1, j);
    assert s[..i] == m.file && s[j + 1..] == m.content;
  }

  /** The first `:digits:` inside the file name, if there is one, is a match too. */
  lemma EarlierSplit(m: Match, i: nat)
    requires m.file != "" && OneLine(m.file) && OneLine(m.content) && 1 <= i < |m.file|
    ensures MatchesAt(Print(m), i) <==> NumberAt(m.file + ":", i)
  {
    var s, d := Print(m), Decimal(m.line);
    var rest := d + ":" + m.content;
    assert s == m.file + ":" + rest;
    NumberBeforeColon(m.file, rest, i);
    DigitsStop(m.file, rest, i + 1);
    DecimalRoundTrip(m.line);
    forall c | c in s ensures !IsTerminator(c) {
      assert c in m.file || c == ':' || c in d || c in m.content;
    }
    forall c | c in s[..i] ensures !IsTerminator(c) {
      assert c in s;
    }
    var j := DigitsEnd(s, i + 1);
    forall c | j < |s| && c in s[j + 1..] ensures !IsTerminator(c) {
      assert c in s;
    }
  }

  lemma {:induction false} ParseFindsFirst(s: string, from: nat, i: nat)
    requires from <= i < |s| && MatchesAt(s, i)
    requires forall k :: from <= k < i ==> !MatchesAt(s, k)
    ensures ParseFrom(s, from)
         == Some(Match(s[..i], ParseDecimal(s[i + 1..DigitsEnd(s, i + 1)]), s[DigitsEnd(s, i + 1) + 1..]))
    decreases i - from
  {
    if from < i {
      ParseFindsFirst(s, from + 1, i);
    }
  }

  lemma {:induction false} ParseShortest(s: string, from: nat, i: nat)
    requires from <= i < |s| && MatchesAt(s, i)
    ensures ParseFrom(s, from).Some? && |ParseFrom(s, from).value.file| <= i
    decreases i - from
  {
    if from < i && !MatchesAt(s, from) {
      ParseShortest(s, from + 1, i);
    }
  }

  /**
   * Round trip: a printed match is read back as it was if and only if its file name, with the colon after it, contains
   * no `:digits:` behind its first character.
   */
  lemma LineRoundTrip(m: Match)
    requires m.file != "" && OneLine(m.file) && OneLine(m.content)
    ensures ParseLine(Print(m)) == Some(m) <==> !Ambiguous(m.file)
  {
    var s := Print(m);
    TrueSplitMatches(m);
    DecimalRoundTrip(m.line);
    if Ambiguous(m.file) {
      var i :| 1 <= i < |m.file| && NumberAt(m.file + ":", i);
      EarlierSplit(m, i);
      ParseShortest(s, 1, i);
    } else {
      forall k | 1 <= k < |m.file| ensures !MatchesAt(s, k) {
        EarlierSplit(m, k);
      }
      ParseFindsFirst(s, 1, |m.file|);
    }
  }

  /** A match in a file `a:number:b` is read as one in file `a`: the two print alike. */
  lemma NumberInFileName(a: string, n: nat, b: string, line: nat, content: string)
    requires a != "" && OneLine(a) && OneLine(b) && OneLine(content) && !Ambiguous(a)
    ensures ParseLine(Print(Match(a + ":" + Decimal(n) + ":" + b, line, content)))
         == Some(Match(a, n, b + ":" + Decimal(line) + ":" + content))
  {
    var read := Match(a, n, b + ":" + Decimal(line) + ":" + content);
    DecimalRoundTrip(line);
    assert Print(Match(a + ":" + Decimal(n) + ":" + b, line, content)) == Print(read);
    hide Print, Decimal, ParseLine;
    forall c | c in read.content ensures !IsTerminator(c) {
      assert c in b || c == ':' || c in Decimal(line) || c in content;
    }
    LineRoundTrip(read);
  }

  /** A line is read if and only if it is one line and `:digits:` stands somewhere behind its first character. */
  lemma ReadIff(s: string)
    ensures ParseLine(s).Some? <==>
              && (forall c :: c in s ==> c as int !in {0x0A, 0x0D, 0x2028, 0x2029})
              && (exists i :: 1 <= i < |s| && NumberAt(s, i))
  {
    if ParseLine(s).Some? {
      var i := MatchedAt(s, 1);
      var j := DigitsEnd(s, i + 1);
      forall c | c in s ensures !IsTerminator(c) {
        var k :| 0 <= k < |s| && s[k] == c;
        if k < i {
          assert c in s[..i];
        } else if k > j {
          assert s[j + 1..][k - j - 1] == c;
        }
      }
    }
    if i :| 1 <= i < |s| && NumberAt(s, i) && forall c :: c in s ==> !IsTerminator(c) {
      ParseShortest(s, 1, i);
    }
  }

  lemma {:induction false} MatchedAt(s: string, from: nat) returns (i: nat)
    requires ParseFrom(s, from).Some?
    ensures from <= i < |s| && MatchesAt(s, i)
    decreases |s| - from
  {
    if MatchesAt(s, from) {
      i := from;
    } else {
      i := MatchedAt(s, from + 1);
    }
  }

  // ----- The whole output -----

  function Parsed(lines: seq<string>): seq<Match>
  {
    if lines == [] then []
    else match ParseLine(lines[0])
      case Some(m) => [m] + Parsed(lines[1..])
      case None => Parsed(lines[1..])
  }

  function NonEmpty(lines: seq<string>): seq<string>
  {
    if lines == [] then []
    else if lines[0] != "" then [lines[0]] + NonEmpty(lines[1..])
    else NonEmpty(lines[1..])
  }

  lemma {:induction false} ParsedSnoc(lines: seq<string>, line: string)
    ensures Parsed(lines + [line]) == Parsed(lines) + match ParseLine(line) case Some(m) => [m] case None => []
  {
    if lines == [] {
      assert [line][1..] == [];
    } else {
      ParsedSnoc(lines[1..], line);
      assert (lines + [line])[1..] == lines[1..] + [line];
    }
  }

  /** The matches in the tool's output. */
  function ReadBack(stdout: string): seq<Match>
  {
    Parsed(NonEmpty(Split(Trim(stdout), '\n')))
  }

  /** What `grep` makes of the tool's output. */
  method ReadOutput(stdout: string, maxResults: nat) returns (result: GrepResult)
    ensures var all := ReadBack(stdout);
            && result.totalMatches == |all| && (result.truncated <==> |all| >= maxResults)
            && result.matches == if |all| <= maxResults then all else all[..maxResults]
  {
    var lines := NonEmpty(Split(Trim(stdout), '\n'));
    var matches: seq<Match> := [];
    for i := 0 to |lines|
      invariant matches == Parsed(lines[..i])
    {
      ParsedSnoc(lines[..i], lines[i]);
      assert lines[..i + 1] == lines[..i] + [lines[i]];
      match ParseLine(lines[i])
      case Some(m) => matches := matches + [m];
      case None =>
    }
    assert lines[..|lines|] == lines;
    var kept := if |matches| <= maxResults then matches else matches[..maxResults];
    result := GrepResult(kept, |matches| >= maxResults, |matches|);
  }

  /** What the tool prints for a list of matches. */
  function Output(ms: seq<Match>): string
  {
    if ms == [] then "" else Print(ms[0]) + "\n" + Output(ms[1..])
  }

  /** A match as the tool finds it: in a file with an unambiguous name, on a line that may end in a carriage return. */
  predicate Findable(m: Match)
  {
    m.file != "" && OneLine(m.file) && !Ambiguous(m.file) && '\n' !in m.content
  }

  predicate Readable(m: Match)
  {
    Findable(m) && OneLine(m.content)
  }

  /** The content holds a carriage return or a Unicode line or paragraph separator. */
  predicate Broken(m: Match)
  {
    exists c :: c in m.content && c as int in {0x0D, 0x2028, 0x2029}
  }

  /** The matches that are not. */
  function Kept(ms: seq<Match>): seq<Match>
  {
    if ms == [] then []
    else if Broken(ms[0]) then Kept(ms[1..])
    else [ms[0]] + Kept(ms[1..])
  }

  lemma {:induction false} ReadableKept(ms: seq<Match>)
    requires forall m :: m in ms ==> Readable(m)
    ensures Kept(ms) == ms
  {
    if ms == [] {
    } else {
      assert ms[0] in ms;
      ReadableKept(ms[1..]);
    }
  }

  function Printed(ms: seq<Match>): seq<string>
  {
    if ms == [] then [] else [Print(ms[0])] + Printed(ms[1..])
  }

  lemma PrintOneLine(m: Match)
    requires Findable(m)
    ensures Print(m) != "" && '\n' !in Print(m)
    ensures OneLine(Print(m)) <==> OneLine(m.content)
  {
    DecimalRoundTrip(m.line);
    forall c | c in Print(m) ensures c in m.content || !IsTerminator(c) {
      assert c in m.file || c == ':' || c in Decimal(m.line) || c in m.content;
    }
    forall c | c in m.content ensures c in Print(m) {
    }
  }

  lemma {:induction false} PrintedReadBack(ms: seq<Match>)
    requires forall m :: m in ms ==> Findable(m)
    ensures NonEmpty(Printed(ms)) == Printed(ms) && Parsed(Printed(ms)) == Kept(ms)
    ensures forall l :: l in Printed(ms) ==> '\n' !in l
  {
    hide Print, ParseLine, Ambiguous;
    if ms == [] {
    } else {
      assert ms[0] in ms;
      PrintOneLine(ms[0]);
      ReadIff(Print(ms[0]));
      if OneLine(ms[0].content) {
        LineRoundTrip(ms[0]);
      }
      PrintedReadBack(ms[1..]);
    }
  }

  lemma {:induction false} OutputIsJoin(ms: seq<Match>)
    requires ms != []
    ensures Output(ms) == Join(Printed(ms), '\n') + "\n"
  {
    if |ms| > 1 {
      OutputIsJoin(ms[1..]);
    } else {
      assert ms[1..] == [];
    }
  }

  lemma TrimBody(body: string)
    requires body != "" && !IsSpace(body[0]) && !IsSpace(Last(body))
    ensures Trim(body + "\n") == body
  {
    var s := body + "\n";
    assert TrimStart(s) == s;
    assert Init(s) == body && Last(s) == '\n';
    assert TrimEnd(s) == TrimEnd(body);
  }

  lemma {:induction false} JoinEnds(parts: seq<string>)
    requires parts != [] && parts[0] != "" && Last(parts) != ""
    ensures Join(parts, '\n') != "" && Join(parts, '\n')[0] == parts[0][0]
    ensures Last(Join(parts, '\n')) == Last(Last(parts))
  {
    if |parts| > 1 {
      var rest := parts[1..];
      assert Last(rest) == Last(parts);
      if |rest| == 1 {
        assert Join(rest, '\n') == rest[0];
      } else {
        LastOfJoin(rest, '\n');
      }
    }
  }

  lemma {:induction false} PrintedEnds(ms: seq<Match>)
    requires ms != []
    ensures Printed(ms) != [] && Printed(ms)[0] == Print(ms[0]) && Last(Printed(ms)) == Print(Last(ms))
  {
    hide Print;
    var rest := ms[1..];
    assert Printed(ms) == [Print(ms[0])] + Printed(rest);
    if rest == [] {
      assert Last(ms) == ms[0];
    } else {
      PrintedEnds(rest);
      assert Last(rest) == Last(ms);
    }
  }

  /** Trimming takes nothing from the matches themselves. */
  predicate Flush(ms: seq<Match>)
  {
    ms != [] ==>
      && ms[0].file != "" && !IsSpace(ms[0].file[0])
      && (Last(ms).content != "" ==> !IsSpace(Last(Last(ms).content)))
  }

  /** Unless trimming cuts into it, the output is read back match by match, without those on broken lines. */
  lemma FlushReadBack(ms: seq<Match>)
    requires (forall m :: m in ms ==> Findable(m)) && Flush(ms)
    ensures ReadBack(Output(ms)) == Kept(ms)
  {
    if ms == [] {
      assert Split(Trim(""), '\n') == [""];
      assert NonEmpty([""]) == [] by { assert [""][1..] == []; }
    } else {
      var parts := Printed(ms);
      var body := Join(parts, '\n');
      PrintedReadBack(ms);
      PrintedEnds(ms);
      OutputIsJoin(ms);
      JoinEnds(parts);
      var last := Last(ms);
      assert Last(Print(last)) == if last.content == "" then ':' else Last(last.content);
      TrimBody(body);
      SplitJoin(parts, '\n');
    }
  }

  // Trimming more than the final newline loses characters, and reading the lines cannot make up for them

  lemma {:induction false} DecimalNoLonger(d: string)
    requires d != "" && AllDigits(d)
    ensures |Decimal(ParseDecimal(d))| <= |d|
  {
    var front := Init(d);
    assert Last(d) in d && forall c :: c in front ==> c in d;
    if front == "" {
      assert ParseDecimal(front) == 0;
    } else {
      DecimalNoLonger(front);
    }
  }

  lemma {:induction false} ParsedNoLonger(s: string, from: nat)
    ensures ParseFrom(s, from).Some? ==> |Print(ParseFrom(s, from).value)| <= |s|
    decreases |s| - from
  {
    if from < |s| {
      if MatchesAt(s, from) {
        DecimalNoLonger(s[from + 1..DigitsEnd(s, from + 1)]);
      } else {
        ParsedNoLonger(s, from + 1);
      }
    }
  }

  /** The length of lines with a newline behind each. */
  function Weight(lines: seq<string>): nat
  {
    if lines == [] then 0 else |lines[0]| + 1 + Weight(lines[1..])
  }

  lemma {:induction false} OutputWeight(lines: seq<string>)
    ensures |Output(Parsed(NonEmpty(lines)))| <= Weight(lines)
  {
    if lines == [] {
    } else {
      var rest := lines[1..];
      OutputWeight(rest);
      ParsedNoLonger(lines[0], 1);
      if lines[0] != "" {
        assert ([lines[0]] + NonEmpty(rest))[1..] == NonEmpty(rest);
        if ParseLine(lines[0]).Some? {
          var m := ParseLine(lines[0]).value;
          assert ([m] + Parsed(NonEmpty(rest)))[1..] == Parsed(NonEmpty(rest));
        }
      }
    }
  }

  lemma {:induction false} SplitWeight(s: string)
    ensures Weight(Split(s, '\n')) == |s| + 1
  {
    if s == "" {
    } else {
      SplitWeight(s[1..]);
      var parts := Split(s[1..], '\n');
      assert ([""] + parts)[1..] == parts && Widen(s[0], parts)[1..] == parts[1..];
    }
  }

  /** If no more than the final newline goes, the rest has no white space at its ends. */
  lemma TrimTakesMore(body: string)
    requires body != "" && |Trim(body + "\n")| >= |body|
    ensures !IsSpace(body[0]) && !IsSpace(Last(body))
  {
    var s := body + "\n";
    var t := TrimStart(s);
    TrimEndShortens(t);
    if IsSpace(body[0]) {
      TrimStartEnds(s[1..]);
      assert t == TrimStart(s[1..]);
      if t != "" {
        TrimEndShortens(Init(t));
      }
    } else {
      assert t == s && Init(s) == body && TrimEnd(s) == TrimEnd(body);
      if IsSpace(Last(body)) {
        TrimEndShortens(Init(body));
      }
    }
  }

  lemma ReadBackMeansFlush(ms: seq<Match>)
    requires ms != [] && (forall m :: m in ms ==> Readable(m)) && ReadBack(Output(ms)) == ms
    ensures Flush(ms)
  {
    var body := Join(Printed(ms), '\n');
    OutputIsJoin(ms);
    PrintedEnds(ms);
    JoinEnds(Printed(ms));
    OutputWeight(Split(Trim(body + "\n"), '\n'));
    SplitWeight(Trim(body + "\n"));
    hide Trim, Split, Join, Printed, Parsed, NonEmpty, Output;
    TrimTakesMore(body);
    var last := Last(ms);
    assert ms[0] in ms && last in ms;
    PrintEnds(last);
    PrintEnds(ms[0]);
  }

  /**
   * Round trip: the whole output is read back match by match if and only if trimming does not cut into the first file
   * name or the last content.
   */
  lemma OutputRoundTrip(ms: seq<Match>)
    requires forall m :: m in ms ==> Readable(m)
    ensures ReadBack(Output(ms)) == ms <==> Flush(ms)
  {
    ReadableKept(ms);
    if Flush(ms) {
      FlushReadBack(ms);
    }
    if ms != [] && ReadBack(Output(ms)) == ms {
      ReadBackMeansFlush(ms);
    }
  }

  /** A blank at the end of the last line is lost. */
  lemma LastBlankLost(m: Match)
    requires Readable(m) && Flush([m])
    ensures ReadBack(Output([m.(content := m.content + " ")])) == [m]
  {
    hide Decimal, Parsed, NonEmpty, Split;
    var n := m.(content := m.content + " ");
    var body := Print(m);
    assert [n][1..] == [] && [m][1..] == [];
    assert Output([n]) == body + " \n" && Output([m]) == body + "\n";
    assert body[0] == m.file[0] && Last(body) == if m.content == "" then ':' else Last(m.content);
    TrimBody(body);
    TrimBlank(body);
    FlushReadBack([m]);
    ReadableKept([m]);
  }

  lemma TrimBlank(body: string)
    requires body != "" && !IsSpace(body[0]) && !IsSpace(Last(body))
    ensures Trim(body + " \n") == body
  {
    var s := body + " \n";
    assert Init(s) == body + " " && Init(Init(s)) == body;
    assert TrimEnd(s) == TrimEnd(Init(s)) == TrimEnd(body);
  }

  /** The same matches in files whose lines end in a carriage return and a newline. */
  function WithCr(ms: seq<Match>): seq<Match>
  {
    if ms == [] then [] else [ms[0].(content := ms[0].content + "\r")] + WithCr(ms[1..])
  }

  lemma {:induction false} WithCrLost(ms: seq<Match>)
    requires forall m :: m in ms ==> Readable(m)
    ensures Kept(WithCr(ms)) == [] && |WithCr(ms)| == |ms|
    ensures forall n :: n in WithCr(ms) ==> Findable(n)
    ensures ms != [] ==> WithCr(ms)[0].file == ms[0].file
  {
    if ms == [] {
    } else {
      assert ms[0] in ms;
      var n := ms[0].(content := ms[0].content + "\r");
      assert Last(n.content) == '\r' && '\r' in n.content;
      WithCrLost(ms[1..]);
    }
  }

  lemma {:induction false} KeptConcat(a: seq<Match>, b: seq<Match>)
    ensures Kept(a + b) == Kept(a) + Kept(b)
  {
    if a == [] {
      assert a + b == b;
    } else {
      hide Broken;
      KeptConcat(a[1..], b);
      assert (a + b)[1..] == a[1..] + b;
      Regroup([a[0]], Kept(a[1..]), Kept(b));
    }
  }

  lemma {:induction false} OutputConcat(a: seq<Match>, b: seq<Match>)
    ensures Output(a + b) == Output(a) + Output(b)
  {
    hide Print;
    if a == [] {
      assert a + b == b;
    } else {
      OutputConcat(a[1..], b);
      assert (a + b)[1..] == a[1..] + b;
      Regroup(Print(a[0]) + "\n", Output(a[1..]), Output(b));
    }
  }

  lemma {:induction false} WithCrConcat(a: seq<Match>, b: seq<Match>)
    ensures WithCr(a + b) == WithCr(a) + WithCr(b)
  {
    if a == [] {
      assert a + b == b;
    } else {
      WithCrConcat(a[1..], b);
      assert (a + b)[1..] == a[1..] + b;
      Regroup([a[0].(content := a[0].content + "\r")], WithCr(a[1..]), WithCr(b));
    }
  }

  lemma OutputOne(m: Match)
    ensures Output([m]) == Print(m) + "\n"
    ensures WithCr([m]) == [m.(content := m.content + "\r")]
    ensures Output(WithCr([m])) == Print(m) + "\r\n"
  {
    assert [m][1..] == [];
    var n := m.(content := m.content + "\r");
    assert [n][1..] == [];
    assert Print(n) == Print(m) + "\r";
    assert Print(m) + "\r" + "\n" == Print(m) + "\r\n";
  }

  /** Of matches in files with carriage returns every one but the last is lost; the last one's is trimmed off. */
  lemma CrlfLosesAllButLast(ms: seq<Match>)
    requires ms != [] && (forall m :: m in ms ==> Readable(m)) && Flush(ms)
    ensures ReadBack(Output(WithCr(ms))) == [Last(ms)]
  {
    var front, last := Init(ms), Last(ms);
    var ns := WithCr(front) + [last];
    assert ms == front + [last] && last in ms && forall m :: m in front ==> m in ms;
    WithCrLost(front);
    assert Flush(ns) by { assert front != [] ==> front[0] == ms[0]; }
    FlushReadBack(ns);
    KeptConcat(WithCr(front), [last]);
    ReadableKept([last]);
    SameWhenTrimmed(front, last);
  }

  lemma SameWhenTrimmed(front: seq<Match>, last: Match)
    requires (front != [] ==> front[0].file != "" && !IsSpace(front[0].file[0]))
    requires Flush([last]) || (front != [] && (last.content != "" ==> !IsSpace(Last(last.content))))
    ensures Trim(Output(WithCr(front + [last]))) == Trim(Output(WithCr(front) + [last]))
  {
    WithCrConcat(front, [last]);
    OutputConcat(WithCr(front), WithCr([last]));
    OutputConcat(WithCr(front), [last]);
    OutputOne(last);
    if front != [] {
      FirstOfOutput(WithCr(front));
    }
    PrintEnds(last);
    hide Output, WithCr, Print, Trim;
    var body := Output(WithCr(front)) + Print(last);
    Regroup(Output(WithCr(front)), Print(last), "\r\n");
    Regroup(Output(WithCr(front)), Print(last), "\n");
    assert Last(body) == Last(Print(last));
    assert front == [] ==> body == Print(last);
    SolidTrims(body);
    TrimDrops(body, "\r\n");
    TrimDrops(body, "\n");
  }

  lemma PrintEnds(m: Match)
    ensures Print(m) != "" && (m.file != "" ==> Print(m)[0] == m.file[0])
    ensures Last(Print(m)) == if m.content == "" then ':' else Last(m.content)
  {
  }

  lemma FirstOfOutput(ms: seq<Match>)
    requires ms != [] && ms[0].file != ""
    ensures Output(ms) != "" && Output(ms)[0] == ms[0].file[0]
  {
  }

  lemma SolidTrims(body: string)
    requires body != "" && !IsSpace(body[0]) && !IsSpace(Last(body))
    ensures Trim(body) == body
  {
  }
}
