/** Quoting for the shell, against a lexer for the part of the shell's grammar that quoting is about. */
module ShellQuoting {
  import opened Text

  /** `shellEscape`: single quotes around the text, each quote inside it replaced by `'\''`. */
  function Escape(s: string): string
  {
    "'" + Guard(s) + "'"
  }

  function Guard(s: string): string
  {
    if s == "" then "" else (if s[0] == '\'' then "'\\''" else [s[0]]) + Guard(s[1..])
  }

  // ----- The lexer: sections 2.2.1 and 2.2.2 of the POSIX.1-2017 Shell Command Language -----

  datatype Mode = Plain | Quoted | Escaping

  /** Finished words, the word being read (if one has begun), and how the next character counts. */
  datatype Lexer = Lexer(words: seq<string>, word: Option<string>, mode: Mode)

  const START := Lexer([], None, Plain)

  /** Characters that mean something else to the shell when they are not quoted. */
  predicate IsSpecial(c: char)
  {
    c in "|&;<>()$`\"\n*?[#~"
  }

  function Added(l: Lexer, c: char): Lexer
  {
    l.(word := Some((if l.word.Some? then l.word.value else "") + [c]))
  }

  /** `None` when the text leaves the fragment of words, blanks, backslashes and single quotes. */
  function Next(l: Lexer, c: char): Option<Lexer>
  {
    match l.mode
    case Quoted => if c == '\'' then Some(l.(mode := Plain)) else Some(Added(l, c))
    case Escaping => if c == '\n' then Some(l.(mode := Plain)) else Some(Added(l, c).(mode := Plain))
    case Plain =>
      if c == '\'' then Some(l.(mode := Quoted, word := Some(if l.word.Some? then l.word.value else "")))
      else if c == '\\' then Some(l.(mode := Escaping))
      else if c == ' ' || c == '\t' then
        Some(if l.word.Some? then Lexer(l.words + [l.word.value], None, Plain) else l)
      else if IsSpecial(c) then None
      else Some(Added(l, c))
  }

  function Feed(l: Lexer, text: string): Option<Lexer>
    decreases |text|
  {
    if text == "" then Some(l)
    else match Next(l, text[0]) case Some(m) => Feed(m, text[1..]) case None => None
  }

  /** The words of a complete text; an open quote or a final backslash is incomplete. */
  function Words(l: Lexer): Option<seq<string>>
  {
    if l.mode != Plain then None else Some(l.words + if l.word.Some? then [l.word.value] else [])
  }

  function Lex(text: string): Option<seq<string>>
  {
    match Feed(START, text) case Some(l) => Words(l) case None => None
  }

  lemma {:induction false} FeedConcat(l: Lexer, a: string, b: string)
    requires Feed(l, a).Some?
    ensures Feed(l, a + b) == Feed(Feed(l, a).value, b)
    decreases |a|
  {
    if a == "" {
      assert a + b == b;
    } else {
      FeedConcat(Next(l, a[0]).value, a[1..], b);
      assert (a + b)[1..] == a[1..] + b;
    }
  }

  lemma FeedOne(l: Lexer, c: char)
    ensures Feed(l, [c]) == Next(l, c)
  {
    assert [c][1..] == "";
  }

  // ----- Quoting is undone by lexing -----

  function Sofar(word: Option<string>): string
  {
    if word.Some? then word.value else ""
  }

  /** The four characters that stand for a quote add just that quote to a quoted word. */
  lemma GuardedQuote(words: seq<string>, w: string)
    ensures Feed(Lexer(words, Some(w), Quoted), "'\\''") == Some(Lexer(words, Some(w + "'"), Quoted))
  {
    var l := Lexer(words, Some(w), Quoted);
    var text := "'\\''";
    assert text == "'" + ("\\" + ("'" + "'"));
    FeedOne(l, '\'');
    FeedConcat(l, "'", "\\" + ("'" + "'"));
    var m := Lexer(words, Some(w), Plain);
    FeedOne(m, '\\');
    FeedConcat(m, "\\", "'" + "'");
    var n := Lexer(words, Some(w), Escaping);
    FeedOne(n, '\'');
    FeedConcat(n, "'", "'");
    FeedOne(Lexer(words, Some(w + "'"), Plain), '\'');
  }

  lemma {:induction false} GuardFeeds(words: seq<string>, w: string, s: string)
    ensures Feed(Lexer(words, Some(w), Quoted), Guard(s)) == Some(Lexer(words, Some(w + s), Quoted))
    decreases |s|
  {
    if s == "" {
      assert w + s == w;
    } else {
      var l := Lexer(words, Some(w), Quoted);
      var head := if s[0] == '\'' then "'\\''" else [s[0]];
      if s[0] == '\'' {
        GuardedQuote(words, w);
        assert "'" == [s[0]];
      } else {
        FeedOne(l, s[0]);
      }
      FeedConcat(l, head, Guard(s[1..]));
      GuardFeeds(words, w + [s[0]], s[1..]);
      assert w + [s[0]] + s[1..] == w + s;
    }
  }

  /** Anywhere outside quotes, escaped text adds exactly the original text to the word being read. */
  lemma EscapeFeeds(l: Lexer, s: string)
    requires l.mode == Plain
    ensures Feed(l, Escape(s)) == Some(l.(word := Some(Sofar(l.word) + s)))
  {
    var open := l.(mode := Quoted, word := Some(Sofar(l.word)));
    FeedOne(l, '\'');
    assert Escape(s) == "'" + (Guard(s) + "'");
    FeedConcat(l, "'", Guard(s) + "'");
    GuardFeeds(l.words, Sofar(l.word), s);
    FeedConcat(open, Guard(s), "'");
    FeedOne(Lexer(l.words, Some(Sofar(l.word) + s), Quoted), '\'');
  }

  /** Round trip: whatever the text, its escaped form is one word, and that word is the text. */
  lemma EscapeRoundTrip(s: string)
    ensures Lex(Escape(s)) == Some([s])
  {
    EscapeFeeds(START, s);
    assert "" + s == s && [] + [s] == [s];
  }

  lemma EscapeInjective(a: string, b: string)
    ensures Escape(a) == Escape(b) <==> a == b
  {
    EscapeRoundTrip(a);
    EscapeRoundTrip(b);
  }

  /** A lexer between two words. */
  predicate Between(l: Lexer)
  {
    l.mode == Plain && l.word == None
  }

  lemma EscapedWord(l: Lexer, s: string)
    requires Between(l)
    ensures Feed(l, Escape(s) + " ") == Some(Lexer(l.words + [s], None, Plain))
  {
    EscapeFeeds(l, s);
    assert "" + s == s;
    FeedConcat(l, Escape(s), " ");
    FeedOne(l.(word := Some(s)), ' ');
  }

  function GrepTail(pattern: string, dir: string): string
  {
    "-- " + Escape(pattern) + " " + Escape(dir)
  }

  /** Text the shell takes as it stands. */
  predicate Ordinary(s: string)
  {
    s != "" && forall c :: c in s ==> c != '\'' && c != '\\' && c != ' ' && c != '\t' && !IsSpecial(c)
  }

  lemma {:induction false} OrdinaryFeeds(l: Lexer, s: string)
    requires l.mode == Plain && Ordinary(s)
    ensures Feed(l, s) == Some(l.(word := Some(Sofar(l.word) + s)))
    decreases |s|
  {
    assert s[0] in s;
    var m := Added(l, s[0]);
    assert Next(l, s[0]) == Some(m);
    if |s| > 1 {
      assert forall c :: c in s[1..] ==> c in s;
      OrdinaryFeeds(m, s[1..]);
      assert Sofar(l.word) + [s[0]] + s[1..] == Sofar(l.word) + s;
    } else {
      assert s[1..] == "" && [s[0]] == s;
    }
  }

  lemma OrdinaryWord(l: Lexer, s: string)
    requires Between(l) && Ordinary(s)
    ensures Feed(l, s + " ") == Some(Lexer(l.words + [s], None, Plain))
  {
    OrdinaryFeeds(l, s);
    assert "" + s == s;
    FeedConcat(l, s, " ");
    FeedOne(l.(word := Some(s)), ' ');
  }

  /** After any flags, the tail of the search command adds exactly three words: `--`, the pattern and the directory. */
  lemma GrepTailWords(flags: string, pattern: string, dir: string)
    requires Feed(START, flags).Some? && Between(Feed(START, flags).value)
    ensures Lex(flags + GrepTail(pattern, dir)) == Some(Feed(START, flags).value.words + ["--", pattern, dir])
  {
    hide Feed, Escape;
    var l := Feed(START, flags).value;
    OrdinaryWord(l, "--");
    assert "--" + " " == "-- ";
    var m := Lexer(l.words + ["--"], None, Plain);
    EscapedWord(m, pattern);
    var n := Lexer(m.words + [pattern], None, Plain);
    EscapeFeeds(n, dir);
    assert "" + dir == dir;
    var front := Escape(pattern) + " ";
    assert GrepTail(pattern, dir) == "-- " + (front + Escape(dir));
    FeedConcat(START, flags, GrepTail(pattern, dir));
    FeedConcat(l, "-- ", front + Escape(dir));
    FeedConcat(m, front, Escape(dir));
    assert l.words + ["--"] + [pattern] + [dir] == l.words + ["--", pattern, dir];
  }

  /** `text`, a blank, and what follows. */
  function Then(text: string, rest: string): string
  {
    text + " " + rest
  }

  function FindHead(dir: string, pattern: string): string
  {
    Then("find", Then(Escape(dir), Then("-type", Then("f", Then("-name", Escape(pattern))))))
  }

  lemma OrdinaryThen(l: Lexer, s: string, rest: string)
    requires Between(l) && Ordinary(s)
    ensures Feed(l, Then(s, rest)) == Feed(Lexer(l.words + [s], None, Plain), rest)
  {
    OrdinaryWord(l, s);
    FeedConcat(l, s + " ", rest);
  }

  lemma EscapedThen(l: Lexer, s: string, rest: string)
    requires Between(l)
    ensures Feed(l, Then(Escape(s), rest)) == Feed(Lexer(l.words + [s], None, Plain), rest)
  {
    EscapedWord(l, s);
    FeedConcat(l, Escape(s) + " ", rest);
  }

  lemma PlainWords()
    ensures Ordinary("find") && Ordinary("-type") && Ordinary("f") && Ordinary("-name")
  {
  }

  /** The head of the `find` command: whatever they contain, the directory and the name pattern are one word each. */
  lemma FindWords(dir: string, pattern: string)
    ensures Lex(FindHead(dir, pattern)) == Some(["find", dir, "-type", "f", "-name", pattern])
  {
    hide Feed, Escape, Ordinary;
    var name := Escape(pattern);
    var f := Then("f", Then("-name", name));
    PlainWords();
    var ws := ["find"];
    assert [] + ws == ws;
    OrdinaryThen(START, "find", Then(Escape(dir), Then("-type", f)));
    EscapedThen(Lexer(ws, None, Plain), dir, Then("-type", f));
    ws := ws + [dir];
    OrdinaryThen(Lexer(ws, None, Plain), "-type", f);
    ws := ws + ["-type"];
    OrdinaryThen(Lexer(ws, None, Plain), "f", Then("-name", name));
    ws := ws + ["f"];
    OrdinaryThen(Lexer(ws, None, Plain), "-name", name);
    var all := ws + ["-name"];
    EscapeFeeds(Lexer(all, None, Plain), pattern);
    assert "" + pattern == pattern;
    assert all + [pattern] == ["find", dir, "-type", "f", "-name", pattern];
  }
}
