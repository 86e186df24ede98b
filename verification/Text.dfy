/** The string operations the agent's codecs are built from, with the laws the proofs need. */
module Text {

  datatype Option<+T> = None | Some(value: T)

  lemma Regroup<T>(a: seq<T>, b: seq<T>, c: seq<T>)
    ensures a + (b + c) == (a + b) + c
  {
  }

  // ----- Splitting and joining on one separator character -----

  /** JavaScript's `s.split(sep)`: never empty, the last part is what follows the last separator. */
  function Split(s: string, sep: char): (parts: seq<string>)
    ensures |parts| >= 1
  {
    if s == "" then [""]
    else if s[0] == sep then [""] + Split(s[1..], sep)
    else Widen(s[0], Split(s[1..], sep))
  }

  /** The parts of a text that starts with `c`, from the parts of the rest. */
  function Widen(c: char, parts: seq<string>): (wider: seq<string>)
    requires parts != []
    ensures |wider| == |parts|
  {
    [[c] + parts[0]] + parts[1..]
  }

  function Join(parts: seq<string>, sep: char): string
  {
    if |parts| == 0 then ""
    else if |parts| == 1 then parts[0]
    else parts[0] + [sep] + Join(parts[1..], sep)
  }

  function Init<T>(s: seq<T>): seq<T>
    requires s != []
  {
    s[..|s| - 1]
  }

  function Last<T>(s: seq<T>): T
    requires s != []
  {
    s[|s| - 1]
  }

  lemma InitAndLast<T>(s: seq<T>)
    requires s != []
    ensures s == Init(s) + [Last(s)]
  {
  }

  function Concat(chunks: seq<string>): string
  {
    if chunks == [] then "" else chunks[0] + Concat(chunks[1..])
  }

  lemma {:induction false} ConcatSnoc(chunks: seq<string>, c: string)
    ensures Concat(chunks + [c]) == Concat(chunks) + c
  {
    if chunks == [] {
    } else {
      ConcatSnoc(chunks[1..], c);
      assert (chunks + [c])[1..] == chunks[1..] + [c];
    }
  }

  /** Widening the first part does not reach past a first part that is already closed. */
  lemma WidenAppend(c: char, front: seq<string>, back: seq<string>)
    requires front != []
    ensures Widen(c, front + back) == Widen(c, front) + back
  {
    assert (front + back)[1..] == front[1..] + back;
  }

  lemma WidenInitLast(c: char, parts: seq<string>)
    requires |parts| > 1
    ensures Init(Widen(c, parts)) == Widen(c, Init(parts)) && Last(Widen(c, parts)) == Last(parts)
  {
  }

  lemma {:induction false} SplitStep(x: char, t: string, sep: char)
    ensures Split([x] + t, sep) == if x == sep then [""] + Split(t, sep) else Widen(x, Split(t, sep))
  {
    assert ([x] + t)[1..] == t;
  }

  /** Splitting can be resumed: only the part after the last separator still depends on later text. */
  lemma {:induction false} SplitResume(t: string, c: string, sep: char)
    ensures Split(t + c, sep) == Init(Split(t, sep)) + Split(Last(Split(t, sep)) + c, sep)
  {
    hide Split, Init, Last;
    if t == "" {
      assert "" + c == c;
      SplitResumeEmpty(c, sep);
    } else {
      assert t == [t[0]] + t[1..];
      SplitResume(t[1..], c, sep);
      SplitResumeCons(t[0], t[1..], c, sep);
    }
  }

  lemma SplitResumeEmpty(c: string, sep: char)
    ensures Split(c, sep) == Init(Split("", sep)) + Split(Last(Split("", sep)) + c, sep)
  {
    assert Split("", sep) == [""];
    assert "" + c == c;
    assert [] + Split(c, sep) == Split(c, sep);
  }

  lemma SplitResumeCons(x: char, u: string, c: string, sep: char)
    requires Split(u + c, sep) == Init(Split(u, sep)) + Split(Last(Split(u, sep)) + c, sep)
    ensures Split([x] + u + c, sep) == Init(Split([x] + u, sep)) + Split(Last(Split([x] + u, sep)) + c, sep)
  {
    hide Split, Init, Last, Widen;
    assert [x] + (u + c) == [x] + u + c;
    SplitStep(x, u + c, sep);
    SplitStep(x, u, sep);
    SplitResumeStep(x, Split(u, sep), Split(u + c, sep), c, sep);
  }

  lemma ResumeSingle(x: char, p: string, c: string, sep: char)
    requires x != sep
    ensures Widen(x, Split(p + c, sep)) == Split([x] + p + c, sep)
  {
    SplitStep(x, p + c, sep);
    assert [x] + (p + c) == [x] + p + c;
  }

  lemma {:induction false} SplitResumeStep(x: char, rest: seq<string>, whole: seq<string>, c: string, sep: char)
    requires rest != [] && whole != []
    requires whole == Init(rest) + Split(Last(rest) + c, sep)
    ensures x == sep ==> [""] + whole == Init([""] + rest) + Split(Last([""] + rest) + c, sep)
    ensures x != sep ==> Widen(x, whole) == Init(Widen(x, rest)) + Split(Last(Widen(x, rest)) + c, sep)
  {
    hide Split;
    var resumed := Split(Last(rest) + c, sep);
    if x == sep {
      assert Init([""] + rest) == [""] + Init(rest);
    } else if |rest| == 1 {
      assert rest == [rest[0]] && Init(rest) + resumed == resumed;
      ResumeSingle(x, rest[0], c, sep);
      var wide := Widen(x, rest);
      assert wide == [[x] + rest[0]] && Init(wide) == [];
      assert [] + Split([x] + rest[0] + c, sep) == Split([x] + rest[0] + c, sep);
    } else {
      WidenAppend(x, Init(rest), resumed);
      WidenInitLast(x, rest);
    }
  }

  lemma {:induction false} SplitNoSeparator(s: string, sep: char)
    requires sep !in s
    ensures Split(s, sep) == [s]
  {
    if s == "" {
    } else {
      SplitNoSeparator(s[1..], sep);
      assert [s[0]] + s[1..] == s;
    }
  }

  lemma {:induction false} SplitPartsClean(s: string, sep: char)
    ensures forall p :: p in Split(s, sep) ==> sep !in p
  {
    if s == "" {
    } else {
      SplitPartsClean(s[1..], sep);
      var rest := Split(s[1..], sep);
      if s[0] != sep {
        forall p | p in Split(s, sep) ensures sep !in p {
          assert p == [s[0]] + rest[0] || p in rest[1..];
          assert rest[0] in rest;
        }
      }
    }
  }

  /** A first part without separator is split off as it is. */
  lemma {:induction false} SplitCons(p: string, t: string, sep: char)
    requires sep !in p
    ensures Split(p + [sep] + t, sep) == [p] + Split(t, sep)
  {
    var s := p + [sep] + t;
    if p == "" {
      assert s[1..] == t;
    } else {
      SplitCons(p[1..], t, sep);
      assert s[1..] == p[1..] + [sep] + t;
      assert [p[0]] + p[1..] == p;
      assert ([p[1..]] + Split(t, sep))[1..] == Split(t, sep);
    }
  }

  lemma {:induction false} SplitJoin(parts: seq<string>, sep: char)
    requires parts != []
    requires forall p :: p in parts ==> sep !in p
    ensures Split(Join(parts, sep), sep) == parts
  {
    if |parts| == 1 {
      SplitNoSeparator(parts[0], sep);
    } else {
      SplitJoin(parts[1..], sep);
      SplitCons(parts[0], Join(parts[1..], sep), sep);
    }
  }

  lemma {:induction false} JoinSplit(s: string, sep: char)
    ensures Join(Split(s, sep), sep) == s
  {
    if s == "" {
    } else {
      JoinSplit(s[1..], sep);
      var rest := Split(s[1..], sep);
      if s[0] == sep {
        assert Split(s, sep)[1..] == rest;
      } else {
        assert Split(s, sep)[1..] == rest[1..];
      }
    }
  }

  /** A joined text ends as its last part does. */
  lemma {:induction false} LastOfJoin(parts: seq<string>, sep: char)
    requires parts != [] && Last(parts) != ""
    ensures Join(parts, sep) != "" && Last(Join(parts, sep)) == Last(Last(parts))
  {
    if |parts| == 1 {
    } else {
      LastOfJoin(parts[1..], sep);
    }
  }

  // ----- Trimming -----

  /** White space and line terminators as JavaScript's `trim` strips them. */
  predicate IsSpace(c: char)
  {
    || '\t' <= c <= '\r' || c == ' ' || c == '\U{A0}' || c == '\U{1680}'
    || '\U{2000}' <= c <= '\U{200A}' || c == '\U{2028}' || c == '\U{2029}'
    || c == '\U{202F}' || c == '\U{205F}' || c == '\U{3000}' || c == '\U{FEFF}'
  }

  function TrimStart(s: string): string
  {
    if s != "" && IsSpace(s[0]) then TrimStart(s[1..]) else s
  }

  function TrimEnd(s: string): string
  {
    if s != "" && IsSpace(Last(s)) then TrimEnd(Init(s)) else s
  }

  function Trim(s: string): string
  {
    TrimEnd(TrimStart(s))
  }

  /** The characters themselves: the white space and line terminators of sections 12.2 and 12.3 of ECMA-262. */
  lemma SpacesAre(c: char)
    ensures IsSpace(c) <==> c as int in {
              0x9, 0xA, 0xB, 0xC, 0xD, 0x20, 0xA0, 0x1680, 0x2000, 0x2001, 0x2002, 0x2003, 0x2004, 0x2005, 0x2006,
              0x2007, 0x2008, 0x2009, 0x200A, 0x2028, 0x2029, 0x202F, 0x205F, 0x3000, 0xFEFF}
  {
  }

  predicate AllSpace(s: string)
  {
    forall c :: c in s ==> IsSpace(c)
  }

  lemma {:induction false} TrimStartEnds(s: string)
    ensures |TrimStart(s)| <= |s| && (TrimStart(s) != "" ==> Last(TrimStart(s)) == Last(s))
  {
    if s != "" && IsSpace(s[0]) {
      TrimStartEnds(s[1..]);
    }
  }

  lemma {:induction false} TrimEndShortens(s: string)
    ensures |TrimEnd(s)| <= |s|
  {
    if s != "" && IsSpace(Last(s)) {
      TrimEndShortens(Init(s));
    }
  }

  lemma {:induction false} TrimEndDrops(s: string, pad: string)
    requires AllSpace(pad)
    ensures TrimEnd(s + pad) == TrimEnd(s)
    decreases |pad|
  {
    if pad == "" {
      assert s + pad == s;
    } else {
      assert Last(pad) in pad && forall c :: c in Init(pad) ==> c in pad;
      assert Init(s + pad) == s + Init(pad) && Last(s + pad) == Last(pad);
      TrimEndDrops(s, Init(pad));
    }
  }

  lemma {:induction false} BlankTrims(s: string)
    requires AllSpace(s)
    ensures Trim(s) == ""
  {
    if s == "" {
    } else {
      assert s[0] in s && forall c :: c in s[1..] ==> c in s;
      BlankTrims(s[1..]);
      assert TrimStart(s) == TrimStart(s[1..]);
    }
  }

  lemma {:induction false} TrimStartDrops(lead: string, s: string)
    requires AllSpace(lead)
    ensures TrimStart(lead + s) == TrimStart(s)
  {
    if lead == "" {
      assert lead + s == s;
    } else {
      assert lead[0] in lead && forall c :: c in lead[1..] ==> c in lead;
      assert (lead + s)[0] == lead[0] && (lead + s)[1..] == lead[1..] + s;
      TrimStartDrops(lead[1..], s);
    }
  }

  /** White space in front of a trimmed text and behind it is trimmed off again. */
  lemma TrimDropsBoth(lead: string, s: string, pad: string)
    requires s != "" && Trim(s) == s && AllSpace(lead) && AllSpace(pad)
    ensures Trim(lead + s + pad) == s
  {
    TrimDrops(s, pad);
    TrimStartDrops(lead, s + pad);
    assert lead + (s + pad) == lead + s + pad;
  }

  lemma TrimDrops(s: string, pad: string)
    requires s != "" && Trim(s) == s && AllSpace(pad)
    ensures Trim(s + pad) == s
  {
    if IsSpace(s[0]) {
      TrimStartEnds(s[1..]);
      TrimEndShortens(TrimStart(s));
    }
    assert (s + pad)[0] == s[0];
    TrimEndDrops(s, pad);
  }

  // ----- UTF-8 length -----

  function CharBytes(c: char): nat
  {
    if c < '\U{80}' then 1 else if c < '\U{800}' then 2 else if c < '\U{10000}' then 3 else 4
  }

  /** `Buffer.byteLength(s)`. */
  function ByteLength(s: string): nat
  {
    if s == "" then 0 else CharBytes(s[0]) + ByteLength(s[1..])
  }

  /** The bytes of a character, as section 3 of RFC 3629 has them. */
  function Utf8(c: char): seq<int>
  {
    var n := c as int;
    if n < 0x80 then [n]
    else if n < 0x800 then [0xC0 + n / 0x40, Low(n)]
    else if n < 0x1_0000 then [0xE0 + n / 0x40 / 0x40, Low(n / 0x40), Low(n)]
    else [0xF0 + n / 0x40 / 0x40 / 0x40, Low(n / 0x40 / 0x40), Low(n / 0x40), Low(n)]
  }

  /** A continuation byte: the six low bits. */
  function Low(n: int): int
  {
    0x80 + n % 0x40
  }

  /** The code point that the bytes at the head of a text stand for; the first byte tells how many there are. */
  function CodePoint(bytes: seq<int>): int
  {
    if bytes == [] then -1
    else if bytes[0] < 0x80 then bytes[0]
    else if bytes[0] < 0xE0 && |bytes| >= 2 then (bytes[0] - 0xC0) * 0x40 + bytes[1] - 0x80
    else if bytes[0] < 0xF0 && |bytes| >= 3 then
      ((bytes[0] - 0xE0) * 0x40 + bytes[1] - 0x80) * 0x40 + bytes[2] - 0x80
    else if |bytes| >= 4 then
      (((bytes[0] - 0xF0) * 0x40 + bytes[1] - 0x80) * 0x40 + bytes[2] - 0x80) * 0x40 + bytes[3] - 0x80
    else -1
  }

  lemma LowBack(n: int)
    ensures n / 0x40 * 0x40 + Low(n) - 0x80 == n && 0x80 <= Low(n) < 0xC0
  {
  }

  /** The bytes are bytes, and the character can be told back from them, whatever follows. */
  lemma Utf8Decodes(c: char, rest: seq<int>)
    ensures forall b :: b in Utf8(c) ==> 0 <= b < 0x100
    ensures CodePoint(Utf8(c) + rest) == c as int
  {
    var n, bytes := c as int, Utf8(c) + rest;
    assert 0 <= n < 0x11_0000;
    LowBack(n);
    LowBack(n / 0x40);
    LowBack(n / 0x40 / 0x40);
    hide Low;
    assert forall k :: 0 <= k < |Utf8(c)| ==> bytes[k] == Utf8(c)[k];
  }

  function Encode(s: string): seq<int>
  {
    if s == "" then [] else Utf8(s[0]) + Encode(s[1..])
  }

  /** The length in bytes is that of the UTF-8 encoding. */
  lemma {:induction false} ByteLengthIs(s: string)
    ensures ByteLength(s) == |Encode(s)|
  {
    if s == "" {
    } else {
      ByteLengthIs(s[1..]);
    }
  }

  lemma {:induction false} ByteLengthConcat(a: string, b: string)
    ensures ByteLength(a + b) == ByteLength(a) + ByteLength(b)
  {
    if a == "" {
      assert a + b == b;
    } else {
      ByteLengthConcat(a[1..], b);
      assert (a + b)[1..] == a[1..] + b;
    }
  }

  // ----- Decimal numerals -----

  predicate IsDigit(c: char)
  {
    '0' <= c <= '9'
  }

  predicate AllDigits(s: string)
  {
    forall c :: c in s ==> IsDigit(c)
  }

  function Decimal(n: nat): string
  {
    if n < 10 then ['0' + n as char] else Decimal(n / 10) + ['0' + (n % 10) as char]
  }

  /** `parseInt(s, 10)` on a string of digits. */
  function ParseDecimal(s: string): nat
    requires AllDigits(s)
  {
    if s == "" then 0
    else
      assert Last(s) in s && forall c :: c in Init(s) ==> c in s;
      10 * ParseDecimal(Init(s)) + (Last(s) - '0') as nat
  }

  lemma {:induction false} DecimalRoundTrip(n: nat)
    ensures Decimal(n) != "" && AllDigits(Decimal(n))
    ensures ParseDecimal(Decimal(n)) == n
  {
    if n >= 10 {
      DecimalRoundTrip(n / 10);
      assert Init(Decimal(n)) == Decimal(n / 10);
    } else {
      assert Init(Decimal(n)) == "";
    }
  }
}
