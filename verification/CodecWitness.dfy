/** The codec laws can be met: a printer of JSON values that a parser undoes, found without any nicety of syntax. */
module CodecWitness {
  import opened Text
  import opened JsonCodec

  // Each printer puts its text in front of what is to follow.

  function Put(c: char, rest: string): string
  {
    [c] + rest
  }

  function Unary(n: nat, rest: string): string
  {
    if n == 0 then Put('0', rest) else Put('1', Unary(n - 1, rest))
  }

  function Letters(s: string, rest: string): string
  {
    if s == "" then Put('e', rest) else Put('c', Unary(s[0] as int, Letters(s[1..], rest)))
  }

  ghost function Print(j: Json, rest: string): string
    decreases j, 2
  {
    match j
    case Null => Put('n', rest)
    case Bool(b) => Put(if b then 't' else 'f', rest)
    case Num(n) => if n >= 0 then Put('p', Unary(n, rest)) else Put('m', Unary(-n, rest))
    case Str(s) => Put('s', Letters(s, rest))
    case Arr(items) => Put('a', PrintItems(items, rest))
    case Obj(fields) => Put('o', PrintFields(j, fields, rest))
  }

  ghost function PrintItems(items: seq<Json>, rest: string): string
    decreases items, 0
  {
    if items == [] then Put('e', rest) else Put('i', Print(items[0], PrintItems(items[1..], rest)))
  }

  /** `m` holds some of the fields of the object `whole`. */
  ghost predicate Fields(whole: Json, m: map<string, Json>)
  {
    whole.Obj? && forall k :: k in m ==> k in whole.fields && m[k] == whole.fields[k]
  }

  ghost function AnyKey(m: map<string, Json>): (k: string)
    requires m != map[]
    ensures k in m
  {
    var k :| k in m; k
  }

  /** The fields `m` still to print of the object `whole`. */
  ghost function PrintFields(whole: Json, m: map<string, Json>, rest: string): string
    requires Fields(whole, m)
    decreases whole, 1, |m|
  {
    if m == map[] then Put('e', rest)
    else
      var k := AnyKey(m);
      assert whole.fields[k] < whole;
      Put('k', Letters(k, Print(m[k], PrintFields(whole, m - {k}, rest))))
  }

  // ----- Printed values can be told apart -----

  lemma PutSplits(c: char, d: char, x: string, y: string)
    requires Put(c, x) == Put(d, y)
    ensures c == d && x == y
  {
    assert Put(c, x)[0] == c && Put(d, y)[0] == d;
    assert Put(c, x)[1..] == x && Put(d, y)[1..] == y;
  }

  lemma {:induction false} UnarySplits(a: nat, b: nat, x: string, y: string)
    requires Unary(a, x) == Unary(b, y)
    ensures a == b && x == y
  {
    hide Put;
    PutSplits(if a == 0 then '0' else '1', if b == 0 then '0' else '1',
              if a == 0 then x else Unary(a - 1, x), if b == 0 then y else Unary(b - 1, y));
    if a > 0 && b > 0 {
      UnarySplits(a - 1, b - 1, x, y);
    }
  }

  lemma {:induction false} LettersSplit(a: string, b: string, x: string, y: string)
    requires Letters(a, x) == Letters(b, y)
    ensures a == b && x == y
  {
    hide Put;
    PutSplits(if a == "" then 'e' else 'c', if b == "" then 'e' else 'c',
              if a == "" then x else Unary(a[0] as int, Letters(a[1..], x)),
              if b == "" then y else Unary(b[0] as int, Letters(b[1..], y)));
    if a != "" && b != "" {
      UnarySplits(a[0] as int, b[0] as int, Letters(a[1..], x), Letters(b[1..], y));
      LettersSplit(a[1..], b[1..], x, y);
      assert a == [a[0]] + a[1..] && b == [b[0]] + b[1..];
    }
  }

  function Tag(j: Json): char
  {
    match j
    case Null => 'n'
    case Bool(b) => if b then 't' else 'f'
    case Num(n) => if n >= 0 then 'p' else 'm'
    case Str(_) => 's'
    case Arr(_) => 'a'
    case Obj(_) => 'o'
  }

  ghost function Body(j: Json, rest: string): string
  {
    match j
    case Num(n) => Unary(if n >= 0 then n else -n, rest)
    case Str(s) => Letters(s, rest)
    case Arr(items) => PrintItems(items, rest)
    case Obj(fields) => PrintFields(j, fields, rest)
    case _ => rest
  }

  lemma PrintIsTagged(j: Json, rest: string)
    ensures Print(j, rest) == Put(Tag(j), Body(j, rest))
  {
  }

  lemma {:induction false} PrintSplits(a: Json, b: Json, x: string, y: string)
    requires Print(a, x) == Print(b, y)
    ensures a == b && x == y
    decreases a, 2
  {
    hide Put, Print;
    PrintIsTagged(a, x);
    PrintIsTagged(b, y);
    PutSplits(Tag(a), Tag(b), Body(a, x), Body(b, y));
    match a
    case Num(n) => UnarySplits(if n >= 0 then n else -n, if b.number >= 0 then b.number else -b.number, x, y);
    case Str(text) => LettersSplit(text, b.text, x, y);
    case Arr(items) => ItemsSplit(items, b.items, x, y);
    case Obj(fields) => FieldsSplit(a, fields, b, b.fields, x, y);
    case _ =>
  }

  lemma {:induction false} ItemsSplit(a: seq<Json>, b: seq<Json>, x: string, y: string)
    requires PrintItems(a, x) == PrintItems(b, y)
    ensures a == b && x == y
    decreases a, 0
  {
    hide Put;
    PutSplits(if a == [] then 'e' else 'i', if b == [] then 'e' else 'i',
              if a == [] then x else Print(a[0], PrintItems(a[1..], x)),
              if b == [] then y else Print(b[0], PrintItems(b[1..], y)));
    if a != [] && b != [] {
      PrintSplits(a[0], b[0], PrintItems(a[1..], x), PrintItems(b[1..], y));
      ItemsSplit(a[1..], b[1..], x, y);
      assert a == [a[0]] + a[1..] && b == [b[0]] + b[1..];
    }
  }

  lemma {:induction false} FieldsSplit(wa: Json, a: map<string, Json>, wb: Json, b: map<string, Json>,
                                        x: string, y: string)
    requires Fields(wa, a) && Fields(wb, b)
    requires PrintFields(wa, a, x) == PrintFields(wb, b, y)
    ensures a == b && x == y
    decreases wa, 1, |a|
  {
    hide Put;
    if a == map[] || b == map[] {
      PutSplits(if a == map[] then 'e' else 'k', if b == map[] then 'e' else 'k',
                if a == map[] then x else FirstField(wa, a, x), if b == map[] then y else FirstField(wb, b, y));
    } else {
      PutSplits('k', 'k', FirstField(wa, a, x), FirstField(wb, b, y));
      var k, l := AnyKey(a), AnyKey(b);
      var restA, restB := PrintFields(wa, a - {k}, x), PrintFields(wb, b - {l}, y);
      LettersSplit(k, l, Print(a[k], restA), Print(b[l], restB));
      assert wa.fields[k] < wa;
      PrintSplits(a[k], b[l], restA, restB);
      FieldsSplit(wa, a - {k}, wb, b - {l}, x, y);
      assert a == (a - {k})[k := a[k]] && b == (b - {l})[l := b[l]];
    }
  }

  ghost function FirstField(whole: Json, m: map<string, Json>, rest: string): string
    requires Fields(whole, m) && m != map[]
  {
    var k := AnyKey(m);
    Letters(k, Print(m[k], PrintFields(whole, m - {k}, rest)))
  }

  // ----- Printed values are one nonblank line -----

  predicate NoSpace(s: string)
  {
    forall c :: c in s ==> !IsSpace(c)
  }

  lemma PutNoSpace(c: char, rest: string)
    requires NoSpace(rest) && !IsSpace(c)
    ensures NoSpace(Put(c, rest)) && Put(c, rest) != ""
  {
  }

  lemma {:induction false} UnaryNoSpace(n: nat, rest: string)
    requires NoSpace(rest)
    ensures NoSpace(Unary(n, rest))
  {
    if n == 0 {
    } else {
      UnaryNoSpace(n - 1, rest);
    }
  }

  lemma {:induction false} LettersNoSpace(s: string, rest: string)
    requires NoSpace(rest)
    ensures NoSpace(Letters(s, rest))
  {
    if s == "" {
    } else {
      LettersNoSpace(s[1..], rest);
      UnaryNoSpace(s[0] as int, Letters(s[1..], rest));
    }
  }

  lemma {:induction false} PrintNoSpace(j: Json, rest: string)
    requires NoSpace(rest)
    ensures NoSpace(Print(j, rest)) && Print(j, rest) != ""
    decreases j, 2
  {
    hide Put, Print, NoSpace;
    PrintIsTagged(j, rest);
    match j {
      case Num(n) => UnaryNoSpace(if n >= 0 then n else -n, rest);
      case Str(s) => LettersNoSpace(s, rest);
      case Arr(items) => ItemsNoSpace(items, rest);
      case Obj(fields) => FieldsNoSpace(j, fields, rest);
      case _ =>
    }
    PutNoSpace(Tag(j), Body(j, rest));
  }

  lemma {:induction false} ItemsNoSpace(items: seq<Json>, rest: string)
    requires NoSpace(rest)
    ensures NoSpace(PrintItems(items, rest))
    decreases items, 0
  {
    if items == [] {
    } else {
      ItemsNoSpace(items[1..], rest);
      PrintNoSpace(items[0], PrintItems(items[1..], rest));
    }
  }

  lemma {:induction false} FieldsNoSpace(whole: Json, m: map<string, Json>, rest: string)
    requires Fields(whole, m) && NoSpace(rest)
    ensures NoSpace(PrintFields(whole, m, rest))
    decreases whole, 1, |m|
  {
    hide Put, NoSpace, IsSpace;
    if m == map[] {
      assert !IsSpace('e') by { NotSpaces(); }
      PutNoSpace('e', rest);
    } else {
      var k := AnyKey(m);
      assert whole.fields[k] < whole;
      FieldsNoSpace(whole, m - {k}, rest);
      PrintNoSpace(m[k], PrintFields(whole, m - {k}, rest));
      LettersNoSpace(k, Print(m[k], PrintFields(whole, m - {k}, rest)));
      assert !IsSpace('k') by { NotSpaces(); }
      PutNoSpace('k', FirstField(whole, m, rest));
    }
  }

  lemma NotSpaces()
    ensures !IsSpace('e') && !IsSpace('k') && IsSpace('\n')
  {
  }

  lemma SolidIsTrimmed(s: string)
    requires NoSpace(s) && s != ""
    ensures Trim(s) == s && '\n' !in s
  {
    assert TrimStart(s) == s;
    assert Last(s) in s;
    NotSpaces();
  }

  ghost function Parse(s: string): Option<Json>
  {
    if exists j :: Print(j, "") == s then var j :| Print(j, "") == s; Some(j) else None
  }

  /** The assumptions on the codec contradict nothing: some codec meets them all. */
  lemma LawfulCodecExists() returns (codec: Codec)
    ensures Lawful(codec)
  {
    codec := Codec(s => Parse(s), j => Print(j, ""));
    forall j ensures codec.parse(codec.stringify(j)) == Some(j) {
      PrintSplits(Parse(Print(j, "")).value, j, "", "");
    }
    forall j
      ensures '\n' !in codec.stringify(j)
      ensures codec.stringify(j) != "" && Trim(codec.stringify(j)) == codec.stringify(j)
    {
      PrintNoSpace(j, "");
      SolidIsTrimmed(Print(j, ""));
    }
  }
}
