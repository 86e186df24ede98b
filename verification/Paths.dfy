/** POSIX paths as text and as segment lists: normalisation, resolution and the allowlist test. */
module Paths {
  import opened Text

  // ----- What a path means -----

  /** A name a directory entry can have. */
  predicate IsName(seg: string)
  {
    seg != "" && '/' !in seg && seg != "." && seg != ".."
  }

  predicate AllNames(segs: seq<string>)
  {
    forall s :: s in segs ==> IsName(s)
  }

  /** One step from a directory, given by its names from the root. The root is its own parent. */
  function Go(dir: seq<string>, part: string): seq<string>
  {
    if part == "" || part == "." then dir
    else if part == ".." then if dir == [] then [] else Init(dir)
    else dir + [part]
  }

  function Walk(dir: seq<string>, parts: seq<string>): seq<string>
    decreases |parts|
  {
    if parts == [] then dir else Walk(Go(dir, parts[0]), parts[1..])
  }

  predicate IsAbsolute(path: string)
  {
    path != "" && path[0] == '/'
  }

  /** Where a path leads, lexically: from the root if it is absolute, else from `cwd`. */
  function Place(cwd: seq<string>, path: string): seq<string>
  {
    Walk(if IsAbsolute(path) then [] else cwd, Split(path, '/'))
  }

  /** The text of a place. */
  function Render(segs: seq<string>): string
  {
    "/" + Join(segs, '/')
  }

  // ----- Node's normalize and resolve -----

  /** One turn of the segment stack: a `..` pops a name; where none is left it is kept unless the path is absolute. */
  function Pushed(stack: seq<string>, part: string, absolute: bool): seq<string>
  {
    if part == "" || part == "." then stack
    else if part == ".." then
      if stack != [] && Last(stack) != ".." then Init(stack)
      else if absolute then stack
      else stack + [".."]
    else stack + [part]
  }

  function Reduce(stack: seq<string>, parts: seq<string>, absolute: bool): seq<string>
    decreases |parts|
  {
    if parts == [] then stack else Reduce(Pushed(stack, parts[0], absolute), parts[1..], absolute)
  }

  method ReduceLoop(parts: seq<string>, absolute: bool) returns (stack: seq<string>)
    ensures stack == Reduce([], parts, absolute)
  {
    stack := [];
    var i := 0;
    while i < |parts|
      invariant 0 <= i <= |parts|
      invariant Reduce(stack, parts[i..], absolute) == Reduce([], parts, absolute)
    {
      var part := parts[i];
      assert parts[i..][0] == part && parts[i..][1..] == parts[i + 1..];
      if part != "" && part != "." {
        if part != ".." {
          stack := stack + [part];
        } else if |stack| > 0 && stack[|stack| - 1] != ".." {
          stack := stack[..|stack| - 1];
        } else if !absolute {
          stack := stack + [".."];
        }
      }
      i := i + 1;
    }
  }

  function Normalize(path: string): string
  {
    if path == "" then "."
    else
      var absolute := IsAbsolute(path);
      var trailing := Last(path) == '/';
      var body := Join(Reduce([], Split(path, '/'), absolute), '/');
      if absolute then "/" + body + (if body != "" && trailing then "/" else "")
      else if body == "" then if trailing then "./" else "."
      else body + (if trailing then "/" else "")
  }

  /** `resolve(base, path)`, or `resolve(path)` with the working directory as base. The base is absolute. */
  function Resolve(base: string, path: string): string
  {
    var full := if IsAbsolute(path) then path else base + "/" + path;
    "/" + Join(Reduce([], Split(full, '/'), true), '/')
  }

  // ----- The segment stack walks -----

  lemma {:induction false} WalkConcat(dir: seq<string>, a: seq<string>, b: seq<string>)
    ensures Walk(dir, a + b) == Walk(Walk(dir, a), b)
    decreases |a|
  {
    if a == [] {
      assert a + b == b;
    } else {
      WalkConcat(Go(dir, a[0]), a[1..], b);
      assert (a + b)[1..] == a[1..] + b;
    }
  }

  lemma WalkSnoc(dir: seq<string>, a: seq<string>, part: string)
    ensures Walk(dir, a + [part]) == Go(Walk(dir, a), part)
  {
    WalkConcat(dir, a, [part]);
    assert [part][1..] == [];
  }

  predicate NoUps(segs: seq<string>)
  {
    forall s :: s in segs ==> s != ".."
  }

  lemma {:induction false} ReduceAbsoluteWalks(stack: seq<string>, parts: seq<string>)
    requires NoUps(stack)
    ensures Reduce(stack, parts, true) == Walk(stack, parts)
    decreases |parts|
  {
    if parts == [] {
    } else {
      assert stack != [] ==> Last(stack) in stack;
      ReduceAbsoluteWalks(Pushed(stack, parts[0], true), parts[1..]);
    }
  }

  /** Parts split at slashes that are neither empty nor dots are names. */
  predicate Clean(parts: seq<string>)
  {
    forall p :: p in parts ==> '/' !in p
  }

  lemma {:induction false} WalkNames(dir: seq<string>, parts: seq<string>)
    requires AllNames(dir) && Clean(parts)
    ensures AllNames(Walk(dir, parts))
    decreases |parts|
  {
    if parts == [] {
    } else {
      assert parts[0] in parts;
      WalkNames(Go(dir, parts[0]), parts[1..]);
    }
  }

  lemma {:induction false} WalkOfNames(dir: seq<string>, names: seq<string>)
    requires AllNames(names)
    ensures Walk(dir, names) == dir + names
    decreases |names|
  {
    if names == [] {
    } else {
      assert names[0] in names;
      WalkOfNames(dir + [names[0]], names[1..]);
      assert dir + [names[0]] + names[1..] == dir + names;
    }
  }

  lemma PlaceNames(cwd: seq<string>, path: string)
    requires AllNames(cwd)
    ensures AllNames(Place(cwd, path))
  {
    SplitPartsClean(path, '/');
    WalkNames(if IsAbsolute(path) then [] else cwd, Split(path, '/'));
  }

  // ----- The stack of a relative path -----

  /** Kept `..` segments come first. */
  predicate UpsFirst(stack: seq<string>)
  {
    forall i, j :: 0 <= i < j < |stack| && stack[j] == ".." ==> stack[i] == ".."
  }

  predicate Proper(stack: seq<string>)
  {
    UpsFirst(stack) && forall s :: s in stack ==> s == ".." || IsName(s)
  }

  /** A relative stack stays proper and leads from any directory to where the parts lead. */
  lemma PushedRelative(stack: seq<string>, part: string, dir: seq<string>)
    requires Proper(stack) && '/' !in part
    ensures Proper(Pushed(stack, part, false))
    ensures Walk(dir, Pushed(stack, part, false)) == Go(Walk(dir, stack), part)
  {
    if part != "" && part != "." {
      if part == ".." && stack != [] && Last(stack) != ".." {
        var front := Init(stack);
        assert stack == front + [Last(stack)];
        assert Last(stack) in stack;
        WalkSnoc(dir, front, Last(stack));
        assert Init(Walk(dir, front) + [Last(stack)]) == Walk(dir, front);
      } else {
        WalkSnoc(dir, stack, part);
      }
    }
  }

  lemma {:induction false} ReduceRelativeWalks(stack: seq<string>, parts: seq<string>, dir: seq<string>)
    requires Proper(stack) && Clean(parts)
    ensures Proper(Reduce(stack, parts, false))
    ensures Walk(dir, Reduce(stack, parts, false)) == Walk(Walk(dir, stack), parts)
    decreases |parts|
  {
    if parts == [] {
    } else {
      assert parts[0] in parts;
      PushedRelative(stack, parts[0], dir);
      ReduceRelativeWalks(Pushed(stack, parts[0], false), parts[1..], dir);
    }
  }

  // ----- Splitting rendered text -----

  lemma SplitAtSeparator(x: string, y: string, sep: char)
    ensures Split(x + [sep] + y, sep) == Split(x, sep) + Split(y, sep)
  {
    hide Split;
    var parts, tail := Split(x, sep), Split(y, sep);
    assert x + ([sep] + y) == x + [sep] + y;
    assert Split(x + ([sep] + y), sep) == Init(parts) + Split(Last(parts) + ([sep] + y), sep) by {
      SplitResume(x, [sep] + y, sep);
    }
    assert Split(Last(parts) + ([sep] + y), sep) == [Last(parts)] + tail by {
      SplitPartsClean(x, sep);
      SplitCons(Last(parts), y, sep);
      assert Last(parts) + ([sep] + y) == Last(parts) + [sep] + y;
    }
    assert Init(parts) + ([Last(parts)] + tail) == parts + tail;
  }

  lemma NamesClean(segs: seq<string>)
    requires forall s :: s in segs ==> s == ".." || IsName(s)
    ensures forall s :: s in segs ==> '/' !in s && s != "" && s != "."
  {
  }

  lemma SplitRender(segs: seq<string>)
    requires AllNames(segs)
    ensures Split(Render(segs), '/') == [""] + if segs == [] then [""] else segs
    ensures Walk([], Split(Render(segs), '/')) == segs
  {
    SplitCons("", Join(segs, '/'), '/');
    assert "" + ['/'] + Join(segs, '/') == Render(segs);
    if segs != [] {
      SplitJoin(segs, '/');
      WalkOfNames([], segs);
      assert ([""] + segs)[1..] == segs;
    } else {
      assert Walk([], ["", ""]) == [] by { assert ["", ""][1..] == [""]; assert [""][1..] == []; }
    }
  }

  lemma RenderInjective(a: seq<string>, b: seq<string>)
    requires AllNames(a) && AllNames(b)
    ensures Render(a) == Render(b) <==> a == b
  {
    SplitRender(a);
    SplitRender(b);
  }

  /** Resolving renders the place. */
  lemma ResolveRenders(cwd: seq<string>, path: string)
    requires AllNames(cwd)
    ensures Resolve(Render(cwd), path) == Render(Place(cwd, path))
  {
    var full := if IsAbsolute(path) then path else Render(cwd) + "/" + path;
    ReduceAbsoluteWalks([], Split(full, '/'));
    if !IsAbsolute(path) {
      SplitAtSeparator(Render(cwd), path, '/');
      assert Render(cwd) + ['/'] + path == full;
      SplitRender(cwd);
      WalkConcat([], Split(Render(cwd), '/'), Split(path, '/'));
    }
  }

  lemma {:induction false} JoinEmptyIff(segs: seq<string>)
    requires forall s :: s in segs ==> s != ""
    ensures Join(segs, '/') == "" <==> segs == []
  {
    if segs == [] {
    } else {
      assert segs[0] in segs;
    }
  }

  /** The last part of a path is empty exactly when it ends in a slash. */
  lemma WalkTrailing(dir: seq<string>, segs: seq<string>)
    requires segs != [] && forall s :: s in segs ==> '/' !in s
    ensures Walk(dir, Split(Join(segs, '/') + "/", '/')) == Walk(dir, segs)
  {
    var body := Join(segs, '/');
    SplitJoin(segs, '/');
    SplitAtSeparator(body, "", '/');
    assert body + ['/'] + "" == body + "/";
    WalkSnoc(dir, segs, "");
  }

  lemma {:induction false} JoinHead(segs: seq<string>)
    requires segs != [] && segs[0] != ""
    ensures Join(segs, '/') != "" && Join(segs, '/')[0] == segs[0][0]
  {
  }

  lemma WalkDot(dir: seq<string>)
    ensures Walk(dir, Split(".", '/')) == dir && Walk(dir, Split("./", '/')) == dir
  {
    SplitNoSeparator(".", '/');
    SplitAtSeparator(".", "", '/');
    assert "." + ['/'] + "" == "./";
    WalkConcat(dir, ["."], [""]);
    assert ["."][1..] == [] && [""][1..] == [];
  }

  /** Normalising a relative path gives a relative path to the same place, from wherever it is read. */
  lemma NormalizeRelative(path: string, dir: seq<string>)
    requires !IsAbsolute(path)
    ensures !IsAbsolute(Normalize(path))
    ensures Walk(dir, Split(Normalize(path), '/')) == Walk(dir, Split(path, '/'))
  {
    WalkDot(dir);
    if path == "" {
      assert Split("", '/') == [""];
      assert [""][1..] == [];
    } else {
      var rel := Reduce([], Split(path, '/'), false);
      SplitPartsClean(path, '/');
      ReduceRelativeWalks([], Split(path, '/'), dir);
      NamesClean(rel);
      JoinEmptyIff(rel);
      assert Walk(dir, rel) == Walk(dir, Split(path, '/'));
      if rel == [] {
        assert Normalize(path) == if Last(path) == '/' then "./" else ".";
      } else {
        assert rel[0] in rel;
        JoinHead(rel);
        SplitJoin(rel, '/');
        WalkTrailing(dir, rel);
        assert Normalize(path) == Join(rel, '/') + if Last(path) == '/' then "/" else "";
        assert Join(rel, '/') + "" == Join(rel, '/');
      }
    }
  }

  /** A normalised absolute path is the text of its place, with a final slash only where there was one to keep. */
  lemma NormalizeAbsolute(path: string)
    requires IsAbsolute(path)
    ensures IsAbsolute(Normalize(path))
    ensures var place := Walk([], Split(path, '/'));
            Normalize(path) == Render(place) + if place != [] && Last(path) == '/' then "/" else ""
    ensures Walk([], Split(Normalize(path), '/')) == Walk([], Split(path, '/'))
  {
    var segs := Reduce([], Split(path, '/'), true);
    ReduceAbsoluteWalks([], Split(path, '/'));
    SplitPartsClean(path, '/');
    WalkNames([], Split(path, '/'));
    SplitRender(segs);
    NamesClean(segs);
    JoinEmptyIff(segs);
    assert Render(segs) + "" == Render(segs);
    if segs != [] && Last(path) == '/' {
      assert Normalize(path) == Render(segs) + "/";
      SplitAtSeparator(Render(segs), "", '/');
      assert Render(segs) + ['/'] + "" == Render(segs) + "/";
      WalkConcat([], Split(Render(segs), '/'), [""]);
      assert [""][1..] == [];
    }
  }

  /** Normalising first changes nothing about where a path resolves to. */
  lemma NormalizeKeepsPlace(cwd: seq<string>, path: string)
    ensures Place(cwd, Normalize(path)) == Place(cwd, path)
    ensures IsAbsolute(Normalize(path)) <==> IsAbsolute(path)
  {
    if IsAbsolute(path) {
      NormalizeAbsolute(path);
    } else {
      NormalizeRelative(path, cwd);
    }
  }

  // ----- The allowlist -----

  /** The text test of one allowed root. */
  predicate Under(resolved: string, base: string)
  {
    resolved == base || base + "/" <= resolved
  }

  /** `None` stands for the "Access denied" exception. */
  function ValidatePath(cwd: string, allowed: seq<string>, path: string): Option<string>
  {
    var resolved := Resolve(cwd, Normalize(path));
    if exists p :: p in allowed && Under(resolved, Resolve(cwd, Normalize(p))) then Some(resolved) else None
  }

  lemma {:induction false} JoinAppend(a: seq<string>, b: seq<string>)
    requires a != [] && b != []
    ensures Join(a + b, '/') == Join(a, '/') + "/" + Join(b, '/')
  {
    if |a| == 1 {
      assert (a + b)[1..] == b;
    } else {
      JoinAppend(a[1..], b);
      assert (a + b)[1..] == a[1..] + b;
    }
  }

  /** The text test holds exactly for the base itself and what lies below it; below the root itself it never holds. */
  lemma UnderIffPrefix(segs: seq<string>, base: seq<string>)
    requires AllNames(segs) && AllNames(base)
    ensures Under(Render(segs), Render(base)) <==> if base == [] then segs == [] else base <= segs
  {
    var t, b := Render(segs), Render(base);
    RenderInjective(segs, base);
    if base == [] {
      if segs != [] {
        assert segs[0] in segs;
        JoinHead(segs);
        assert t[1] != '/' && "//"[1] == '/';
      }
    } else if base <= segs && base != segs {
      var rest := segs[|base|..];
      assert segs == base + rest;
      JoinAppend(base, rest);
      assert t == b + "/" + Join(rest, '/');
    } else if b + "/" <= t {
      BelowMeansPrefix(segs, base);
    }
  }

  lemma BelowMeansPrefix(segs: seq<string>, base: seq<string>)
    requires AllNames(segs) && AllNames(base) && base != []
    requires Render(base) + "/" <= Render(segs)
    ensures base <= segs
  {
    hide Split, Render, IsName;
    var t, b := Render(segs), Render(base);
    var y := t[|b| + 1..];
    assert t == b + ['/'] + y;
    SplitAtSeparator(b, y, '/');
    SplitRender(segs);
    SplitRender(base);
    var parts, tail := Split(y, '/'), if segs == [] then [""] else segs;
    assert [""] + tail == [""] + base + parts;
    assert ([""] + tail)[1..] == tail && ([""] + base + parts)[1..] == base + parts;
    assert base[0] in base && tail[0] == base[0];
  }

  /** Some root's place is an initial part of the path's place; the root directory as a root allows only itself. */
  predicate Contained(cwd: seq<string>, allowed: seq<string>, path: string)
  {
    exists p :: p in allowed &&
      if Place(cwd, p) == [] then Place(cwd, path) == [] else Place(cwd, p) <= Place(cwd, path)
  }

  /**
   * Lexical containment: a path is accepted exactly when an allowed root's segments are an initial part of its own, and
   * it is accepted as the text of the place it leads to.
   */
  lemma ValidateIffContained(cwd: seq<string>, allowed: seq<string>, path: string)
    requires AllNames(cwd)
    ensures ValidatePath(Render(cwd), allowed, path)
         == if Contained(cwd, allowed, path) then Some(Render(Place(cwd, path))) else None
  {
    NormalizeKeepsPlace(cwd, path);
    ResolveRenders(cwd, Normalize(path));
    PlaceNames(cwd, path);
    forall p | p in allowed
      ensures Under(Render(Place(cwd, path)), Resolve(Render(cwd), Normalize(p)))
         <==> if Place(cwd, p) == [] then Place(cwd, path) == [] else Place(cwd, p) <= Place(cwd, path)
    {
      NormalizeKeepsPlace(cwd, p);
      ResolveRenders(cwd, Normalize(p));
      PlaceNames(cwd, p);
      UnderIffPrefix(Place(cwd, path), Place(cwd, p));
    }
  }

  /** Validating an accepted path again returns it unchanged. */
  lemma ValidateIdempotent(cwd: seq<string>, allowed: seq<string>, path: string)
    requires AllNames(cwd) && ValidatePath(Render(cwd), allowed, path).Some?
    ensures var resolved := ValidatePath(Render(cwd), allowed, path).value;
            ValidatePath(Render(cwd), allowed, resolved) == Some(resolved)
  {
    ValidateIffContained(cwd, allowed, path);
    PlaceNames(cwd, path);
    SplitRender(Place(cwd, path));
    ValidateIffContained(cwd, allowed, Render(Place(cwd, path)));
  }
}
