/** Handler references of plugins: the traversal check and the lexical resolution below the plugin root. */
module PluginResolver {
  import opened Paths
  import opened Text

  predicate Includes(s: string, pattern: string)
  {
    exists i :: 0 <= i <= |s| && pattern <= s[i..]
  }

  /** The traversal check and lexical resolution of a handler reference; `None` stands for the rejection. */
  function HandlerPath(root: string, handlerRef: string): Option<string>
  {
    var normalized := Normalize(handlerRef);
    if ".." <= normalized || Includes(normalized, "../") then None else Some(Resolve(root, normalized))
  }

  /** A reference is pushed back above its start: some part of it is a `..` with nothing left to undo. */
  predicate ClimbsOut(handlerRef: string)
  {
    var rel := Reduce([], Split(handlerRef, '/'), false);
    rel != [] && rel[0] == ".."
  }

  lemma {:induction false} PrefixOfJoin(segs: seq<string>)
    requires segs != []
    ensures segs[0] <= Join(segs, '/')
  {
  }

  lemma ProperWithoutUps(rel: seq<string>)
    requires Proper(rel) && (rel == [] || rel[0] != "..")
    ensures AllNames(rel)
  {
    forall s | s in rel ensures IsName(s) {
      var j :| 0 <= j < |rel| && rel[j] == s;
      if s == ".." {
        assert false;
      }
    }
  }

  /**
   * No relative reference that climbs out gets past the check, and every one that gets past it resolves to the plugin
   * root or below it, at the place its own parts lead to.
   */
  lemma RelativeRefStaysInside(root: seq<string>, handlerRef: string)
    requires AllNames(root) && !IsAbsolute(handlerRef)
    ensures ClimbsOut(handlerRef) ==> HandlerPath(Render(root), handlerRef) == None
    ensures HandlerPath(Render(root), handlerRef).Some? ==>
              && HandlerPath(Render(root), handlerRef).value == Render(Place(root, handlerRef))
              && root <= Place(root, handlerRef)
  {
    var rel := Reduce([], Split(handlerRef, '/'), false);
    SplitPartsClean(handlerRef, '/');
    ReduceRelativeWalks([], Split(handlerRef, '/'), root);
    NamesClean(rel);
    JoinEmptyIff(rel);
    if ClimbsOut(handlerRef) {
      PrefixOfJoin(rel);
      var body := Join(rel, '/');
      assert ".." <= body;
      assert ".." <= body + "/";
    } else {
      ProperWithoutUps(rel);
      WalkOfNames(root, rel);
      NormalizeKeepsPlace(root, handlerRef);
      ResolveRenders(root, Normalize(handlerRef));
    }
  }

  /** An absolute reference ignores the plugin root. */
  lemma AbsoluteRefIgnoresRoot(root: seq<string>, handlerRef: string)
    requires AllNames(root) && IsAbsolute(handlerRef)
    ensures HandlerPath(Render(root), handlerRef).Some? ==>
              HandlerPath(Render(root), handlerRef).value == Render(Place([], handlerRef))
  {
    NormalizeKeepsPlace(root, handlerRef);
    ResolveRenders(root, Normalize(handlerRef));
  }

  /**
   * For every reference that gets past the check: it resolves to the plugin root or below it if and only if it is
   * relative, or names a place there by itself.
   */
  lemma PassedRefInsideIff(root: seq<string>, handlerRef: string)
    requires AllNames(root) && HandlerPath(Render(root), handlerRef).Some?
    ensures HandlerPath(Render(root), handlerRef).value == Render(Place(root, handlerRef))
    ensures root <= Place(root, handlerRef) <==> !IsAbsolute(handlerRef) || root <= Place([], handlerRef)
    ensures root != [] ==>
              (Under(HandlerPath(Render(root), handlerRef).value, Render(root)) <==>
               !IsAbsolute(handlerRef) || root <= Place([], handlerRef))
  {
    hide HandlerPath, Under;
    PlaceNames(root, handlerRef);
    UnderIffPrefix(Place(root, handlerRef), root);
    if IsAbsolute(handlerRef) {
      AbsoluteRefIgnoresRoot(root, handlerRef);
    } else {
      RelativeRefStaysInside(root, handlerRef);
    }
  }

  // ----- Exactly which references pass -----

  predicate EndsInDots(part: string)
  {
    |part| >= 2 && part[|part| - 2..] == ".."
  }

  ghost predicate ClosedByDots(parts: seq<string>)
  {
    exists i :: 0 <= i < |parts| - 1 && EndsInDots(parts[i])
  }

  lemma IncludesStep(c: char, t: string)
    ensures Includes([c] + t, "../") <==> "../" <= [c] + t || Includes(t, "../")
  {
    var s := [c] + t;
    if Includes(s, "../") {
      var i :| 0 <= i <= |s| && "../" <= s[i..];
      assert i == 0 ==> s[i..] == s;
      assert i > 0 ==> s[i..] == t[i - 1..];
    }
    if "../" <= s {
      assert s[0..] == s;
    }
    if Includes(t, "../") {
      var i :| 0 <= i <= |t| && "../" <= t[i..];
      assert s[i + 1..] == t[i..];
    }
  }

  lemma DotsFirstIff(c: char, t: string)
    requires c != '/'
    ensures "../" <= [c] + t <==> |Split(t, '/')| > 1 && [c] + Split(t, '/')[0] == ".."
  {
    var parts := Split(t, '/');
    JoinSplit(t, '/');
    SplitPartsClean(t, '/');
    assert parts[0] in parts;
    if |parts| > 1 {
      assert t == parts[0] + ['/'] + Join(parts[1..], '/');
    } else {
      assert t == parts[0];
    }
    if "../" <= [c] + t {
      var s, up := [c] + t, "../";
      assert s[..3] == up;
      assert s[0] == up[0] && s[1] == up[1] && s[2] == up[2];
      var u := t[2..];
      assert t == "." + ['/'] + u;
      SplitCons(".", u, '/');
    }
  }

  /** A text contains `../` exactly when a part that a slash closes ends in two dots. */
  lemma {:induction false} IncludesIffPartEndsInDots(s: string)
    ensures Includes(s, "../") <==> ClosedByDots(Split(s, '/'))
  {
    if s == "" {
    } else {
      var c, t := s[0], s[1..];
      var rest := Split(t, '/');
      assert s == [c] + t;
      IncludesStep(c, t);
      IncludesIffPartEndsInDots(t);
      if c == '/' {
        assert Split(s, '/') == [""] + rest;
        forall i | 0 <= i < |rest| - 1 && EndsInDots(rest[i]) ensures ClosedByDots(Split(s, '/')) {
          assert Split(s, '/')[i + 1] == rest[i];
        }
      } else {
        DotsFirstIff(c, t);
        WidenedDots(c, rest);
      }
    }
  }

  lemma WidenedPart(c: char, part: string)
    ensures EndsInDots([c] + part) <==> EndsInDots(part) || [c] + part == ".."
  {
    var wide := [c] + part;
    if |part| >= 2 {
      assert wide[|wide| - 2..] == part[|part| - 2..];
    } else if |part| == 1 {
      assert wide[0..] == wide;
    }
  }

  lemma WidenedDots(c: char, rest: seq<string>)
    requires rest != []
    ensures ClosedByDots(Widen(c, rest)) <==> ClosedByDots(rest) || (|rest| > 1 && [c] + rest[0] == "..")
  {
    hide EndsInDots;
    var all := Widen(c, rest);
    WidenedPart(c, rest[0]);
    forall i | 0 < i < |rest| ensures all[i] == rest[i] {
    }
    assert all[0] == [c] + rest[0];
    if ClosedByDots(rest) {
      var i :| 0 <= i < |rest| - 1 && EndsInDots(rest[i]);
      assert EndsInDots(all[i]);
    }
    if |rest| > 1 && [c] + rest[0] == ".." {
      assert EndsInDots(all[0]);
    }
    if ClosedByDots(all) {
      var i :| 0 <= i < |all| - 1 && EndsInDots(all[i]);
      assert EndsInDots(rest[i]) || (i == 0 && [c] + rest[0] == "..");
    }
  }

  /** Exactly which references are refused, in terms of the parts of their normal form. */
  lemma RefusedIff(root: string, handlerRef: string)
    ensures HandlerPath(root, handlerRef) == None <==>
              || ".." <= Split(Normalize(handlerRef), '/')[0]
              || ClosedByDots(Split(Normalize(handlerRef), '/'))
  {
    var n := Normalize(handlerRef);
    IncludesIffPartEndsInDots(n);
    JoinSplit(n, '/');
    var parts := Split(n, '/');
    SplitPartsClean(n, '/');
    if |parts| > 1 {
      assert n == parts[0] + ['/'] + Join(parts[1..], '/');
      assert ".." <= n <==> ".." <= parts[0] by {
        if ".." <= n {
          assert n[0] == '.' && n[1] == '.';
        }
      }
    }
  }

  /** The check is stricter than containment: it refuses a file whose own name starts with two dots. */
  lemma DottedNameRefused()
    ensures !ClimbsOut("..handler.js") && HandlerPath("/plugin", "..handler.js") == None
  {
    var f := "..handler.js";
    SplitNoSeparator(f, '/');
    assert [f][1..] == [];
    assert Reduce([], [f], false) == [f];
    assert ".." <= Normalize(f);
  }

  /** And looser: the text of any place gets past it, unless one of its names ends in two dots. */
  lemma AbsoluteRefPasses(root: seq<string>, place: seq<string>)
    requires AllNames(root) && AllNames(place) && forall name :: name in place ==> !EndsInDots(name)
    ensures HandlerPath(Render(root), Render(place)) == Some(Render(place))
    ensures root != [] && !(root <= place) ==> !Under(Render(place), Render(root))
  {
    hide Normalize, Split, HandlerPath, Walk, Under;
    var ref := Render(place);
    assert IsAbsolute(ref);
    SplitRender(place);
    NormalizeAbsolute(ref);
    if place != [] {
      NoFinalSlash(place);
    }
    assert ref + "" == ref && Normalize(ref) == ref;
    forall i | 0 <= i < |Split(ref, '/')| - 1 ensures !EndsInDots(Split(ref, '/')[i]) {
      assert i > 0 ==> Split(ref, '/')[i] in place;
    }
    RefusedIff(Render(root), ref);
    assert Split(ref, '/')[0] == "";
    AbsoluteRefIgnoresRoot(root, ref);
    UnderIffPrefix(place, root);
  }

  lemma NoFinalSlash(place: seq<string>)
    requires AllNames(place) && place != []
    ensures Last(Render(place)) != '/'
  {
    assert Last(place) in place;
    LastOfJoin(place, '/');
    assert Last(Last(place)) in Last(place);
    var body := Join(place, '/');
    assert Last(Render(place)) == Last(body);
  }

  /** A reference that leads out of the plugin root and gets past the check. */
  lemma OutsideRefPasses()
    ensures HandlerPath("/a", "/b") == Some("/b") && !Under("/b", "/a")
  {
    hide HandlerPath, Under;
    assert Render(["a"]) == "/a" && Render(["b"]) == "/b";
    AbsoluteRefPasses(["a"], ["b"]);
  }
}
