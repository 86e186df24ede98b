/** Workspace snapshots: the recursive walk over a directory tree and what it must find. */
module Workspace {
  import opened Paths
  import opened Text

  /**
   * A symlink-free tree as the file system shows it. A file's content is `None` when it cannot be read; `Sealed` is a
   * directory that cannot be listed, `Special` neither file nor directory, `Gone` what cannot be looked at.
   */
  datatype Node =
    | File(size: nat, content: Option<string>)
    | Dir(entries: seq<Entry>)
    | Sealed
    | Special
    | Gone

  datatype Entry = Entry(name: string, node: Node)

  datatype WorkspaceFile = WorkspaceFile(path: string, content: string)

  const FETCH_EXCLUDE: seq<string> := ["node_modules", ".git", "dist", ".kb/cache", ".kb/runtime", ".kb/logs"]
  const MAX_FILE_BYTES := 5 * 1024 * 1024

  // ----- What a snapshot is -----

  /** A file somewhere in the tree, by the names that lead to it. */
  datatype Found = Found(path: seq<string>, size: nat, content: Option<string>)

  /** All files of a tree in traversal order. */
  function FilesAt(path: seq<string>, node: Node): seq<Found>
    decreases node, 1
  {
    match node
    case File(size, content) => [Found(path, size, content)]
    case Dir(entries) => FilesIn(path, entries)
    case _ => []
  }

  function FilesIn(path: seq<string>, entries: seq<Entry>): seq<Found>
    decreases entries, 0
  {
    if entries == [] then []
    else FilesAt(path + [entries[0].name], entries[0].node) + FilesIn(path, entries[1..])
  }

  /** Some component is an excluded name, or some initial part is an excluded relative path. */
  predicate Excluded(path: seq<string>)
  {
    || (exists s :: s in path && s in FETCH_EXCLUDE)
    || (exists k :: 1 <= k <= |path| && Join(path[..k], '/') in FETCH_EXCLUDE)
  }

  predicate Wanted(f: Found)
  {
    !Excluded(f.path) && f.content.Some? && f.size < MAX_FILE_BYTES
  }

  function Snapshot(found: seq<Found>): seq<WorkspaceFile>
  {
    if found == [] then []
    else if Wanted(found[0]) then
      [WorkspaceFile(Join(found[0].path, '/'), found[0].content.value)] + Snapshot(found[1..])
    else Snapshot(found[1..])
  }

  /** Entry names as `readdir` gives them. */
  predicate Valid(node: Node)
    decreases node, 1
  {
    node.Dir? ==> ValidIn(node.entries)
  }

  predicate ValidIn(entries: seq<Entry>)
    decreases entries, 0
  {
    entries == [] ||
    (&& IsName(entries[0].name) && Valid(entries[0].node)
     && (forall e :: e in entries[1..] ==> e.name != entries[0].name)
     && ValidIn(entries[1..]))
  }

  // ----- The walk as the source has it -----

  /** The test on one directory entry. */
  predicate Skips(relPath: string, entry: string)
  {
    exists ex :: ex in FETCH_EXCLUDE && (relPath == ex || ex + "/" <= relPath || entry == ex)
  }

  /** The growing list of files that the walk pushes into. */
  class Output {
    var files: seq<WorkspaceFile>

    constructor ()
      ensures files == []
    {
      files := [];
    }

    method Push(f: WorkspaceFile)
      modifies this
      ensures files == old(files) + [f]
    {
      files := files + [f];
    }
  }

  method CollectFiles(dir: seq<string>, node: Node, out: Output)
    requires Valid(node) && AllNames(dir) && !Excluded(dir)
    modifies out
    ensures out.files == old(out.files) + if node.Dir? then Snapshot(FilesAt(dir, node)) else []
    decreases node, 0
  {
    if !node.Dir? {
      return;
    }
    var entries := node.entries;
    var i := 0;
    while i < |entries|
      invariant 0 <= i <= |entries|
      invariant ValidIn(entries[i..])
      invariant old(out.files) + Snapshot(FilesIn(dir, entries)) == out.files + Snapshot(FilesIn(dir, entries[i..]))
    {
      ghost var before := out.files;
      assert entries[i..][0] == entries[i] && entries[i..][1..] == entries[i + 1..];
      SnapshotStep(dir, entries[i..], before);
      CollectEntry(dir, entries[i], out);
      i := i + 1;
    }
  }

  /** The body of the loop over a directory's entries. */
  method CollectEntry(dir: seq<string>, entry: Entry, out: Output)
    requires IsName(entry.name) && Valid(entry.node) && AllNames(dir) && !Excluded(dir)
    modifies out
    ensures out.files == old(out.files) + Snapshot(FilesAt(dir + [entry.name], entry.node))
    decreases entry.node, 1
  {
    var path := dir + [entry.name];
    var relPath := Join(path, '/');
    SkipsIffExcluded(dir, entry.name);
    if Skips(relPath, entry.name) {
      ExcludedSubtree(path, entry.node);
      return;
    }
    match entry.node
    case Dir(_) => CollectFiles(path, entry.node, out);
    case File(size, content) =>
      OneFile(path, size, content);
      if size < MAX_FILE_BYTES {
        if content.Some? {
          out.Push(WorkspaceFile(relPath, content.value));
        }
      }
    case _ =>
  }

  lemma OneFile(path: seq<string>, size: nat, content: Option<string>)
    requires !Excluded(path)
    ensures Snapshot(FilesAt(path, File(size, content)))
         == if size < MAX_FILE_BYTES && content.Some? then [WorkspaceFile(Join(path, '/'), content.value)] else []
  {
    var f := Found(path, size, content);
    assert [f][1..] == [];
  }

  lemma SnapshotStep(dir: seq<string>, entries: seq<Entry>, before: seq<WorkspaceFile>)
    requires entries != []
    ensures before + Snapshot(FilesIn(dir, entries))
         == before + Snapshot(FilesAt(dir + [entries[0].name], entries[0].node)) + Snapshot(FilesIn(dir, entries[1..]))
  {
    SnapshotConcat(FilesAt(dir + [entries[0].name], entries[0].node), FilesIn(dir, entries[1..]));
  }

  /** `fetchWorkspace` on the tree found at the validated path; `None` when the path is denied. */
  method FetchWorkspace(cwd: string, allowed: seq<string>, workspacePath: string, tree: Node)
    returns (files: Option<seq<WorkspaceFile>>)
    requires Valid(tree)
    ensures files == if ValidatePath(cwd, allowed, workspacePath) == None then None
                     else Some(if tree.Dir? then Snapshot(FilesAt([], tree)) else [])
  {
    if ValidatePath(cwd, allowed, workspacePath) == None {
      return None;
    }
    var out := new Output();
    CollectFiles([], tree, out);
    assert [] + Snapshot(FilesAt([], tree)) == Snapshot(FilesAt([], tree));
    return Some(out.files);
  }

  // ----- Skipping whole directories loses nothing else -----

  lemma {:induction false} SnapshotConcat(a: seq<Found>, b: seq<Found>)
    ensures Snapshot(a + b) == Snapshot(a) + Snapshot(b)
  {
    if a == [] {
      assert a + b == b;
    } else {
      SnapshotConcat(a[1..], b);
      assert (a + b)[1..] == a[1..] + b;
    }
  }

  lemma ExcludedExtends(path: seq<string>, more: seq<string>)
    requires Excluded(path)
    ensures Excluded(path + more)
  {
    var all := path + more;
    if s :| s in path && s in FETCH_EXCLUDE {
      assert s in all;
    } else {
      var k :| 1 <= k <= |path| && Join(path[..k], '/') in FETCH_EXCLUDE;
      assert all[..k] == path[..k];
    }
  }

  /** Files come in the order of the entries, each entry's files together. */
  lemma {:induction false} FilesInOrder(path: seq<string>, a: seq<Entry>, b: seq<Entry>)
    ensures FilesIn(path, a + b) == FilesIn(path, a) + FilesIn(path, b)
    ensures forall e: Entry :: FilesIn(path, [e]) == FilesAt(path + [e.name], e.node)
  {
    forall e: Entry ensures FilesIn(path, [e]) == FilesAt(path + [e.name], e.node) {
      assert [e][1..] == [];
    }
    if a == [] {
      assert a + b == b;
    } else {
      FilesInOrder(path, a[1..], b);
      assert (a + b)[1..] == a[1..] + b;
    }
  }

  /** The excluded paths by name: in a dependency, version-control or build directory, or one of three below `.kb`. */
  lemma ExcludedIff(path: seq<string>)
    requires AllNames(path)
    ensures Excluded(path) <==>
              || "node_modules" in path || ".git" in path || "dist" in path
              || (|path| >= 2 && path[0] == ".kb" && (path[1] == "cache" || path[1] == "runtime" || path[1] == "logs"))
  {
    forall s | s in path ensures IsName(s) {
    }
    forall k | 1 <= k <= |path|
      ensures Join(path[..k], '/') in FETCH_EXCLUDE <==>
                || (k == 1 && path[0] in ["node_modules", ".git", "dist"])
                || (k == 2 && path[0] == ".kb" && path[1] in ["cache", "runtime", "logs"])
    {
      JoinedName(path[..k]);
      assert k == 2 ==> path[..k] == [path[0], path[1]];
      assert k == 1 ==> path[..k] == [path[0]];
    }
    if |path| >= 2 && path[0] == ".kb" && (path[1] == "cache" || path[1] == "runtime" || path[1] == "logs") {
      assert Join(path[..2], '/') in FETCH_EXCLUDE;
    }
  }

  /** A joined path is an excluded one exactly when its names are those of the excluded one. */
  lemma JoinedName(names: seq<string>)
    requires names != [] && AllNames(names)
    ensures Join(names, '/') in FETCH_EXCLUDE <==>
              || names in [["node_modules"], [".git"], ["dist"]]
              || names in [[".kb", "cache"], [".kb", "runtime"], [".kb", "logs"]]
  {
    hide Join, AllNames;
    JoinsToOne(names, "node_modules");
    JoinsToOne(names, ".git");
    JoinsToOne(names, "dist");
    JoinsToTwo(names, ".kb", "cache");
    JoinsToTwo(names, ".kb", "runtime");
    JoinsToTwo(names, ".kb", "logs");
    assert ".kb" + "/" + "cache" == ".kb/cache";
    assert ".kb" + "/" + "runtime" == ".kb/runtime";
    assert ".kb" + "/" + "logs" == ".kb/logs";
  }

  lemma JoinsToOne(names: seq<string>, name: string)
    requires names != [] && AllNames(names) && '/' !in name
    ensures Join(names, '/') == name <==> names == [name]
  {
    SplitJoin(names, '/');
    SplitNoSeparator(name, '/');
  }

  lemma JoinsToTwo(names: seq<string>, a: string, b: string)
    requires names != [] && AllNames(names) && '/' !in a && '/' !in b
    ensures Join(names, '/') == a + "/" + b <==> names == [a, b]
  {
    SplitJoin(names, '/');
    SplitNoSeparator(b, '/');
    SplitCons(a, b, '/');
    assert [a, b][1..] == [b];
  }

  /** Every file of a subtree lies below the subtree's path. */
  lemma {:induction false} FilesBelow(path: seq<string>, node: Node)
    ensures forall f :: f in FilesAt(path, node) ==> path <= f.path
    decreases node, 1
  {
    if node.Dir? {
      FilesInBelow(path, node.entries);
    }
  }

  lemma {:induction false} FilesInBelow(path: seq<string>, entries: seq<Entry>)
    ensures forall f :: f in FilesIn(path, entries) ==> path <= f.path
    decreases entries, 0
  {
    if entries == [] {
    } else {
      FilesBelow(path + [entries[0].name], entries[0].node);
      FilesInBelow(path, entries[1..]);
    }
  }

  lemma {:induction false} NothingWanted(found: seq<Found>)
    requires forall f :: f in found ==> Excluded(f.path)
    ensures Snapshot(found) == []
  {
    if found == [] {
    } else {
      assert found[0] in found;
      NothingWanted(found[1..]);
    }
  }

  lemma ExcludedSubtree(path: seq<string>, node: Node)
    requires Excluded(path)
    ensures Snapshot(FilesAt(path, node)) == []
  {
    FilesBelow(path, node);
    forall f | f in FilesAt(path, node) ensures Excluded(f.path) {
      ExcludedExtends(path, f.path[|path|..]);
      assert path + f.path[|path|..] == f.path;
    }
    NothingWanted(FilesAt(path, node));
  }

  /** A relative path continues an excluded one only if one of its directories is excluded itself. */
  lemma ContinuesMeansInside(path: seq<string>, ex: string)
    requires path != [] && AllNames(path) && ex + "/" <= Join(path, '/')
    ensures exists k :: 1 <= k < |path| && Join(path[..k], '/') == ex
  {
    var t := Join(path, '/');
    var y := t[|ex| + 1..];
    assert t == ex + ['/'] + y;
    SplitAtSeparator(ex, y, '/');
    SplitJoin(path, '/');
    var k := |Split(ex, '/')|;
    assert path == Split(ex, '/') + Split(y, '/');
    assert path[..k] == Split(ex, '/');
    JoinSplit(ex, '/');
  }

  lemma ContinuesMeansExcluded(dir: seq<string>, name: string, ex: string)
    requires AllNames(dir) && IsName(name) && ex in FETCH_EXCLUDE && ex + "/" <= Join(dir + [name], '/')
    ensures Excluded(dir)
  {
    var path := dir + [name];
    ContinuesMeansInside(path, ex);
    var k :| 1 <= k < |path| && Join(path[..k], '/') == ex;
    assert path[..k] == dir[..k];
  }

  lemma ExcludedLast(dir: seq<string>, name: string)
    ensures Excluded(dir + [name])
       <==> Excluded(dir) || name in FETCH_EXCLUDE || Join(dir + [name], '/') in FETCH_EXCLUDE
  {
    var path := dir + [name];
    assert path[..|path|] == path && name in path;
    if Excluded(dir) {
      ExcludedExtends(dir, [name]);
    }
    if Excluded(path) {
      if s :| s in path && s in FETCH_EXCLUDE {
        assert s in dir || s == name;
      } else {
        var k :| 1 <= k <= |path| && Join(path[..k], '/') in FETCH_EXCLUDE;
        assert k < |path| ==> path[..k] == dir[..k];
      }
    }
  }

  /** On an entry of a directory that was entered, the code's test is exclusion of the entry's own path. */
  lemma SkipsIffExcluded(dir: seq<string>, name: string)
    requires AllNames(dir) && IsName(name) && !Excluded(dir)
    ensures Skips(Join(dir + [name], '/'), name) <==> Excluded(dir + [name])
    ensures forall ex :: ex in FETCH_EXCLUDE ==> !(ex + "/" <= Join(dir + [name], '/'))
  {
    forall ex | ex in FETCH_EXCLUDE ensures !(ex + "/" <= Join(dir + [name], '/')) {
      if ex + "/" <= Join(dir + [name], '/') {
        ContinuesMeansExcluded(dir, name, ex);
      }
    }
    ExcludedLast(dir, name);
  }

  // ----- Exactly the wanted files, once each -----

  /** The node that a list of names leads to. */
  function NodeAt(node: Node, names: seq<string>): Option<Node>
    decreases names
  {
    if names == [] then Some(node)
    else if !node.Dir? then None
    else match Child(node.entries, names[0])
      case Some(child) => NodeAt(child, names[1..])
      case None => None
  }

  function Child(entries: seq<Entry>, name: string): Option<Node>
  {
    if entries == [] then None
    else if entries[0].name == name then Some(entries[0].node)
    else Child(entries[1..], name)
  }

  lemma {:induction false} ChildNames(entries: seq<Entry>, name: string)
    ensures Child(entries, name).Some? ==> exists e :: e in entries && e.name == name
  {
    if entries == [] {
    } else {
      ChildNames(entries[1..], name);
      assert entries[0] in entries;
    }
  }

  lemma {:induction false} FoundIff(path: seq<string>, node: Node, names: seq<string>,
                                     size: nat, content: Option<string>)
    requires Valid(node)
    ensures Found(path + names, size, content) in FilesAt(path, node)
       <==> NodeAt(node, names) == Some(File(size, content))
    decreases node, 1
  {
    match node
    case File(_, _) =>
      assert path + names == path <==> names == [] by {
        assert |path + names| == |path| + |names|;
        assert names == [] ==> path + names == path;
      }
    case Dir(entries) => FoundInIff(path, entries, names, size, content);
    case _ =>
  }

  /** The node that names lead to from a list of entries; no names lead to no file. */
  function NodeIn(entries: seq<Entry>, names: seq<string>): Option<Node>
  {
    if names == [] then None
    else match Child(entries, names[0])
      case Some(child) => NodeAt(child, names[1..])
      case None => None
  }

  lemma {:induction false} FoundInIff(path: seq<string>, entries: seq<Entry>, names: seq<string>,
                                       size: nat, content: Option<string>)
    requires ValidIn(entries)
    ensures Found(path + names, size, content) in FilesIn(path, entries)
       <==> NodeIn(entries, names) == Some(File(size, content))
    decreases entries, 0
  {
    if entries == [] {
    } else {
      var e := entries[0];
      var below := path + [e.name];
      var f := Found(path + names, size, content);
      FoundInIff(path, entries[1..], names, size, content);
      FilesBelow(below, e.node);
      assert below <= path + names ==> names != [] && names[0] == e.name by {
        if below <= path + names {
          assert (path + names)[|path|] == below[|path|];
        }
      }
      if names != [] && names[0] == e.name {
        assert path + names == below + names[1..];
        FoundIff(below, e.node, names[1..], size, content);
        ChildNames(entries[1..], e.name);
      } else {
        assert f !in FilesAt(below, e.node);
      }
    }
  }

  predicate Distinct(found: seq<Found>)
  {
    forall i, j :: 0 <= i < j < |found| ==> found[i].path != found[j].path
  }

  lemma {:induction false} FilesDistinct(path: seq<string>, node: Node)
    requires Valid(node)
    ensures Distinct(FilesAt(path, node))
    decreases node, 1
  {
    if node.Dir? {
      FilesInDistinct(path, node.entries);
    }
  }

  lemma {:induction false} FirstNames(path: seq<string>, entries: seq<Entry>)
    ensures forall f :: f in FilesIn(path, entries) ==>
              |f.path| > |path| && exists e :: e in entries && e.name == f.path[|path|]
    decreases entries, 0
  {
    if entries == [] {
    } else {
      FilesBelow(path + [entries[0].name], entries[0].node);
      FirstNames(path, entries[1..]);
      assert entries[0] in entries;
    }
  }

  lemma {:induction false} FilesInDistinct(path: seq<string>, entries: seq<Entry>)
    requires ValidIn(entries)
    ensures Distinct(FilesIn(path, entries))
    decreases entries, 0
  {
    if entries == [] {
    } else {
      var below := path + [entries[0].name];
      FilesDistinct(below, entries[0].node);
      FilesInDistinct(path, entries[1..]);
      FilesBelow(below, entries[0].node);
      FirstNames(path, entries[1..]);
      var a, b := FilesAt(below, entries[0].node), FilesIn(path, entries[1..]);
      forall i, j | 0 <= i < |a| && 0 <= j < |b| ensures a[i].path != b[j].path {
        assert a[i] in a && b[j] in b;
        assert a[i].path[|path|] == entries[0].name;
      }
    }
  }

  lemma {:induction false} SnapshotMembers(found: seq<Found>, w: WorkspaceFile)
    ensures w in Snapshot(found)
       <==> exists f :: f in found && Wanted(f) && w == WorkspaceFile(Join(f.path, '/'), f.content.value)
  {
    if found == [] {
    } else {
      SnapshotMembers(found[1..], w);
      if exists f :: f in found && Wanted(f) && w == WorkspaceFile(Join(f.path, '/'), f.content.value) {
        var f :| f in found && Wanted(f) && w == WorkspaceFile(Join(f.path, '/'), f.content.value);
        assert f == found[0] || f in found[1..];
      }
    }
  }

  lemma {:induction false} FoundNames(path: seq<string>, node: Node)
    requires Valid(node) && AllNames(path) && (path != [] || node.Dir?)
    ensures forall f :: f in FilesAt(path, node) ==> AllNames(f.path) && f.path != []
    decreases node, 1
  {
    if node.Dir? {
      FoundInNames(path, node.entries);
    }
  }

  lemma {:induction false} FoundInNames(path: seq<string>, entries: seq<Entry>)
    requires ValidIn(entries) && AllNames(path)
    ensures forall f :: f in FilesIn(path, entries) ==> AllNames(f.path) && f.path != []
    decreases entries, 0
  {
    if entries == [] {
    } else {
      FoundNames(path + [entries[0].name], entries[0].node);
      FoundInNames(path, entries[1..]);
    }
  }

  predicate PathsDistinct(files: seq<WorkspaceFile>)
  {
    forall i, j :: 0 <= i < j < |files| ==> files[i].path != files[j].path
  }

  lemma {:induction false} SnapshotDistinct(found: seq<Found>)
    requires Distinct(found) && forall f :: f in found ==> AllNames(f.path) && f.path != []
    ensures PathsDistinct(Snapshot(found))
  {
    if found == [] {
    } else {
      var head, rest := found[0], found[1..];
      assert head in found;
      SnapshotDistinct(rest);
      forall w | w in Snapshot(rest) ensures w.path != Join(head.path, '/') {
        SnapshotMembers(rest, w);
        var f :| f in rest && Wanted(f) && w == WorkspaceFile(Join(f.path, '/'), f.content.value);
        SplitJoin(f.path, '/');
        SplitJoin(head.path, '/');
      }
    }
  }

  /**
   * The snapshot holds exactly the readable files below 5 MiB at paths that no exclusion touches, each under its own
   * relative path, and none of them twice.
   */
  lemma SnapshotExact(tree: Node, w: WorkspaceFile)
    requires Valid(tree) && tree.Dir?
    ensures w in Snapshot(FilesAt([], tree)) <==>
              exists names: seq<string>, size: nat {:trigger NodeAt(tree, names), File(size, Some(w.content))} ::
                && NodeAt(tree, names) == Some(File(size, Some(w.content))) && size < 5_242_880
                && !Excluded(names) && w.path == Join(names, '/')
    ensures PathsDistinct(Snapshot(FilesAt([], tree)))
  {
    FilesDistinct([], tree);
    FoundNames([], tree);
    SnapshotDistinct(FilesAt([], tree));
    var found := FilesAt([], tree);
    SnapshotMembers(found, w);
    if w in Snapshot(found) {
      var f :| f in found && Wanted(f) && w == WorkspaceFile(Join(f.path, '/'), f.content.value);
      assert [] + f.path == f.path;
      FoundIff([], tree, f.path, f.size, f.content);
      assert NodeAt(tree, f.path) == Some(File(f.size, Some(w.content)));
    }
    forall names: seq<string>, size: nat |
        NodeAt(tree, names) == Some(File(size, Some(w.content))) && size < 5_242_880
        && !Excluded(names) && w.path == Join(names, '/')
      ensures w in Snapshot(found)
    {
      FoundIff([], tree, names, size, Some(w.content));
      assert [] + names == names;
      assert Wanted(Found(names, size, Some(w.content)));
    }
  }
}
