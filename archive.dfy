/** Which files of the configuration directory go into the archive, and under
    which names: the directory is walked below its root, every entry whose
    name starts with a dot is skipped together with everything beneath it,
    only regular files are kept, and each is named by its path relative to
    the root. */
module Archive {
  import opened Base

  /** A path as its sequence of components. */
  type Path = seq<string>

  /** A directory tree: regular files, directories with their entries in the
      order the directory listing gives them, and anything else (symbolic
      links, sockets, ...), which the walk does not follow. */
  datatype Node =
    | File(name: string)
    | Dir(name: string, children: seq<Node>)
    | Other(name: string)

  predicate Hidden(name: string)
  {
    |name| > 0 && name[0] == '.'
  }

  /** No component of the path is hidden. */
  predicate Visible(p: Path)
  {
    forall j :: 0 <= j < |p| ==> !Hidden(p[j])
  }

  /** One entry the walk yields: its path relative to the root and whether it
      is a regular file. */
  datatype Visit = Visit(rel: Path, isFile: bool)

  /** The visits of a subtree, seen from the directory above it. */
  function Under(name: string, vs: seq<Visit>): (r: seq<Visit>)
    ensures |r| == |vs|
    ensures forall i :: 0 <= i < |vs| ==> r[i] == Visit([name] + vs[i].rel, vs[i].isFile)
  {
    if vs == [] then [] else [Visit([name] + vs[0].rel, vs[0].isFile)] + Under(name, vs[1..])
  }

  /** The walk from one entry down, depth first, the entry before its
      contents; a hidden entry is pruned with all it contains. */
  function WalkNode(n: Node): seq<Visit>
    decreases n, 1
  {
    if Hidden(n.name) then []
    else [Visit([n.name], n.File?)] + (if n.Dir? then Under(n.name, WalkAll(n.children)) else [])
  }

  function WalkAll(ns: seq<Node>): seq<Visit>
    decreases ns, 0
  {
    if ns == [] then [] else WalkNode(ns[0]) + WalkAll(ns[1..])
  }

  /** What the directory walk yields with a minimum depth of 1 and the
      hidden-name filter on its entries: the root itself is never yielded,
      and so never filtered, whatever its name. */
  function Walk(root: Node): seq<Visit>
  {
    if root.Dir? then WalkAll(root.children) else []
  }

  /** The paths of the regular files among some visits, in order. */
  function FilePaths(vs: seq<Visit>): seq<Path>
  {
    if vs == [] then [] else (if vs[0].isFile then [vs[0].rel] else []) + FilePaths(vs[1..])
  }

  /** `p` names a regular file among the entries `ns` (or below them). */
  predicate FileAt(ns: seq<Node>, p: Path)
    decreases |p|, 1
  {
    exists i :: 0 <= i < |ns| && FileIn(ns[i], p)
  }

  /** `p` names `n` itself, a regular file, or a regular file below `n`. */
  predicate FileIn(n: Node, p: Path)
    decreases |p|, 0
  {
    |p| >= 1 && p[0] == n.name &&
    if |p| == 1 then n.File? else n.Dir? && FileAt(n.children, p[1..])
  }

  /** The archive entries as the source means them: regular files strictly
      below the root, reached without passing through a hidden name. */
  predicate IsEntry(root: Node, p: Path)
  {
    root.Dir? && FileAt(root.children, p) && Visible(p)
  }

  /** `Path::strip_prefix`. */
  function StripPrefix(path: Path, base: Path): (r: Option<Path>)
    ensures r.Some? <==> |base| <= |path| && path[..|base|] == base
    ensures r.Some? ==> base + r.value == path
  {
    if |base| <= |path| && path[..|base|] == base then Some(path[|base|..]) else None
  }

  lemma {:induction false} FilePathsAppend(a: seq<Visit>, b: seq<Visit>)
    ensures FilePaths(a + b) == FilePaths(a) + FilePaths(b)
  {
    if a == [] {
      assert a + b == b;
    } else {
      assert (a + b)[1..] == a[1..] + b;
      FilePathsAppend(a[1..], b);
    }
  }

  lemma {:induction false} FilePathsUnder(name: string, vs: seq<Visit>, p: Path)
    ensures p in FilePaths(Under(name, vs)) <==> |p| >= 1 && p[0] == name && p[1..] in FilePaths(vs)
  {
    if vs != [] {
      var u := Under(name, vs);
      assert u[1..] == Under(name, vs[1..]);
      FilePathsUnder(name, vs[1..], p);
      if vs[0].isFile && p == [name] + vs[0].rel {
        assert p[1..] == vs[0].rel;
      }
    }
  }

  lemma {:induction false} FilePathsWalkAll(ns: seq<Node>, p: Path)
    ensures p in FilePaths(WalkAll(ns)) <==>
      exists i :: 0 <= i < |ns| && p in FilePaths(WalkNode(ns[i]))
  {
    if ns != [] {
      FilePathsAppend(WalkNode(ns[0]), WalkAll(ns[1..]));
      FilePathsWalkAll(ns[1..], p);
      if p in FilePaths(WalkAll(ns[1..])) {
        var i :| 0 <= i < |ns[1..]| && p in FilePaths(WalkNode(ns[1..][i]));
        assert ns[i + 1] == ns[1..][i];
      }
      if exists i :: 0 <= i < |ns| && p in FilePaths(WalkNode(ns[i])) {
        var i :| 0 <= i < |ns| && p in FilePaths(WalkNode(ns[i]));
        if i > 0 {
          assert ns[1..][i - 1] == ns[i];
        }
      }
    }
  }

  /** The walk of one entry keeps exactly the visible regular files at or
      below it. */
  lemma {:induction false} WalkNodeExact(n: Node, p: Path)
    ensures p in FilePaths(WalkNode(n)) <==> FileIn(n, p) && Visible(p)
    decreases |p|, 0
  {
    if !Hidden(n.name) {
      var head := [Visit([n.name], n.File?)];
      var tail := if n.Dir? then Under(n.name, WalkAll(n.children)) else [];
      FilePathsAppend(head, tail);
      assert FilePaths(head) == if n.File? then [[n.name]] else [];
      if n.Dir? {
        FilePathsUnder(n.name, WalkAll(n.children), p);
        if |p| >= 1 {
          WalkAllExact(n.children, p[1..]);
        }
      }
      if |p| >= 1 {
        assert Visible(p) <==> !Hidden(p[0]) && Visible(p[1..]) by {
          if !Hidden(p[0]) && Visible(p[1..]) {
            forall j | 0 <= j < |p| ensures !Hidden(p[j]) {
              if j > 0 { assert p[j] == p[1..][j - 1]; }
            }
          }
        }
      }
      if p == [n.name] {
        assert p[1..] == [];
      }
    } else if FileIn(n, p) {
      assert Hidden(p[0]);
    }
  }

  /** The walk of a list of entries keeps exactly the visible regular files
      among or below them. */
  lemma {:induction false} WalkAllExact(ns: seq<Node>, p: Path)
    ensures p in FilePaths(WalkAll(ns)) <==> FileAt(ns, p) && Visible(p)
    decreases |p|, 1
  {
    FilePathsWalkAll(ns, p);
    forall i | 0 <= i < |ns|
      ensures p in FilePaths(WalkNode(ns[i])) <==> FileIn(ns[i], p) && Visible(p)
    {
      WalkNodeExact(ns[i], p);
    }
  }

  /** The selection loop of the archive builder: the entries the walk yields
      that are regular files, in walk order, each named by its path with the
      root path `base` stripped. */
  method SelectEntries(root: Node, base: string) returns (entries: seq<Path>)
    ensures entries == FilePaths(Walk(root))
    ensures forall p :: p in entries <==> IsEntry(root, p)
  {
    var visits := Walk(root);
    entries := [];
    for i := 0 to |visits|
      invariant entries == FilePaths(visits[..i])
    {
      var v := visits[i];
      FilePathsAppend(visits[..i], [v]);
      assert visits[..i + 1] == visits[..i] + [v];
      if v.isFile {
        var full := [base] + v.rel;
        assert full[..1] == [base];
        var name := StripPrefix(full, [base]).value;
        assert name == v.rel;
        entries := entries + [name];
      }
    }
    assert visits[..|visits|] == visits;
    forall p ensures p in entries <==> IsEntry(root, p) {
      if root.Dir? {
        WalkAllExact(root.children, p);
      }
    }
  }

  /** The root is never an entry, and no entry passes through a hidden
      name: a hidden directory is skipped with everything below it. */
  lemma EntriesBelowRootAndVisible(root: Node, p: Path)
    requires p in FilePaths(Walk(root))
    ensures |p| >= 1 && Visible(p)
  {
    if root.Dir? {
      WalkAllExact(root.children, p);
    }
  }

  /** A directory holding `a.txt`, `.hidden/x.txt` and `sub/b.txt` gives the
      entries `a.txt` and `sub/b.txt`, whatever the root is called. */
  lemma ExampleTree(rootName: string)
    ensures var root := Dir(rootName, [File("a.txt"), Dir(".hidden", [File("x.txt")]),
                                       Dir("sub", [File("b.txt")])]);
      FilePaths(Walk(root)) == [["a.txt"], ["sub", "b.txt"]]
  {
    var a, h, sub := File("a.txt"), Dir(".hidden", [File("x.txt")]), Dir("sub", [File("b.txt")]);
    assert Hidden(".hidden");
    assert !Hidden("a.txt") && !Hidden("sub") && !Hidden("b.txt");
    var b := [File("b.txt")];
    assert WalkAll(b) == WalkNode(b[0]) + WalkAll([]);
    assert WalkAll(b) == [Visit(["b.txt"], true)];
    var ws := [Visit(["sub"], false), Visit(["sub", "b.txt"], true)];
    assert ["sub"] + ["b.txt"] == ["sub", "b.txt"];
    assert Under("sub", WalkAll(b)) == [Visit(["sub", "b.txt"], true)];
    assert WalkNode(sub) == ws;
    assert WalkNode(a) == [Visit(["a.txt"], true)];
    assert WalkNode(h) == [];
    var ns := [a, h, sub];
    assert ns[1..] == [h, sub] && ns[1..][1..] == [sub] && [sub][1..] == [];
    assert WalkAll([sub]) == ws;
    assert WalkAll([h, sub]) == ws;
    assert WalkAll(ns) == [Visit(["a.txt"], true)] + ws;
    assert FilePaths(ws) == [["sub", "b.txt"]];
  }
}
