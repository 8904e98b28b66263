/** The loops of `build_graph` (`docs/scripts/build_arch_graph.py`) that fill the node list, the symbol
    table and the edge list. */
module GraphBuilder {
  import opened Basics
  import opened Sorting
  import opened Graph
  import opened GraphEdges

  function Shallower(): (Path, Path) -> bool {
    (a: Path, b: Path) => |a| <= |b|
  }

  class Builder {
    var nodes: seq<Node>
    var seenNodes: set<string>
    var edges: seq<Edge>
    var edgeSeen: set<Link>
    var targetToId: Table

    /** The node list is what first-wins deduplication leaves of everything offered so far. */
    ghost predicate HasNodes(offered: seq<Node>)
      reads this`nodes, this`seenNodes
    {
      nodes == Deduped(offered) && seenNodes == Ids(nodes)
    }

    ghost predicate HasEdges(offered: seq<Link>)
      reads this`edges, this`edgeSeen
    {
      edges == KeptEdges(offered) && edgeSeen == Links(edges)
    }

    constructor ()
      ensures HasNodes([]) && HasEdges([]) && targetToId == map[]
    {
      nodes, seenNodes, edges, edgeSeen, targetToId := [], {}, [], {}, map[];
    }

    method AddNode(n: Node, ghost offered: seq<Node>)
      requires HasNodes(offered)
      modifies `nodes, `seenNodes
      ensures HasNodes(offered + [n])
    {
      DedupedStep(offered, n);
      if n.id in seenNodes {
        return;
      }
      IdsConcat(nodes, [n]);
      assert Ids([n]) == {n.id};
      seenNodes := seenNodes + {n.id};
      nodes := nodes + [n];
    }

    method AddEdge(l: Link, ghost offered: seq<Link>)
      requires HasEdges(offered)
      modifies `edges, `edgeSeen
      ensures HasEdges(offered + [l])
    {
      hide EdgeId;
      KeptStep(offered, l);
      if l.source == l.target {
        return;
      }
      if l in edgeSeen {
        return;
      }
      edgeSeen := edgeSeen + {l};
      edges := edges + [Edge(EdgeId(|edges|), l)];
    }

    // ---- nodes -------------------------------------------------------------

    method AboveAll(files: seq<SourceFile>) returns (folders: set<Path>)
      requires AllProper(files)
      ensures forall d :: d in folders <==> IsFolder(files, d)
    {
      hide IsFolder;
      folders := {};
      NoFolders(files[..0]);
      for i := 0 to |files|
        invariant forall d :: d in folders <==> IsFolder(files[..i], d)
      {
        assert Proper(files[i]);
        var depth, above := Above(files[i]);
        FoldersGrow(files, i, depth);
        folders := folders + above;
      }
      assert files[..|files|] == files;
    }

    /** The folders above one file, from its own folder up to the root. */
    method Above(f: SourceFile) returns (ghost depth: nat, folders: set<Path>)
      requires Proper(f)
      ensures 1 <= depth < |f.path| && f.path[..depth] == [ROOT]
      ensures forall e :: e in folders <==> AboveFrom(f, depth, e)
    {
      var d := Folder(f.path);
      folders := {d};
      while d != [ROOT] && d != []
        invariant 1 <= |d| < |f.path| && d == f.path[..|d|]
        invariant forall e :: e in folders <==> AboveFrom(f, |d|, e)
        decreases |d|
      {
        RootIsShortest(f, d);
        d := Folder(d);
        folders := folders + {d};
      }
      depth := |d|;
    }

    /** The folders above every file, shallow ones first. */
    method SortedFolders(files: seq<SourceFile>) returns (ds: seq<Path>)
      requires AllProper(files)
      ensures IsFolderOrder(files, ds)
    {
      hide IsFolder, AllProper, SortBy, Shallower;
      var folders := AboveAll(files);
      var found := Listed(folders + {[ROOT]});
      ds := SortBy(Shallower(), found);
      ShallowFirst(found);
    }

    method Listed(folders: set<Path>) returns (ds: seq<Path>)
      ensures forall d :: d in ds <==> d in folders
    {
      var left := folders;
      ds := [];
      while left != {}
        invariant left <= folders
        invariant forall d :: d in folders <==> d in left || d in ds
        decreases left
      {
        assert left != {};
        var d :| d in left;
        left, ds := left - {d}, ds + [d];
      }
    }

    method AddFolders(ds: seq<Path>)
      requires HasNodes([])
      modifies `nodes, `seenNodes
      ensures HasNodes(DirNodes(ds))
    {
      hide HasNodes, DirNodeOf;
      for i := 0 to |ds|
        invariant HasNodes(DirNodes(ds[..i]))
      {
        assert ds[..i + 1][..i] == ds[..i];
        AddNode(DirNodeOf(ds[i]), DirNodes(ds[..i]));
      }
      assert ds[..|ds|] == ds;
    }

    method AddMethods(fid: string, cls: string, ms: seq<Routine>, ghost offered: seq<Node>)
      requires HasNodes(offered)
      modifies `nodes, `seenNodes
      ensures HasNodes(offered + MethodNodes(fid, cls, ms))
    {
      hide HasNodes, MemberId, Dotted;
      assert offered + MethodNodes(fid, cls, []) == offered;
      for i := 0 to |ms|
        invariant HasNodes(offered + MethodNodes(fid, cls, ms[..i]))
      {
        assert ms[..i + 1][..i] == ms[..i];
        var node := Node(MemberId(fid, Dotted(cls, ms[i].name)), MethodNode, Some(MemberId(fid, cls)));
        AddNode(node, offered + MethodNodes(fid, cls, ms[..i]));
        assert offered + MethodNodes(fid, cls, ms[..i]) + [node] == offered + MethodNodes(fid, cls, ms[..i + 1]);
      }
      assert ms[..|ms|] == ms;
    }

    method AddClasses(fid: string, cs: seq<Class>, ghost offered: seq<Node>)
      requires HasNodes(offered)
      modifies `nodes, `seenNodes
      ensures HasNodes(offered + ClassNodes(fid, cs))
    {
      hide HasNodes, MemberId, MethodNodes;
      assert offered + ClassNodes(fid, []) == offered;
      for i := 0 to |cs|
        invariant HasNodes(offered + ClassNodes(fid, cs[..i]))
      {
        assert cs[..i + 1][..i] == cs[..i];
        var node := Node(MemberId(fid, cs[i].name), ClassNode, Some(fid));
        ghost var before := offered + ClassNodes(fid, cs[..i]);
        AddNode(node, before);
        AddMethods(fid, cs[i].name, cs[i].methods, before + [node]);
        assert before + [node] + MethodNodes(fid, cs[i].name, cs[i].methods)
            == offered + ClassNodes(fid, cs[..i + 1]);
      }
      assert cs[..|cs|] == cs;
    }

    method AddFunctions(fid: string, fs: seq<Routine>, ghost offered: seq<Node>)
      requires HasNodes(offered)
      modifies `nodes, `seenNodes
      ensures HasNodes(offered + FunctionNodes(fid, fs))
    {
      hide HasNodes, MemberId;
      assert offered + FunctionNodes(fid, []) == offered;
      for i := 0 to |fs|
        invariant HasNodes(offered + FunctionNodes(fid, fs[..i]))
      {
        assert fs[..i + 1][..i] == fs[..i];
        var node := Node(MemberId(fid, fs[i].name), FunctionNode, Some(fid));
        AddNode(node, offered + FunctionNodes(fid, fs[..i]));
        assert offered + FunctionNodes(fid, fs[..i]) + [node] == offered + FunctionNodes(fid, fs[..i + 1]);
      }
      assert fs[..|fs|] == fs;
    }

    method AddFiles(files: seq<SourceFile>, ghost offered: seq<Node>)
      requires HasNodes(offered)
      modifies `nodes, `seenNodes
      ensures HasNodes(offered + FileNodes(files))
    {
      hide HasNodes, ClassNodes, FunctionNodes, FileNodeOf, FileId;
      assert offered + FileNodes([]) == offered;
      for i := 0 to |files|
        invariant HasNodes(offered + FileNodes(files[..i]))
      {
        assert files[..i + 1][..i] == files[..i];
        var f := files[i];
        ghost var before := offered + FileNodes(files[..i]);
        AddNode(FileNodeOf(f), before);
        AddClasses(FileId(f), f.classes, before + [FileNodeOf(f)]);
        AddFunctions(FileId(f), f.functions, before + [FileNodeOf(f)] + ClassNodes(FileId(f), f.classes));
        assert before + [FileNodeOf(f)] + ClassNodes(FileId(f), f.classes) + FunctionNodes(FileId(f), f.functions)
            == offered + FileNodes(files[..i + 1]);
      }
      assert files[..|files|] == files;
    }

    // ---- the table ---------------------------------------------------------

    method FillTargets(files: seq<SourceFile>)
      requires targetToId == map[]
      modifies `targetToId
      ensures targetToId == Targets(files)
    {
      hide FileId;
      for i := 0 to |files|
        invariant targetToId == Targets(files[..i])
      {
        assert files[..i + 1][..i] == files[..i];
        FillFile(files[i]);
      }
      assert files[..|files|] == files;
    }

    method FillFile(f: SourceFile)
      modifies `targetToId
      ensures targetToId == FileTargets(old(targetToId), f)
    {
      hide FileId, MemberId, Dotted;
      var fid := FileId(f);
      targetToId := targetToId[Ref(f.mod, "") := fid];
      ghost var t0 := targetToId;
      for i := 0 to |f.classes|
        invariant targetToId == ClassTargets(t0, f.mod, fid, f.classes[..i])
      {
        assert f.classes[..i + 1][..i] == f.classes[..i];
        var c := f.classes[i];
        targetToId := targetToId[Ref(f.mod, c.name) := MemberId(fid, c.name)];
        ghost var t1 := targetToId;
        for j := 0 to |c.methods|
          invariant targetToId == MethodTargets(t1, f.mod, fid, c.name, c.methods[..j])
        {
          assert c.methods[..j + 1][..j] == c.methods[..j];
          var name := Dotted(c.name, c.methods[j].name);
          targetToId := targetToId[Ref(f.mod, name) := MemberId(fid, name)];
        }
        assert c.methods[..|c.methods|] == c.methods;
      }
      assert f.classes[..|f.classes|] == f.classes;
      ghost var t2 := targetToId;
      for i := 0 to |f.functions|
        invariant targetToId == FunctionTargets(t2, f.mod, fid, f.functions[..i])
      {
        assert f.functions[..i + 1][..i] == f.functions[..i];
        targetToId := targetToId[Ref(f.mod, f.functions[i].name) := MemberId(fid, f.functions[i].name)];
      }
      assert f.functions[..|f.functions|] == f.functions;
    }

    // ---- edges -------------------------------------------------------------

    method AddFileImports(m: string, fid: string, imports: seq<Import>, ghost offered: seq<Link>)
      requires HasEdges(offered)
      modifies `edges, `edgeSeen
      ensures HasEdges(offered + ImportLinks(targetToId, m, fid, imports))
    {
      hide HasEdges, Head;
      ghost var t := targetToId;
      assert offered + ImportLinks(t, m, fid, []) == offered;
      for i := 0 to |imports|
        invariant HasEdges(offered + ImportLinks(t, m, fid, imports[..i]))
      {
        assert imports[..i + 1][..i] == imports[..i];
        var bound := imports[i];
        ghost var before := offered + ImportLinks(t, m, fid, imports[..i]);
        ghost var added: seq<Link> := [];
        assert before + added == before;
        var whole := Ref(bound.mod, "");
        if whole in targetToId && bound.mod != m {
          var l := Link(fid, targetToId[whole], ImportEdge);
          AddEdge(l, before);
          added := [l];
        }
        if bound.name.Some? {
          var key := Ref(bound.mod, bound.name.value);
          if key in targetToId {
            var targetFile := Head(targetToId[key]);
            if targetFile != fid {
              var l := Link(fid, targetFile, ImportEdge);
              AddEdge(l, before + added);
              assert before + added + [l] == before + (added + [l]);
              added := added + [l];
            }
          }
        }
        assert added == ImportLink(t, m, fid, bound);
        assert before + added == offered + ImportLinks(t, m, fid, imports[..i + 1]);
      }
      assert imports[..|imports|] == imports;
    }

    method AddRefs(source: string, refs: seq<Ref>, ghost offered: seq<Link>)
      requires HasEdges(offered)
      modifies `edges, `edgeSeen
      ensures HasEdges(offered + RefLinks(targetToId, source, refs))
    {
      hide HasEdges, BeforeDot;
      ghost var t := targetToId;
      assert offered + RefLinks(t, source, []) == offered;
      for i := 0 to |refs|
        invariant HasEdges(offered + RefLinks(t, source, refs[..i]))
      {
        assert refs[..i + 1][..i] == refs[..i];
        ghost var before := offered + RefLinks(t, source, refs[..i]);
        var target: Option<string> := if refs[i] in targetToId then Some(targetToId[refs[i]]) else None;
        if target == None && '.' in refs[i].qualname {
          var cls := Ref(refs[i].mod, BeforeDot(refs[i].qualname));
          target := if cls in targetToId then Some(targetToId[cls]) else None;
        }
        assert target == Resolve(t, refs[i]);
        assert before + RefLink(t, source, refs[i]) == offered + RefLinks(t, source, refs[..i + 1]);
        if target.Some? && target.value != source {
          AddEdge(Link(source, target.value, RefEdge), before);
        } else {
          assert before + RefLink(t, source, refs[i]) == before;
        }
      }
      assert refs[..|refs|] == refs;
    }

    method AddMethodRefs(fid: string, cls: string, ms: seq<Routine>, ghost offered: seq<Link>)
      requires HasEdges(offered)
      modifies `edges, `edgeSeen
      ensures HasEdges(offered + MethodLinks(targetToId, fid, cls, ms))
    {
      hide HasEdges, RefLinks, MemberId;
      ghost var t := targetToId;
      assert offered + MethodLinks(t, fid, cls, []) == offered;
      for i := 0 to |ms|
        invariant HasEdges(offered + MethodLinks(t, fid, cls, ms[..i]))
      {
        assert ms[..i + 1][..i] == ms[..i];
        ghost var before := offered + MethodLinks(t, fid, cls, ms[..i]);
        var source := MemberId(fid, Dotted(cls, ms[i].name));
        AddRefs(source, ms[i].refs, before);
        assert before + RefLinks(t, source, ms[i].refs) == offered + MethodLinks(t, fid, cls, ms[..i + 1]);
      }
      assert ms[..|ms|] == ms;
    }

    method AddClassRefs(fid: string, cs: seq<Class>, ghost offered: seq<Link>)
      requires HasEdges(offered)
      modifies `edges, `edgeSeen
      ensures HasEdges(offered + ClassLinks(targetToId, fid, cs))
    {
      hide HasEdges, MethodLinks;
      ghost var t := targetToId;
      assert offered + ClassLinks(t, fid, []) == offered;
      for i := 0 to |cs|
        invariant HasEdges(offered + ClassLinks(t, fid, cs[..i]))
      {
        assert cs[..i + 1][..i] == cs[..i];
        ghost var before := offered + ClassLinks(t, fid, cs[..i]);
        AddMethodRefs(fid, cs[i].name, cs[i].methods, before);
        assert before + MethodLinks(t, fid, cs[i].name, cs[i].methods) == offered + ClassLinks(t, fid, cs[..i + 1]);
      }
      assert cs[..|cs|] == cs;
    }

    method AddFunctionRefs(fid: string, fs: seq<Routine>, ghost offered: seq<Link>)
      requires HasEdges(offered)
      modifies `edges, `edgeSeen
      ensures HasEdges(offered + FunctionLinks(targetToId, fid, fs))
    {
      hide HasEdges, RefLinks, MemberId;
      ghost var t := targetToId;
      assert offered + FunctionLinks(t, fid, []) == offered;
      for i := 0 to |fs|
        invariant HasEdges(offered + FunctionLinks(t, fid, fs[..i]))
      {
        assert fs[..i + 1][..i] == fs[..i];
        ghost var before := offered + FunctionLinks(t, fid, fs[..i]);
        AddRefs(MemberId(fid, fs[i].name), fs[i].refs, before);
        assert before + RefLinks(t, MemberId(fid, fs[i].name), fs[i].refs)
            == offered + FunctionLinks(t, fid, fs[..i + 1]);
      }
      assert fs[..|fs|] == fs;
    }

    method AddAllImports(files: seq<SourceFile>)
      requires HasEdges([])
      modifies `edges, `edgeSeen
      ensures HasEdges(AllImportLinks(targetToId, files))
    {
      hide HasEdges, ImportLinks, FileId;
      ghost var t := targetToId;
      for i := 0 to |files|
        invariant HasEdges(AllImportLinks(t, files[..i]))
      {
        assert files[..i + 1][..i] == files[..i];
        ghost var before := AllImportLinks(t, files[..i]);
        if !files[i].parsed {
          assert before + [] == before;
          continue;
        }
        AddFileImports(files[i].mod, FileId(files[i]), files[i].imports, before);
      }
      assert files[..|files|] == files;
    }

    method AddAllRefs(files: seq<SourceFile>, ghost offered: seq<Link>)
      requires HasEdges(offered)
      modifies `edges, `edgeSeen
      ensures HasEdges(offered + AllRefLinks(targetToId, files))
    {
      hide HasEdges, ClassLinks, FunctionLinks, FileId, AllRefLinks;
      ghost var t := targetToId;
      NoRefLinks(t, offered);
      for i := 0 to |files|
        invariant HasEdges(offered + AllRefLinks(t, files[..i]))
      {
        RefLinksOfOneMore(t, files, i, offered);
        var f := files[i];
        ghost var before := offered + AllRefLinks(t, files[..i]);
        if !f.parsed {
          continue;
        }
        AddClassRefs(FileId(f), f.classes, before);
        AddFunctionRefs(FileId(f), f.functions, before + ClassLinks(t, FileId(f), f.classes));
      }
      assert files[..|files|] == files;
    }
  }

  /** The graph that is written out. */
  ghost predicate IsGraph(files: seq<SourceFile>, nodes: seq<Node>, edges: seq<Edge>) {
    && (exists ds :: IsFolderOrder(files, ds) && nodes == Deduped(Offered(ds, files)))
    && edges == KeptEdges(AllLinks(files))
  }

  method BuildGraph(files: seq<SourceFile>) returns (nodes: seq<Node>, edges: seq<Edge>)
    requires AllProper(files)
    ensures IsGraph(files, nodes, edges)
  {
    hide AllProper, Deduped, KeptEdges, Targets, AllImportLinks, AllRefLinks, DirNodes, FileNodes;
    var b := new Builder();
    var ds := b.SortedFolders(files);
    b.AddFolders(ds);
    b.AddFiles(files, DirNodes(ds));
    b.FillTargets(files);
    b.AddAllImports(files);
    b.AddAllRefs(files, AllImportLinks(b.targetToId, files));
    nodes, edges := b.nodes, b.edges;
    assert IsFolderOrder(files, ds) && nodes == Deduped(Offered(ds, files));
  }

  /** What every built graph is: a duplicate-free tree of nodes under one root, and edges with distinct
      ids and no repetition, none of which joins a node to itself. All their endpoints are nodes of the
      graph exactly when, for every imported symbol, the part of its id before `::` is one. */
  lemma GraphIsSound(files: seq<SourceFile>, nodes: seq<Node>, edges: seq<Edge>)
    requires AllProper(files) && IsGraph(files, nodes, edges)
    ensures UniqueIds(nodes) && IsTree(nodes)
    ensures forall i :: 0 <= i < |nodes| ==> RootOf(nodes, i) == ROOT
    ensures forall i :: 0 <= i < |edges| ==> edges[i].link.source != edges[i].link.target
    ensures forall i, j :: 0 <= i < j < |edges| ==> edges[i].link != edges[j].link && edges[i].id != edges[j].id
    ensures (forall e :: e in edges ==> e.link.source in Ids(nodes) && e.link.target in Ids(nodes))
        <==> ImportedHeadsEmitted(files)
  {
    hide AllProper, Deduped, KeptEdges, IsTree, UniqueIds, ImportedHeadsEmitted, EdgeId, AllLinks, Offered, NodeIds;
    var ds :| IsFolderOrder(files, ds) && nodes == Deduped(Offered(ds, files));
    NodesFormATree(files, ds);
    EdgesUnique(AllLinks(files));
    forall i, j | 0 <= i < j < |edges| ensures edges[i].id != edges[j].id {
      EdgeIdsDiffer(AllLinks(files), i, j);
    }
    OfferedIds(files, ds);
    ClosedExactly(files);
    EndpointsWithin(AllLinks(files), Ids(nodes));
  }

  lemma EndpointsWithin(offered: seq<Link>, ids: set<string>)
    ensures (forall e :: e in KeptEdges(offered) ==> e.link.source in ids && e.link.target in ids)
        <==> Closed(ids, offered)
  {
    hide KeptEdges;
    var edges := KeptEdges(offered);
    forall e | e in edges ensures e.link in Links(edges) {
    }
  }

  // ---- steps -------------------------------------------------------------

  lemma NoRefLinks(t: Table, offered: seq<Link>)
    ensures offered + AllRefLinks(t, []) == offered
  {
  }

  lemma RefLinksOfOneMore(t: Table, files: seq<SourceFile>, i: nat, offered: seq<Link>)
    requires i < |files|
    ensures var f := files[i];
      var before := offered + AllRefLinks(t, files[..i]);
      offered + AllRefLinks(t, files[..i + 1])
      == if f.parsed then before + ClassLinks(t, FileId(f), f.classes) + FunctionLinks(t, FileId(f), f.functions)
         else before
  {
    hide ClassLinks, FunctionLinks, FileId;
    assert files[..i + 1][..i] == files[..i];
  }

  lemma ShallowFirst(found: seq<Path>)
    ensures var ds := SortBy(Shallower(), found);
      && (forall d :: d in ds <==> d in found)
      && forall i, j :: 0 <= i < j < |ds| ==> |ds[i]| <= |ds[j]|
  {
    hide SortBy, Orders;
    var ds := SortBy(Shallower(), found);
    assert Orders(Shallower(), multiset(found)) by {
      LengthOrders(multiset(found));
    }
    SortBySorted(Shallower(), found);
    SameMembers(found, ds);
    assert forall i, j :: 0 <= i < j < |ds| ==> Shallower()(ds[i], ds[j]);
  }

  lemma LengthOrders(s: multiset<Path>)
    ensures Orders(Shallower(), s)
  {
  }

  lemma DedupedStep(offered: seq<Node>, n: Node)
    ensures Deduped(offered + [n])
         == if n.id in Ids(Deduped(offered)) then Deduped(offered) else Deduped(offered) + [n]
  {
    assert (offered + [n])[..|offered|] == offered;
  }

  lemma KeptStep(offered: seq<Link>, l: Link)
    ensures var edges := KeptEdges(offered);
      && KeptEdges(offered + [l])
         == (if l.source == l.target || l in Links(edges) then edges else edges + [Edge(EdgeId(|edges|), l)])
      && Links(edges + [Edge(EdgeId(|edges|), l)]) == Links(edges) + {l}
  {
    hide EdgeId;
    assert (offered + [l])[..|offered|] == offered;
    var edges := KeptEdges(offered);
    var e := Edge(EdgeId(|edges|), l);
    assert forall x :: x in edges + [e] <==> x in edges || x == e;
  }

  /** `d` is a folder above `f`, at depth `depth` or deeper. */
  predicate AboveFrom(f: SourceFile, depth: nat, d: Path) {
    depth <= |d| < |f.path| && d == f.path[..|d|]
  }

  lemma RootIsShortest(f: SourceFile, d: Path)
    requires Proper(f) && 1 <= |d| < |f.path| && d == f.path[..|d|]
    ensures |d| == 1 ==> d == [ROOT]
    ensures d != [ROOT] ==> |d| >= 2 && Folder(d) == f.path[..|d| - 1]
  {
  }

  lemma NoFolders(files: seq<SourceFile>)
    requires files == []
    ensures forall d :: !IsFolder(files, d)
  {
  }

  lemma FoldersGrow(files: seq<SourceFile>, i: nat, depth: nat)
    requires i < |files| && Proper(files[i]) && 1 <= depth < |files[i].path|
    requires files[i].path[..depth] == [ROOT]
    ensures forall d :: IsFolder(files[..i + 1], d) <==> IsFolder(files[..i], d) || AboveFrom(files[i], depth, d)
  {
    forall d ensures IsFolder(files[..i + 1], d) <==> IsFolder(files[..i], d) || AboveFrom(files[i], depth, d) {
      if IsFolder(files[..i], d) {
        var k :| 0 <= k < i && 1 <= |d| < |files[..i][k].path| && d == files[..i][k].path[..|d|];
        assert files[..i + 1][k] == files[..i][k];
      }
      if IsFolder(files[..i + 1], d) {
        var k :| 0 <= k < i + 1 && 1 <= |d| < |files[..i + 1][k].path| && d == files[..i + 1][k].path[..|d|];
        if k < i {
          assert files[..i][k] == files[..i + 1][k];
        }
      }
      if AboveFrom(files[i], depth, d) {
        assert files[..i + 1][i] == files[i];
      }
    }
  }
}
