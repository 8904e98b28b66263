/** Import and reference edges of the architecture graph, and when the graph is closed
    (`docs/scripts/build_arch_graph.py`). */
module GraphEdges {
  import opened Basics
  import opened Decimal
  import opened Graph

  // ---- the table of symbols ----------------------------------------------

  type Table = map<Ref, string>

  function MethodTargets(t: Table, m: string, fid: string, cls: string, ms: seq<Routine>): Table {
    if ms == [] then t
    else
      var n := |ms| - 1;
      var name := Dotted(cls, ms[n].name);
      MethodTargets(t, m, fid, cls, ms[..n])[Ref(m, name) := MemberId(fid, name)]
  }

  function ClassTargets(t: Table, m: string, fid: string, cs: seq<Class>): Table {
    if cs == [] then t
    else
      var n := |cs| - 1;
      MethodTargets(ClassTargets(t, m, fid, cs[..n])[Ref(m, cs[n].name) := MemberId(fid, cs[n].name)],
                    m, fid, cs[n].name, cs[n].methods)
  }

  function FunctionTargets(t: Table, m: string, fid: string, fs: seq<Routine>): Table {
    if fs == [] then t
    else
      var n := |fs| - 1;
      FunctionTargets(t, m, fid, fs[..n])[Ref(m, fs[n].name) := MemberId(fid, fs[n].name)]
  }

  function FileTargets(t: Table, f: SourceFile): Table {
    FunctionTargets(ClassTargets(t[Ref(f.mod, "") := FileId(f)], f.mod, FileId(f), f.classes),
                    f.mod, FileId(f), f.functions)
  }

  /** Later files overwrite earlier ones with the same module name. */
  function Targets(files: seq<SourceFile>): Table {
    if files == [] then map[] else FileTargets(Targets(files[..|files| - 1]), files[|files| - 1])
  }

  // ---- edges, in the order they are offered ------------------------------

  datatype EdgeKind = ImportEdge | RefEdge

  datatype Link = Link(source: string, target: string, kind: EdgeKind)

  datatype Edge = Edge(id: string, link: Link)

  function ImportLinks(t: Table, m: string, fid: string, imports: seq<Import>): seq<Link> {
    if imports == [] then []
    else
      var n := |imports| - 1;
      ImportLinks(t, m, fid, imports[..n]) + ImportLink(t, m, fid, imports[n])
  }

  /** A whole-module edge, and for a project symbol an edge to the file part of the symbol's id. */
  function ImportLink(t: Table, m: string, fid: string, i: Import): seq<Link> {
    var whole := Ref(i.mod, "");
    (if whole in t && i.mod != m then [Link(fid, t[whole], ImportEdge)] else [])
    + (if i.name.Some? && Ref(i.mod, i.name.value) in t && Head(t[Ref(i.mod, i.name.value)]) != fid
       then [Link(fid, Head(t[Ref(i.mod, i.name.value)]), ImportEdge)] else [])
  }

  /** A reference resolves to its symbol, or else to the class before the dot. */
  function Resolve(t: Table, r: Ref): Option<string> {
    if r in t then Some(t[r])
    else if '.' in r.qualname && Ref(r.mod, BeforeDot(r.qualname)) in t
    then Some(t[Ref(r.mod, BeforeDot(r.qualname))])
    else None
  }

  function RefLinks(t: Table, source: string, refs: seq<Ref>): seq<Link> {
    if refs == [] then []
    else
      var n := |refs| - 1;
      RefLinks(t, source, refs[..n]) + RefLink(t, source, refs[n])
  }

  function RefLink(t: Table, source: string, r: Ref): seq<Link> {
    match Resolve(t, r)
    case None => []
    case Some(target) => if target != source then [Link(source, target, RefEdge)] else []
  }

  function MethodLinks(t: Table, fid: string, cls: string, ms: seq<Routine>): seq<Link> {
    if ms == [] then []
    else
      var n := |ms| - 1;
      MethodLinks(t, fid, cls, ms[..n]) + RefLinks(t, MemberId(fid, Dotted(cls, ms[n].name)), ms[n].refs)
  }

  function ClassLinks(t: Table, fid: string, cs: seq<Class>): seq<Link> {
    if cs == [] then []
    else
      var n := |cs| - 1;
      ClassLinks(t, fid, cs[..n]) + MethodLinks(t, fid, cs[n].name, cs[n].methods)
  }

  function FunctionLinks(t: Table, fid: string, fs: seq<Routine>): seq<Link> {
    if fs == [] then []
    else
      var n := |fs| - 1;
      FunctionLinks(t, fid, fs[..n]) + RefLinks(t, MemberId(fid, fs[n].name), fs[n].refs)
  }

  function FileImportLinks(t: Table, f: SourceFile): seq<Link> {
    if f.parsed then ImportLinks(t, f.mod, FileId(f), f.imports) else []
  }

  function FileRefLinks(t: Table, f: SourceFile): seq<Link> {
    if f.parsed then ClassLinks(t, FileId(f), f.classes) + FunctionLinks(t, FileId(f), f.functions) else []
  }

  function AllImportLinks(t: Table, files: seq<SourceFile>): seq<Link> {
    if files == [] then []
    else AllImportLinks(t, files[..|files| - 1]) + FileImportLinks(t, files[|files| - 1])
  }

  function AllRefLinks(t: Table, files: seq<SourceFile>): seq<Link> {
    if files == [] then []
    else AllRefLinks(t, files[..|files| - 1]) + FileRefLinks(t, files[|files| - 1])
  }

  function AllLinks(files: seq<SourceFile>): seq<Link> {
    AllImportLinks(Targets(files), files) + AllRefLinks(Targets(files), files)
  }

  function EdgeId(position: nat): string {
    "e" + Digits(position)
  }

  function Links(edges: seq<Edge>): set<Link> {
    set e | e in edges :: e.link
  }

  /** Drop self-edges and repetitions; the id is the position. */
  function KeptEdges(offered: seq<Link>): (edges: seq<Edge>)
    ensures forall l :: l in Links(edges) <==> l in offered && l.source != l.target
  {
    if offered == [] then []
    else
      var last := offered[|offered| - 1];
      var edges := KeptEdges(offered[..|offered| - 1]);
      assert offered == offered[..|offered| - 1] + [last];
      if last.source == last.target || last in Links(edges) then edges
      else
        var e := Edge(EdgeId(|edges|), last);
        assert Links(edges + [e]) == Links(edges) + {last} by {
          assert forall x :: x in edges + [e] <==> x in edges || x == e;
        }
        edges + [e]
  }

  lemma KeptUnfold(offered: seq<Link>)
    requires offered != []
    ensures var last := offered[|offered| - 1];
      var edges := KeptEdges(offered[..|offered| - 1]);
      KeptEdges(offered) == if last.source == last.target || last in Links(edges) then edges
                            else edges + [Edge(EdgeId(|edges|), last)]
  {
    hide EdgeId;
  }

  /** Edge ids are positions, no edge joins a node to itself, and no (source, target, kind) occurs twice. */
  ghost predicate EdgesProper(edges: seq<Edge>) {
    && (forall i :: 0 <= i < |edges| ==>
          edges[i].id == EdgeId(i) && edges[i].link.source != edges[i].link.target)
    && (forall i, j :: 0 <= i < j < |edges| ==> edges[i].link != edges[j].link)
  }

  lemma EdgesProperSnoc(edges: seq<Edge>, l: Link)
    requires EdgesProper(edges) && l.source != l.target && l !in Links(edges)
    ensures EdgesProper(edges + [Edge(EdgeId(|edges|), l)])
  {
    hide EdgeId;
    forall i | 0 <= i < |edges| ensures edges[i].link in Links(edges) {
      assert edges[i] in edges;
    }
  }

  lemma {:induction false} EdgesUnique(offered: seq<Link>)
    ensures EdgesProper(KeptEdges(offered))
  {
    if offered == [] {
      assert KeptEdges(offered) == [];
    } else {
      hide EdgeId, KeptEdges, EdgesProper;
      var n := |offered| - 1;
      EdgesUnique(offered[..n]);
      KeptUnfold(offered);
      var edges := KeptEdges(offered[..n]);
      if offered[n].source != offered[n].target && offered[n] !in Links(edges) {
        EdgesProperSnoc(edges, offered[n]);
      }
    }
  }

  lemma EdgeIdsDiffer(offered: seq<Link>, i: nat, j: nat)
    requires i < j < |KeptEdges(offered)|
    ensures KeptEdges(offered)[i].id != KeptEdges(offered)[j].id
  {
    EdgesUnique(offered);
    hide Digits, KeptEdges;
    ValueOfDigits(i);
    ValueOfDigits(j);
    assert EdgeId(i)[1..] == Digits(i) && EdgeId(j)[1..] == Digits(j);
  }

  // ---- closure -----------------------------------------------------------

  /** The ids of the folders above the files, and of the root. */
  function FolderIds(files: seq<SourceFile>): set<string> {
    {ROOT} + set i, k | 0 <= i < |files| && 1 <= k < |files[i].path| :: Posix(files[i].path[..k])
  }

  function FileNodeIds(files: seq<SourceFile>): set<string> {
    Ids(FileNodes(files))
  }

  /** The ids of all emitted nodes. */
  function NodeIds(files: seq<SourceFile>): set<string> {
    FolderIds(files) + FileNodeIds(files)
  }

  /** In whatever order the folders are emitted, those are the ids of the nodes. */
  lemma OfferedIds(files: seq<SourceFile>, ds: seq<Path>)
    requires IsFolderOrder(files, ds)
    ensures Ids(Offered(ds, files)) == NodeIds(files)
  {
    hide FileNodes, Posix;
    DirIds(ds);
    IdsConcat(DirNodes(ds), FileNodes(files));
    RootPath();
    forall id ensures id in Ids(DirNodes(ds)) <==> id in FolderIds(files) {
      if id in Ids(DirNodes(ds)) {
        var d :| d in ds && Posix(d) == id;
        if d != [ROOT] {
          var i :| 0 <= i < |files| && 1 <= |d| < |files[i].path| && d == files[i].path[..|d|];
        }
      }
      if id in FolderIds(files) && id != ROOT {
        var i, k :| 0 <= i < |files| && 1 <= k < |files[i].path| && Posix(files[i].path[..k]) == id;
        assert IsFolder(files, files[i].path[..k]);
      }
    }
  }

  lemma RootPath()
    ensures Posix([ROOT]) == ROOT
  {
  }

  /** Every edge endpoint names a node of the given ids. */
  predicate Closed(ids: set<string>, links: seq<Link>) {
    forall l :: l in links && l.source != l.target ==> l.source in ids && l.target in ids
  }

  predicate WithinIds(t: Table, ids: set<string>) {
    forall k :: k in t ==> t[k] in ids
  }

  lemma {:induction false} MethodTargetsAreNodes(t: Table, m: string, fid: string, cls: string, ms: seq<Routine>)
    ensures WithinIds(MethodTargets(t, m, fid, cls, ms), t.Values + Ids(MethodNodes(fid, cls, ms)))
  {
    if ms != [] {
      hide MemberId, Dotted;
      var n := |ms| - 1;
      MethodTargetsAreNodes(t, m, fid, cls, ms[..n]);
      var node := Node(MemberId(fid, Dotted(cls, ms[n].name)), MethodNode, Some(MemberId(fid, cls)));
      IdsConcat(MethodNodes(fid, cls, ms[..n]), [node]);
      IdsHas(MethodNodes(fid, cls, ms[..n]), node);
    }
  }

  lemma ValuesWithin(t: Table, ids: set<string>)
    requires WithinIds(t, ids)
    ensures t.Values <= ids
  {
  }

  lemma {:induction false} ClassTargetsAreNodes(t: Table, m: string, fid: string, cs: seq<Class>)
    ensures WithinIds(ClassTargets(t, m, fid, cs), t.Values + Ids(ClassNodes(fid, cs)))
  {
    if cs != [] {
      hide MemberId, MethodNodes, MethodTargets, Ids;
      var n := |cs| - 1;
      ClassTargetsAreNodes(t, m, fid, cs[..n]);
      var node := Node(MemberId(fid, cs[n].name), ClassNode, Some(fid));
      var before := ClassNodes(fid, cs[..n]) + [node];
      IdsConcat(ClassNodes(fid, cs[..n]), [node]);
      IdsHas(ClassNodes(fid, cs[..n]), node);
      IdsConcat(before, MethodNodes(fid, cs[n].name, cs[n].methods));
      var mid := ClassTargets(t, m, fid, cs[..n])[Ref(m, cs[n].name) := node.id];
      assert WithinIds(mid, t.Values + Ids(before));
      ValuesWithin(mid, t.Values + Ids(before));
      MethodTargetsAreNodes(mid, m, fid, cs[n].name, cs[n].methods);
    }
  }

  lemma {:induction false} FunctionTargetsAreNodes(t: Table, m: string, fid: string, fs: seq<Routine>)
    ensures WithinIds(FunctionTargets(t, m, fid, fs), t.Values + Ids(FunctionNodes(fid, fs)))
  {
    if fs != [] {
      hide MemberId, Ids;
      var n := |fs| - 1;
      FunctionTargetsAreNodes(t, m, fid, fs[..n]);
      var node := Node(MemberId(fid, fs[n].name), FunctionNode, Some(fid));
      IdsConcat(FunctionNodes(fid, fs[..n]), [node]);
      IdsHas(FunctionNodes(fid, fs[..n]), node);
    }
  }

  lemma FileTargetsAreNodes(t: Table, f: SourceFile)
    ensures WithinIds(FileTargets(t, f), t.Values + Ids(NodesOfFile(f)))
  {
    hide ClassNodes, FunctionNodes, Ids, ClassTargets, FunctionTargets, FileId;
    var fid := FileId(f);
    var t0 := t[Ref(f.mod, "") := fid];
    var t1 := ClassTargets(t0, f.mod, fid, f.classes);
    IdsHas([], FileNodeOf(f));
    assert [] + [FileNodeOf(f)] == [FileNodeOf(f)];
    assert WithinIds(t0, t.Values + Ids([FileNodeOf(f)]));
    ValuesWithin(t0, t.Values + Ids([FileNodeOf(f)]));
    ClassTargetsAreNodes(t0, f.mod, fid, f.classes);
    IdsConcat([FileNodeOf(f)], ClassNodes(fid, f.classes));
    var before := [FileNodeOf(f)] + ClassNodes(fid, f.classes);
    assert WithinIds(t1, t.Values + Ids(before));
    ValuesWithin(t1, t.Values + Ids(before));
    FunctionTargetsAreNodes(t1, f.mod, fid, f.functions);
    IdsConcat(before, FunctionNodes(fid, f.functions));
  }

  /** Everything a name can resolve to is an emitted node. */
  lemma {:induction false} TargetsAreNodes(files: seq<SourceFile>)
    ensures WithinIds(Targets(files), FileNodeIds(files))
  {
    if files != [] {
      hide Ids, NodesOfFile, FileTargets;
      var n := |files| - 1;
      TargetsAreNodes(files[..n]);
      ValuesWithin(Targets(files[..n]), FileNodeIds(files[..n]));
      FileTargetsAreNodes(Targets(files[..n]), files[n]);
      IdsConcat(FileNodes(files[..n]), NodesOfFile(files[n]));
    }
  }

  lemma {:induction false} RefLinksClosed(t: Table, ids: set<string>, source: string, refs: seq<Ref>)
    requires WithinIds(t, ids) && source in ids
    ensures Closed(ids, RefLinks(t, source, refs))
  {
    if refs != [] {
      RefLinksClosed(t, ids, source, refs[..|refs| - 1]);
      var r := refs[|refs| - 1];
      assert Closed(ids, RefLink(t, source, r));
    }
  }

  lemma {:induction false} MethodLinksClosed(t: Table, ids: set<string>, fid: string, cls: string, ms: seq<Routine>)
    requires WithinIds(t, ids) && Ids(MethodNodes(fid, cls, ms)) <= ids
    ensures Closed(ids, MethodLinks(t, fid, cls, ms))
  {
    if ms != [] {
      hide RefLinks, MemberId, WithinIds;
      var n := |ms| - 1;
      var node := Node(MemberId(fid, Dotted(cls, ms[n].name)), MethodNode, Some(MemberId(fid, cls)));
      IdsConcat(MethodNodes(fid, cls, ms[..n]), [node]);
      IdsHas(MethodNodes(fid, cls, ms[..n]), node);
      MethodLinksClosed(t, ids, fid, cls, ms[..n]);
      RefLinksClosed(t, ids, node.id, ms[n].refs);
    }
  }

  lemma {:induction false} ClassLinksClosed(t: Table, ids: set<string>, fid: string, cs: seq<Class>)
    requires WithinIds(t, ids) && Ids(ClassNodes(fid, cs)) <= ids
    ensures Closed(ids, ClassLinks(t, fid, cs))
  {
    if cs != [] {
      hide MethodLinks, MemberId, WithinIds, MethodNodes, Ids;
      var n := |cs| - 1;
      var node := Node(MemberId(fid, cs[n].name), ClassNode, Some(fid));
      IdsConcat(ClassNodes(fid, cs[..n]) + [node], MethodNodes(fid, cs[n].name, cs[n].methods));
      IdsConcat(ClassNodes(fid, cs[..n]), [node]);
      ClassLinksClosed(t, ids, fid, cs[..n]);
      MethodLinksClosed(t, ids, fid, cs[n].name, cs[n].methods);
    }
  }

  lemma {:induction false} FunctionLinksClosed(t: Table, ids: set<string>, fid: string, fs: seq<Routine>)
    requires WithinIds(t, ids) && Ids(FunctionNodes(fid, fs)) <= ids
    ensures Closed(ids, FunctionLinks(t, fid, fs))
  {
    if fs != [] {
      hide RefLinks, MemberId, WithinIds;
      var n := |fs| - 1;
      var node := Node(MemberId(fid, fs[n].name), FunctionNode, Some(fid));
      IdsConcat(FunctionNodes(fid, fs[..n]), [node]);
      IdsHas(FunctionNodes(fid, fs[..n]), node);
      FunctionLinksClosed(t, ids, fid, fs[..n]);
      RefLinksClosed(t, ids, node.id, fs[n].refs);
    }
  }

  lemma {:induction false} RefsClosed(t: Table, ids: set<string>, files: seq<SourceFile>)
    requires WithinIds(t, ids) && Ids(FileNodes(files)) <= ids
    ensures Closed(ids, AllRefLinks(t, files))
  {
    if files != [] {
      hide WithinIds, Ids, ClassLinks, FunctionLinks, FileId, ClassNodes, FunctionNodes;
      var n := |files| - 1;
      var f := files[n];
      IdsConcat(FileNodes(files[..n]), NodesOfFile(f));
      IdsConcat([FileNodeOf(f)] + ClassNodes(FileId(f), f.classes), FunctionNodes(FileId(f), f.functions));
      IdsConcat([FileNodeOf(f)], ClassNodes(FileId(f), f.classes));
      RefsClosed(t, ids, files[..n]);
      ClassLinksClosed(t, ids, FileId(f), f.classes);
      FunctionLinksClosed(t, ids, FileId(f), f.functions);
    }
  }

  /** What one import resolves to, if it is a symbol of the project, lies in a file that is a node. */
  predicate HeadWithin(t: Table, ids: set<string>, i: Import) {
    i.name.Some? && Ref(i.mod, i.name.value) in t ==> Head(t[Ref(i.mod, i.name.value)]) in ids
  }

  lemma {:induction false} ImportLinksClosed(t: Table, ids: set<string>, m: string, fid: string, imports: seq<Import>)
    requires WithinIds(t, ids) && fid in ids
    ensures Closed(ids, ImportLinks(t, m, fid, imports)) <==>
              forall j :: 0 <= j < |imports| ==> HeadWithin(t, ids, imports[j])
  {
    if imports != [] {
      hide Head;
      var n := |imports| - 1;
      ImportLinksClosed(t, ids, m, fid, imports[..n]);
      assert imports[..n] == imports[..n][..n];
      OneImportClosed(t, ids, m, fid, imports[n]);
      ClosedConcat(ids, ImportLinks(t, m, fid, imports[..n]), ImportLink(t, m, fid, imports[n]));
      assert forall j :: 0 <= j < n ==> imports[..n][j] == imports[j];
    }
  }

  lemma ClosedConcat(ids: set<string>, a: seq<Link>, b: seq<Link>)
    ensures Closed(ids, a + b) <==> Closed(ids, a) && Closed(ids, b)
  {
    assert forall l :: l in a + b <==> l in a || l in b;
  }

  lemma OneImportClosed(t: Table, ids: set<string>, m: string, fid: string, i: Import)
    requires WithinIds(t, ids) && fid in ids
    ensures Closed(ids, ImportLink(t, m, fid, i)) <==> HeadWithin(t, ids, i)
  {
    hide Head;
    var whole := Ref(i.mod, "");
    var first := if whole in t && i.mod != m then [Link(fid, t[whole], ImportEdge)] else [];
    var second := if i.name.Some? && Ref(i.mod, i.name.value) in t && Head(t[Ref(i.mod, i.name.value)]) != fid
                  then [Link(fid, Head(t[Ref(i.mod, i.name.value)]), ImportEdge)] else [];
    ClosedConcat(ids, first, second);
    assert second != [] ==> second[0] in second;
  }

  lemma FileIdEmitted(files: seq<SourceFile>, f: SourceFile)
    requires f in files
    ensures FileId(f) in NodeIds(files)
  {
    FileNodesInclude(files, f);
    assert FileNodeOf(f) in NodesOfFile(f);
  }

  lemma {:induction false} FileNodesInclude(files: seq<SourceFile>, f: SourceFile)
    requires f in files
    ensures forall n :: n in NodesOfFile(f) ==> n in FileNodes(files)
  {
    hide NodesOfFile;
    if f != files[|files| - 1] {
      assert files == files[..|files| - 1] + [files[|files| - 1]];
      FileNodesInclude(files[..|files| - 1], f);
    }
  }

  predicate FileHeadsWithin(t: Table, ids: set<string>, f: SourceFile) {
    f.parsed ==> forall j :: 0 <= j < |f.imports| ==> HeadWithin(t, ids, f.imports[j])
  }

  lemma {:induction false} ImportsClosed(t: Table, ids: set<string>, files: seq<SourceFile>)
    requires WithinIds(t, ids)
    requires forall f :: f in files ==> FileId(f) in ids
    ensures Closed(ids, AllImportLinks(t, files)) <==>
              forall i :: 0 <= i < |files| ==> FileHeadsWithin(t, ids, files[i])
  {
    if files != [] {
      hide HeadWithin, ImportLinks, FileId, WithinIds, Closed;
      var n := |files| - 1;
      ImportsClosed(t, ids, files[..n]);
      if files[n].parsed {
        ImportLinksClosed(t, ids, files[n].mod, FileId(files[n]), files[n].imports);
      } else {
        NothingClosed(ids);
      }
      ClosedConcat(ids, AllImportLinks(t, files[..n]), FileImportLinks(t, files[n]));
      assert forall i :: 0 <= i < n ==> files[..n][i] == files[i];
    }
  }

  lemma NothingClosed(ids: set<string>)
    ensures Closed(ids, [])
  {
  }

  // ---- when the graph is closed ------------------------------------------

  /** For every symbol of the project that some file imports, the part of its id before `::` is an emitted
      node. */
  predicate ImportedHeadsEmitted(files: seq<SourceFile>) {
    forall i :: 0 <= i < |files| ==> FileHeadsWithin(Targets(files), NodeIds(files), files[i])
  }

  /** Every edge endpoint is an emitted node exactly then. */
  lemma ClosedExactly(files: seq<SourceFile>)
    ensures Closed(NodeIds(files), AllLinks(files)) <==> ImportedHeadsEmitted(files)
  {
    hide Targets, AllImportLinks, AllRefLinks, WithinIds, Closed, FileHeadsWithin, FileNodes, FolderIds;
    var t, ids := Targets(files), NodeIds(files);
    TargetsAreNodes(files);
    MoreIds(t, FileNodeIds(files), ids);
    forall f | f in files ensures FileId(f) in ids {
      FileIdEmitted(files, f);
    }
    ImportsClosed(t, ids, files);
    RefsClosed(t, ids, files);
    ClosedConcat(ids, AllImportLinks(t, files), AllRefLinks(t, files));
  }

  lemma MoreIds(t: Table, a: set<string>, b: set<string>)
    requires WithinIds(t, a) && a <= b
    ensures WithinIds(t, b)
  {
  }

  /** The same condition for all symbols, imported or not. */
  predicate HeadsEmitted(files: seq<SourceFile>) {
    forall k :: k in Targets(files) && k.qualname != "" ==> Head(Targets(files)[k]) in NodeIds(files)
  }

  /** The same files up to what they import. */
  predicate SameDefinitions(a: SourceFile, b: SourceFile) {
    a.path == b.path && a.mod == b.mod && a.parsed == b.parsed
    && a.classes == b.classes && a.functions == b.functions
  }

  predicate SameButImports(a: seq<SourceFile>, b: seq<SourceFile>) {
    |a| == |b| && forall i :: 0 <= i < |a| ==> SameDefinitions(a[i], b[i])
  }

  lemma {:induction false} ImportsDoNotMatter(a: seq<SourceFile>, b: seq<SourceFile>)
    requires SameButImports(a, b)
    ensures Targets(a) == Targets(b) && FileNodes(a) == FileNodes(b)
  {
    if a != [] {
      var n := |a| - 1;
      ImportsDoNotMatter(a[..n], b[..n]);
      assert SameDefinitions(a[n], b[n]);
      SameFile(a[n], b[n], Targets(a[..n]));
    }
  }

  lemma SameFile(a: SourceFile, b: SourceFile, t: Table)
    requires SameDefinitions(a, b)
    ensures FileTargets(t, a) == FileTargets(t, b) && NodesOfFile(a) == NodesOfFile(b)
  {
    hide ClassTargets, FunctionTargets, ClassNodes, FunctionNodes, Posix;
  }

  /** A symbol in the table comes from a file that parsed. */
  lemma {:induction false} SymbolHasFile(files: seq<SourceFile>, k: Ref) returns (i: nat)
    requires AllProper(files) && k in Targets(files) && k.qualname != ""
    ensures i < |files| && files[i].parsed
  {
    var n := |files| - 1;
    if files[n].parsed {
      i := n;
    } else {
      assert Proper(files[n]);
      i := SymbolHasFile(files[..n], k);
    }
  }

  lemma SameNodeIds(a: seq<SourceFile>, b: seq<SourceFile>)
    requires SameButImports(a, b)
    ensures NodeIds(a) == NodeIds(b) && Targets(a) == Targets(b)
  {
    hide Posix, Targets, FileNodes;
    ImportsDoNotMatter(a, b);
    assert forall i :: 0 <= i < |a| ==> SameDefinitions(a[i], b[i]);
    assert FolderIds(a) == FolderIds(b);
  }

  /** One import of that symbol, by some file, is an edge that leaves the graph. */
  lemma StrayImport(files: seq<SourceFile>, k: Ref) returns (g: seq<SourceFile>)
    requires AllProper(files) && k in Targets(files) && k.qualname != ""
    requires Head(Targets(files)[k]) !in NodeIds(files)
    ensures SameButImports(files, g) && AllProper(g) && !ImportedHeadsEmitted(g)
  {
    hide Head, Targets, NodeIds;
    var i := SymbolHasFile(files, k);
    var f := files[i].(imports := [Import(k.mod, Some(k.qualname))]);
    g := files[i := f];
    SameNodeIds(files, g);
    assert Proper(files[i]);
    forall x | x in g ensures Proper(x) {
    }
    assert !HeadWithin(Targets(g), NodeIds(g), f.imports[0]);
    assert !FileHeadsWithin(Targets(g), NodeIds(g), g[i]);
  }

  lemma ImportedAreSymbols(files: seq<SourceFile>)
    requires AllProper(files) && HeadsEmitted(files)
    ensures ImportedHeadsEmitted(files)
  {
    hide Head, Targets, NodeIds;
    forall i | 0 <= i < |files| ensures FileHeadsWithin(Targets(files), NodeIds(files), files[i]) {
      assert Proper(files[i]);
      forall j | 0 <= j < |files[i].imports| ensures HeadWithin(Targets(files), NodeIds(files), files[i].imports[j]) {
        assert files[i].imports[j] in files[i].imports;
      }
    }
  }

  /** Whatever the files import, the graph is closed, exactly when that condition holds. */
  lemma AlwaysClosedExactly(files: seq<SourceFile>)
    requires AllProper(files)
    ensures (forall g :: SameButImports(files, g) && AllProper(g) ==> Closed(NodeIds(g), AllLinks(g)))
        <==> HeadsEmitted(files)
  {
    hide Head, Targets, NodeIds, AllLinks, ImportedHeadsEmitted;
    if HeadsEmitted(files) {
      forall g | SameButImports(files, g) && AllProper(g) ensures Closed(NodeIds(g), AllLinks(g)) {
        SameNodeIds(files, g);
        ImportedAreSymbols(g);
        ClosedExactly(g);
      }
    } else {
      var k :| k in Targets(files) && k.qualname != "" && Head(Targets(files)[k]) !in NodeIds(files);
      var g := StrayImport(files, k);
      ClosedExactly(g);
    }
  }

  /** Files on which it is not closed: two modules in a folder whose name contains the separator, one of which
      says `from .y import C`. */
  function StrayFiles(): seq<SourceFile> {
    [SourceFile([ROOT, "a::b", "y.py"], "krakey.a::b.y", true, [], [Class("C", [])], []),
     SourceFile([ROOT, "a::b", "z.py"], "krakey.a::b.z", true, [Import("krakey.a::b.y", Some("C"))], [], [])]
  }

  lemma PosixOfThree(a: string, b: string, c: string)
    ensures Posix([a]) == a && Posix([a, b]) == a + "/" + b && Posix([a, b, c]) == a + "/" + b + "/" + c
  {
    assert [a, b][..1] == [a];
    assert [a, b, c][..2] == [a, b];
  }

  /** Two files, the first of which defines a class and nothing else. */
  lemma OneClass(y: SourceFile, z: SourceFile, c: string)
    requires y.classes == [Class(c, [])] && c != "" && y.functions == z.functions == [] && z.classes == []
    ensures FileNodeIds([y, z]) == {FileId(y), MemberId(FileId(y), c), FileId(z)}
    ensures Ref(y.mod, c) in Targets([y, z]) && Targets([y, z])[Ref(y.mod, c)] == MemberId(FileId(y), c)
  {
    hide Posix, MemberId, FileId, FileTargets;
    OneClassNodes(y, c);
    var n := Node(MemberId(FileId(y), c), ClassNode, Some(FileId(y)));
    assert [y, z][..1] == [y] && [y][..0] == [];
    assert FileNodes([y]) == FileNodes([]) + NodesOfFile(y);
    assert FileNodes([y, z]) == FileNodes([y]) + NodesOfFile(z);
    assert NodesOfFile(z) == [FileNodeOf(z)];
    assert FileNodes([y, z]) == [FileNodeOf(y), n, FileNodeOf(z)];
    assert forall x :: x in FileNodes([y, z]) <==> x == FileNodeOf(y) || x == n || x == FileNodeOf(z);
    ClassTarget(map[], y, c);
    assert Targets([y]) == FileTargets(map[], y);
    assert Targets([y, z]) == FileTargets(Targets([y]), z);
    NoClassTarget(Targets([y]), z);
  }

  lemma OneClassNodes(y: SourceFile, c: string)
    requires y.classes == [Class(c, [])] && y.functions == []
    ensures NodesOfFile(y) == [FileNodeOf(y), Node(MemberId(FileId(y), c), ClassNode, Some(FileId(y)))]
  {
    hide Posix, MemberId, FileId;
    assert y.classes[..0] == [];
    assert ClassNodes(FileId(y), y.classes[..0]) == [] && MethodNodes(FileId(y), c, []) == [];
  }

  lemma ClassTarget(t: Table, y: SourceFile, c: string)
    requires y.classes == [Class(c, [])] && y.functions == []
    ensures FileTargets(t, y) == t[Ref(y.mod, "") := FileId(y)][Ref(y.mod, c) := MemberId(FileId(y), c)]
  {
    hide Posix, MemberId, FileId;
    var t0 := t[Ref(y.mod, "") := FileId(y)];
    assert y.classes[..0] == [];
    assert ClassTargets(t0, y.mod, FileId(y), y.classes[..0]) == t0;
  }

  lemma NoClassTarget(t: Table, z: SourceFile)
    requires z.classes == [] && z.functions == []
    ensures FileTargets(t, z) == t[Ref(z.mod, "") := FileId(z)]
  {
    hide Posix, FileId;
  }

  lemma StrayHead(fid: string)
    requires fid == "krakey" + "/" + "a::b" + "/" + "y.py"
    ensures Head(MemberId(fid, "C")) == "krakey/a"
  {
    hide Head;
    PlainHead();
    HeadOfMember("krakey/a", "b/y.py::C");
    assert MemberId(fid, "C") == MemberId("krakey/a", "b/y.py::C");
  }

  lemma PlainHead()
    ensures NoSeparator("krakey/a")
  {
  }

  lemma NotClosed()
    ensures AllProper(StrayFiles()) && !Closed(NodeIds(StrayFiles()), AllLinks(StrayFiles()))
  {
    hide Head, FileNodeIds, Targets, Posix, MemberId, Closed;
    var files := StrayFiles();
    var y, z := files[0], files[1];
    PosixOfThree(ROOT, "a::b", "y.py");
    PosixOfThree(ROOT, "a::b", "z.py");
    OneClass(y, z, "C");
    StrayHead(FileId(y));
    StrayIdsAreOfOtherLengths();
    ClosedExactly(files);
    assert !HeadWithin(Targets(files), NodeIds(files), z.imports[0]);
    assert !FileHeadsWithin(Targets(files), NodeIds(files), z);
  }

  lemma StrayIdsAreOfOtherLengths()
    ensures forall id :: id in NodeIds(StrayFiles()) ==> |id| != |"krakey/a"|
  {
    hide FileNodeIds, Targets, Posix;
    var files := StrayFiles();
    PosixOfThree(ROOT, "a::b", "y.py");
    PosixOfThree(ROOT, "a::b", "z.py");
    OneClass(files[0], files[1], "C");
    forall id | id in FolderIds(files) ensures |id| != |"krakey/a"| {
      if id != ROOT {
        var i, k :| 0 <= i < |files| && 1 <= k < |files[i].path| && Posix(files[i].path[..k]) == id;
        assert files[i].path[..k] == if k == 1 then [ROOT] else [ROOT, "a::b"];
      }
    }
  }

  // ---- when no path contains the separator -------------------------------

  predicate NoSeparator(s: string) {
    s != "" && s[|s| - 1] != ':' && forall i :: 0 <= i < |s| - 1 ==> !(s[i] == ':' && s[i + 1] == ':')
  }

  lemma {:induction false} HeadOfMember(fid: string, name: string)
    requires NoSeparator(fid)
    ensures Head(MemberId(fid, name)) == fid
  {
    var id := MemberId(fid, name);
    if |fid| == 1 {
      assert id[1..] == "::" + name;
    } else {
      assert id[1] == fid[1];
      HeadOfMember(fid[1..], name);
      assert id[1..] == MemberId(fid[1..], name);
    }
  }


  lemma {:induction false} SymbolsBelongToFiles(files: seq<SourceFile>, k: Ref)
    requires k in Targets(files) && k.qualname != ""
    ensures exists f :: f in files && HasMember(FileId(f), Targets(files)[k])
  {
    hide MemberId, HasMember, FileId;
    var n := |files| - 1;
    FileSymbols(Targets(files[..n]), files[n], k);
    if !HasMember(FileId(files[n]), Targets(files)[k]) {
      SymbolsBelongToFiles(files[..n], k);
      var f :| f in files[..n] && HasMember(FileId(f), Targets(files[..n])[k]);
      assert f in files;
    }
  }

  predicate HasMember(fid: string, id: string) {
    |id| >= |fid| + 2 && id == MemberId(fid, id[|fid| + 2..])
  }

  lemma MemberHas(fid: string, name: string)
    ensures HasMember(fid, MemberId(fid, name))
  {
    assert MemberId(fid, name)[|fid| + 2..] == name;
  }

  lemma {:induction false} MethodSymbols(t: Table, m: string, fid: string, cls: string, ms: seq<Routine>, k: Ref)
    requires k in MethodTargets(t, m, fid, cls, ms)
    ensures HasMember(fid, MethodTargets(t, m, fid, cls, ms)[k])
         || (k in t && MethodTargets(t, m, fid, cls, ms)[k] == t[k])
  {
    if ms != [] {
      hide MemberId, HasMember, Dotted;
      var n := |ms| - 1;
      var name := Dotted(cls, ms[n].name);
      MemberHas(fid, name);
      if k != Ref(m, name) {
        MethodSymbols(t, m, fid, cls, ms[..n], k);
      }
    }
  }

  lemma {:induction false} ClassSymbols(t: Table, m: string, fid: string, cs: seq<Class>, k: Ref)
    requires k in ClassTargets(t, m, fid, cs)
    ensures HasMember(fid, ClassTargets(t, m, fid, cs)[k])
         || (k in t && ClassTargets(t, m, fid, cs)[k] == t[k])
  {
    if cs != [] {
      hide MemberId, HasMember, MethodTargets;
      var n := |cs| - 1;
      MemberHas(fid, cs[n].name);
      var mid := ClassTargets(t, m, fid, cs[..n])[Ref(m, cs[n].name) := MemberId(fid, cs[n].name)];
      MethodSymbols(mid, m, fid, cs[n].name, cs[n].methods, k);
      if k in mid && k != Ref(m, cs[n].name) {
        ClassSymbols(t, m, fid, cs[..n], k);
      }
    }
  }

  lemma {:induction false} FunctionSymbols(t: Table, m: string, fid: string, fs: seq<Routine>, k: Ref)
    requires k in FunctionTargets(t, m, fid, fs)
    ensures HasMember(fid, FunctionTargets(t, m, fid, fs)[k])
         || (k in t && FunctionTargets(t, m, fid, fs)[k] == t[k])
  {
    if fs != [] {
      hide MemberId, HasMember;
      var n := |fs| - 1;
      MemberHas(fid, fs[n].name);
      if k != Ref(m, fs[n].name) {
        FunctionSymbols(t, m, fid, fs[..n], k);
      }
    }
  }

  lemma FileSymbols(t: Table, f: SourceFile, k: Ref)
    requires k in FileTargets(t, f) && k.qualname != ""
    ensures HasMember(FileId(f), FileTargets(t, f)[k]) || (k in t && FileTargets(t, f)[k] == t[k])
  {
    hide HasMember, ClassTargets, FunctionTargets, FileId;
    var fid := FileId(f);
    var t0 := t[Ref(f.mod, "") := fid];
    var t1 := ClassTargets(t0, f.mod, fid, f.classes);
    FunctionSymbols(t1, f.mod, fid, f.functions, k);
    if k in t1 {
      ClassSymbols(t0, f.mod, fid, f.classes, k);
    }
  }

  /** Ordinary paths satisfy the condition: no file id contains `::` or ends in a colon. */
  lemma PlainPathsEmitHeads(files: seq<SourceFile>)
    requires forall f :: f in files ==> NoSeparator(FileId(f))
    ensures HeadsEmitted(files)
  {
    hide Head, Targets, FileId, NoSeparator, MemberId;
    forall k | k in Targets(files) && k.qualname != "" ensures Head(Targets(files)[k]) in NodeIds(files) {
      SymbolsBelongToFiles(files, k);
      var f :| f in files && HasMember(FileId(f), Targets(files)[k]);
      HeadOfMember(FileId(f), Targets(files)[k][|FileId(f)| + 2..]);
      FileIdEmitted(files, f);
    }
  }
}
