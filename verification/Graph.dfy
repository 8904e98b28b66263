/** The architecture-graph builder (`docs/scripts/build_arch_graph.py`), over parsed file records. */
module Graph {
  import opened Basics

  // ---- the parsed input --------------------------------------------------

  type Path = seq<string>

  /** A resolved reference or import: a module and a dotted name inside it. */
  datatype Ref = Ref(mod: string, qualname: string)

  /** What one bound name of a file was imported as; no name when it is a module. */
  datatype Import = Import(mod: string, name: Option<string>)

  datatype Routine = Routine(name: string, refs: seq<Ref>)

  datatype Class = Class(name: string, methods: seq<Routine>)

  datatype SourceFile = SourceFile(
    path: Path, mod: string, parsed: bool, imports: seq<Import>, classes: seq<Class>, functions: seq<Routine>)

  const ROOT := "krakey"

  /** Every file lies below the root; a file that does not parse has no contents; imported names and
      defined names are identifiers. */
  predicate Proper(f: SourceFile) {
    && |f.path| >= 2 && f.path[0] == ROOT
    && (!f.parsed ==> f.classes == [] && f.functions == [])
    && (forall i :: i in f.imports && i.name.Some? ==> i.name.value != "")
  }

  predicate AllProper(files: seq<SourceFile>) {
    forall f :: f in files ==> Proper(f)
  }

  // ---- ids ---------------------------------------------------------------

  function Posix(path: Path): string {
    if |path| == 0 then ""
    else if |path| == 1 then path[0]
    else Posix(path[..|path| - 1]) + "/" + path[|path| - 1]
  }

  function FileId(f: SourceFile): string {
    Posix(f.path)
  }

  function MemberId(fid: string, name: string): string {
    fid + "::" + name
  }

  function Dotted(cls: string, name: string): string {
    cls + "." + name
  }

  /** `id.split("::")[0]`. */
  function Head(id: string): string {
    if |id| < 2 then id
    else if id[0] == ':' && id[1] == ':' then ""
    else [id[0]] + Head(id[1..])
  }

  /** `name.split(".")[0]`. */
  function BeforeDot(name: string): string {
    if name == "" || name[0] == '.' then "" else [name[0]] + BeforeDot(name[1..])
  }

  // ---- nodes, in the order they are offered ------------------------------

  datatype Kind = DirNode | FileNode | ClassNode | MethodNode | FunctionNode

  datatype Node = Node(id: string, kind: Kind, parent: Option<string>)

  function DirNodeOf(d: Path): Node {
    Node(Posix(d), DirNode, if d == [ROOT] || d == [] then None else Some(Posix(d[..|d| - 1])))
  }

  function DirNodes(ds: seq<Path>): seq<Node> {
    if ds == [] then [] else DirNodes(ds[..|ds| - 1]) + [DirNodeOf(ds[|ds| - 1])]
  }

  function Folder(path: Path): Path {
    if path == [] then [] else path[..|path| - 1]
  }

  function FileNodeOf(f: SourceFile): Node {
    Node(FileId(f), FileNode, Some(Posix(Folder(f.path))))
  }

  function MethodNodes(fid: string, cls: string, ms: seq<Routine>): seq<Node> {
    if ms == [] then []
    else
      var n := |ms| - 1;
      MethodNodes(fid, cls, ms[..n])
      + [Node(MemberId(fid, Dotted(cls, ms[n].name)), MethodNode, Some(MemberId(fid, cls)))]
  }

  function ClassNodes(fid: string, cs: seq<Class>): seq<Node> {
    if cs == [] then []
    else
      var n := |cs| - 1;
      ClassNodes(fid, cs[..n])
      + [Node(MemberId(fid, cs[n].name), ClassNode, Some(fid))] + MethodNodes(fid, cs[n].name, cs[n].methods)
  }

  function FunctionNodes(fid: string, fs: seq<Routine>): seq<Node> {
    if fs == [] then []
    else
      var n := |fs| - 1;
      FunctionNodes(fid, fs[..n]) + [Node(MemberId(fid, fs[n].name), FunctionNode, Some(fid))]
  }

  function NodesOfFile(f: SourceFile): seq<Node> {
    [FileNodeOf(f)] + ClassNodes(FileId(f), f.classes) + FunctionNodes(FileId(f), f.functions)
  }

  function FileNodes(files: seq<SourceFile>): seq<Node> {
    if files == [] then [] else FileNodes(files[..|files| - 1]) + NodesOfFile(files[|files| - 1])
  }

  function Ids(nodes: seq<Node>): set<string> {
    set n | n in nodes :: n.id
  }

  /** Keep the first node with each id. */
  function Deduped(offered: seq<Node>): (nodes: seq<Node>)
    ensures Ids(nodes) == Ids(offered)
  {
    if offered == [] then []
    else
      var last := offered[|offered| - 1];
      var nodes := Deduped(offered[..|offered| - 1]);
      assert offered == offered[..|offered| - 1] + [last];
      IdsConcat(offered[..|offered| - 1], [last]);
      IdsConcat(nodes, [last]);
      assert Ids([last]) == {last.id};
      if last.id in Ids(nodes) then nodes else nodes + [last]
  }

  // ---- folders -----------------------------------------------------------

  /** The folders above the files, from the root down. */
  predicate IsFolder(files: seq<SourceFile>, d: Path) {
    exists i :: 0 <= i < |files| && 1 <= |d| < |files[i].path| && d == files[i].path[..|d|]
  }

  ghost predicate IsFolderOrder(files: seq<SourceFile>, ds: seq<Path>) {
    && (forall d :: d in ds <==> d == [ROOT] || IsFolder(files, d))
    && (forall i, j :: 0 <= i < j < |ds| ==> |ds[i]| <= |ds[j]|)
  }

  // ---- the tree ----------------------------------------------------------

  /** The parent of every node is an earlier node, and only the root has none. */
  ghost predicate IsTree(nodes: seq<Node>) {
    forall i :: 0 <= i < |nodes| ==>
      match nodes[i].parent
      case None => nodes[i].id == ROOT
      case Some(p) => p in Ids(nodes[..i])
  }

  ghost predicate UniqueIds(nodes: seq<Node>) {
    forall i, j :: 0 <= i < j < |nodes| ==> nodes[i].id != nodes[j].id
  }

  lemma {:induction false} DedupedUnique(offered: seq<Node>)
    ensures UniqueIds(Deduped(offered))
  {
    if offered != [] {
      DedupedUnique(offered[..|offered| - 1]);
      var nodes := Deduped(offered[..|offered| - 1]);
      forall i | 0 <= i < |nodes| ensures nodes[i].id in Ids(nodes) {
        assert nodes[i] in nodes;
      }
    }
  }

  lemma TreeSnoc(nodes: seq<Node>, n: Node)
    requires IsTree(nodes)
    requires match n.parent case None => n.id == ROOT case Some(p) => p in Ids(nodes)
    ensures IsTree(nodes + [n])
  {
    var all := nodes + [n];
    forall i | 0 <= i < |all| ensures match all[i].parent case None => all[i].id
        == ROOT case Some(p) => p in Ids(all[..i]) {
      assert all[..i] == nodes[..i];
      if i == |nodes| {
        assert nodes[..i] == nodes;
      }
    }
  }

  lemma {:induction false} DedupedTree(offered: seq<Node>)
    requires IsTree(offered)
    ensures IsTree(Deduped(offered))
  {
    if offered != [] {
      var n := |offered| - 1;
      forall i | 0 <= i < n ensures match offered[..n][i].parent
        case None => offered[..n][i].id == ROOT case Some(p) => p in Ids(offered[..n][..i]) {
        assert offered[..n][..i] == offered[..i];
      }
      DedupedTree(offered[..n]);
      var nodes := Deduped(offered[..n]);
      if offered[n].id !in Ids(nodes) {
        TreeSnoc(nodes, offered[n]);
      }
    }
  }

  function IndexOf(nodes: seq<Node>, id: string): (i: nat)
    requires id in Ids(nodes)
    ensures i < |nodes| && nodes[i].id == id
  {
    if nodes[|nodes| - 1].id == id then |nodes| - 1
    else
      assert nodes == nodes[..|nodes| - 1] + [nodes[|nodes| - 1]];
      IndexOf(nodes[..|nodes| - 1], id)
  }

  /** The end of the chain of parents. */
  function RootOf(nodes: seq<Node>, i: nat): string
    requires IsTree(nodes) && i < |nodes|
    decreases i
  {
    match nodes[i].parent
    case None => nodes[i].id
    case Some(p) => RootOf(nodes, IndexOf(nodes[..i], p))
  }

  /** Every chain of parents ends at the root folder. */
  lemma {:induction false} ChainEndsAtRoot(nodes: seq<Node>, i: nat)
    requires IsTree(nodes) && i < |nodes|
    ensures RootOf(nodes, i) == ROOT
    decreases i
  {
    match nodes[i].parent
    case None =>
    case Some(p) => ChainEndsAtRoot(nodes, IndexOf(nodes[..i], p));
  }

  /** Appending nodes whose parents are among what is already there. */
  ghost predicate Attached(base: set<string>, nodes: seq<Node>) {
    forall i :: 0 <= i < |nodes| ==>
      nodes[i].parent.Some? && (nodes[i].parent.value in base || nodes[i].parent.value in Ids(nodes[..i]))
  }

  lemma IdsConcat(a: seq<Node>, b: seq<Node>)
    ensures Ids(a + b) == Ids(a) + Ids(b)
  {
  }

  lemma AttachedConcat(base: set<string>, a: seq<Node>, b: seq<Node>)
    requires Attached(base, a) && Attached(base + Ids(a), b)
    ensures Attached(base, a + b)
  {
    var all := a + b;
    forall i | 0 <= i < |all| ensures all[i].parent.Some?
      && (all[i].parent.value in base || all[i].parent.value in Ids(all[..i])) {
      if i < |a| {
        assert all[..i] == a[..i];
      } else {
        assert all[..i] == a + b[..i - |a|];
        IdsConcat(a, b[..i - |a|]);
      }
    }
  }

  lemma TreeAttach(nodes: seq<Node>, more: seq<Node>)
    requires IsTree(nodes) && Attached(Ids(nodes), more)
    ensures IsTree(nodes + more)
  {
    var all := nodes + more;
    forall i | 0 <= i < |all| ensures match all[i].parent case None => all[i].id
        == ROOT case Some(p) => p in Ids(all[..i]) {
      if i < |nodes| {
        assert all[..i] == nodes[..i];
      } else {
        assert all[..i] == nodes + more[..i - |nodes|];
        IdsConcat(nodes, more[..i - |nodes|]);
      }
    }
  }

  lemma AttachedOne(base: set<string>, n: Node)
    requires n.parent.Some? && n.parent.value in base
    ensures Attached(base, [n])
  {
  }

  lemma {:induction false} MethodsAttached(base: set<string>, fid: string, cls: string, ms: seq<Routine>)
    requires MemberId(fid, cls) in base
    ensures Attached(base, MethodNodes(fid, cls, ms))
  {
    if ms != [] {
      hide MemberId, Dotted;
      var n := |ms| - 1;
      MethodsAttached(base, fid, cls, ms[..n]);
      var node := Node(MemberId(fid, Dotted(cls, ms[n].name)), MethodNode, Some(MemberId(fid, cls)));
      AttachedOne(base + Ids(MethodNodes(fid, cls, ms[..n])), node);
      AttachedConcat(base, MethodNodes(fid, cls, ms[..n]), [node]);
    }
  }

  lemma {:induction false} ClassesAttached(base: set<string>, fid: string, cs: seq<Class>)
    requires fid in base
    ensures Attached(base, ClassNodes(fid, cs))
  {
    if cs != [] {
      hide MemberId, MethodNodes, Attached, Ids;
      var n := |cs| - 1;
      ClassesAttached(base, fid, cs[..n]);
      var before := ClassNodes(fid, cs[..n]);
      var node := Node(MemberId(fid, cs[n].name), ClassNode, Some(fid));
      AttachedOne(base + Ids(before), node);
      AttachedConcat(base, before, [node]);
      IdsHas(before, node);
      MethodsAttached(base + Ids(before + [node]), fid, cs[n].name, cs[n].methods);
      AttachedConcat(base, before + [node], MethodNodes(fid, cs[n].name, cs[n].methods));
    }
  }

  lemma IdsHas(nodes: seq<Node>, n: Node)
    ensures n.id in Ids(nodes + [n])
  {
    assert n in nodes + [n];
  }

  lemma {:induction false} FunctionsAttached(base: set<string>, fid: string, fs: seq<Routine>)
    requires fid in base
    ensures Attached(base, FunctionNodes(fid, fs))
  {
    if fs != [] {
      hide MemberId;
      var n := |fs| - 1;
      FunctionsAttached(base, fid, fs[..n]);
      var node := Node(MemberId(fid, fs[n].name), FunctionNode, Some(fid));
      AttachedOne(base + Ids(FunctionNodes(fid, fs[..n])), node);
      AttachedConcat(base, FunctionNodes(fid, fs[..n]), [node]);
    }
  }

  lemma FileAttached(base: set<string>, f: SourceFile)
    requires Proper(f) && Posix(Folder(f.path)) in base
    ensures Attached(base, NodesOfFile(f))
  {
    hide Posix, ClassNodes, FunctionNodes, Attached, Ids;
    var node, fid := FileNodeOf(f), FileId(f);
    AttachedOne(base, node);
    IdsHas([], node);
    assert [] + [node] == [node];
    ClassesAttached(base + Ids([node]), fid, f.classes);
    AttachedConcat(base, [node], ClassNodes(fid, f.classes));
    IdsConcat([node], ClassNodes(fid, f.classes));
    FunctionsAttached(base + Ids([node] + ClassNodes(fid, f.classes)), fid, f.functions);
    AttachedConcat(base, [node] + ClassNodes(fid, f.classes), FunctionNodes(fid, f.functions));
  }

  lemma {:induction false} FilesAttached(base: set<string>, files: seq<SourceFile>)
    requires AllProper(files)
    requires forall f :: f in files ==> Posix(Folder(f.path)) in base
    ensures Attached(base, FileNodes(files))
  {
    if files != [] {
      hide NodesOfFile, Proper, Posix;
      var n := |files| - 1;
      FilesAttached(base, files[..n]);
      FileAttached(base + Ids(FileNodes(files[..n])), files[n]);
      AttachedConcat(base, FileNodes(files[..n]), NodesOfFile(files[n]));
    }
  }

  lemma {:induction false} DirIds(ds: seq<Path>)
    ensures |DirNodes(ds)| == |ds| && forall i :: 0 <= i < |ds| ==> DirNodes(ds)[i] == DirNodeOf(ds[i])
    ensures Ids(DirNodes(ds)) == set d | d in ds :: Posix(d)
  {
    if ds != [] {
      hide DirNodeOf;
      var n := |ds| - 1;
      DirIds(ds[..n]);
      assert ds == ds[..n] + [ds[n]];
      DirNodeId(ds[n]);
      IdsConcat(DirNodes(ds[..n]), [DirNodeOf(ds[n])]);
    }
  }

  lemma DirNodeId(d: Path)
    ensures DirNodeOf(d).id == Posix(d)
  {
  }

  lemma ParentFolder(files: seq<SourceFile>, ds: seq<Path>, d: Path)
    requires AllProper(files) && IsFolderOrder(files, ds) && d in ds && d != [ROOT]
    ensures |d| >= 2 && d[..|d| - 1] in ds
  {
    var i :| 0 <= i < |files| && 1 <= |d| < |files[i].path| && d == files[i].path[..|d|];
    assert Proper(files[i]);
    assert |d| == 1 ==> d == [ROOT];
    assert d[..|d| - 1] == files[i].path[..|d| - 1];
    assert IsFolder(files, d[..|d| - 1]);
  }

  lemma FoldersAreATree(files: seq<SourceFile>, ds: seq<Path>)
    requires AllProper(files) && IsFolderOrder(files, ds)
    ensures IsTree(DirNodes(ds))
  {
    DirIds(ds);
    var nodes := DirNodes(ds);
    forall i | 0 <= i < |nodes|
      ensures match nodes[i].parent case None => nodes[i].id == ROOT case Some(p) => p in Ids(nodes[..i]) {
      assert ds[i] in ds;
      if ds[i] != [ROOT] {
        ParentFolder(files, ds, ds[i]);
        var up := ds[i][..|ds[i]| - 1];
        var j :| 0 <= j < |ds| && ds[j] == up;
        assert j < i;
        assert nodes[j] in nodes[..i];
      }
    }
  }

  lemma FileFolder(files: seq<SourceFile>, ds: seq<Path>, f: SourceFile)
    requires AllProper(files) && IsFolderOrder(files, ds) && f in files
    ensures Folder(f.path) in ds
  {
    var i :| 0 <= i < |files| && files[i] == f;
    assert Proper(f);
    assert IsFolder(files, Folder(f.path));
  }

  function Offered(ds: seq<Path>, files: seq<SourceFile>): seq<Node> {
    DirNodes(ds) + FileNodes(files)
  }

  /** The tree of folders, files, classes, methods and functions: unique ids, every parent an earlier
      node, every chain of parents ending at the root. */
  lemma NodesFormATree(files: seq<SourceFile>, ds: seq<Path>)
    requires AllProper(files) && IsFolderOrder(files, ds)
    ensures var nodes := Deduped(Offered(ds, files));
      && UniqueIds(nodes)
      && IsTree(nodes)
      && forall i :: 0 <= i < |nodes| ==> RootOf(nodes, i) == ROOT
  {
    hide IsTree, Deduped, FileNodes;
    FoldersAreATree(files, ds);
    DirIds(ds);
    forall f | f in files ensures Posix(Folder(f.path)) in Ids(DirNodes(ds)) {
      FileFolder(files, ds, f);
    }
    FilesAttached(Ids(DirNodes(ds)), files);
    TreeAttach(DirNodes(ds), FileNodes(files));
    DedupedUnique(Offered(ds, files));
    DedupedTree(Offered(ds, files));
    var nodes := Deduped(Offered(ds, files));
    forall i | 0 <= i < |nodes| ensures RootOf(nodes, i) == ROOT {
      ChainEndsAtRoot(nodes, i);
    }
  }
}
