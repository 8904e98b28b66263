/** What the names of one file are imported as (`docs/scripts/build_arch_graph.py`). A dotted name is the
    sequence of its parts. */
module Imports {
  import opened Basics
  import opened Sorting

  type Dotted = seq<string>

  // ---- relative imports --------------------------------------------------

  /** `level` dots and perhaps a base, in a file of module `current`. */
  function ResolveRelative(current: Dotted, level: nat, base: Option<Dotted>, isPackage: bool): Dotted {
    var trim := if isPackage then level - 1 else level;
    var pkg :=
      if trim >= |current| then []
      else if trim <= 0 then current
      else current[..|current| - trim];
    if base == None then pkg else pkg + base.value
  }

  /** The package a file belongs to: itself when it is one, its parent otherwise. */
  function PackageOf(current: Dotted, isPackage: bool): Dotted {
    if isPackage || current == [] then current else current[..|current| - 1]
  }

  function Parent(pkg: Dotted, n: nat): Dotted {
    if n == 0 || pkg == [] then pkg else Parent(pkg[..|pkg| - 1], n - 1)
  }

  lemma {:induction false} ParentIsPrefix(pkg: Dotted, n: nat)
    ensures Parent(pkg, n) == if n >= |pkg| then [] else pkg[..|pkg| - n]
  {
    if n > 0 && pkg != [] {
      ParentIsPrefix(pkg[..|pkg| - 1], n - 1);
      if n < |pkg| {
        assert pkg[..|pkg| - 1][..|pkg| - n] == pkg[..|pkg| - n];
      }
    }
  }

  /** One dot is the file's package, every further dot its parent; too many dots fall off the top, where only
      the base is left. */
  lemma DotsClimb(current: Dotted, level: nat, base: Option<Dotted>, isPackage: bool)
    requires level >= 1
    ensures ResolveRelative(current, level, base, isPackage)
         == Parent(PackageOf(current, isPackage), level - 1) + if base == None then [] else base.value
  {
    ParentIsPrefix(PackageOf(current, isPackage), level - 1);
    var pkg := PackageOf(current, isPackage);
    if base == None {
      assert Parent(pkg, level - 1) + [] == Parent(pkg, level - 1);
    }
    if !isPackage && level < |current| {
      assert current[..|current| - 1][..|current| - level] == current[..|current| - level];
    }
  }

  /** Whatever shares its first `d` parts with the file's package can be named relatively, and resolves to itself. */
  lemma RelativeNameResolves(current: Dotted, isPackage: bool, target: Dotted, d: nat)
    requires var pkg := PackageOf(current, isPackage);
      d <= |pkg| && d <= |target| && pkg[..d] == target[..d]
    ensures var pkg := PackageOf(current, isPackage);
      ResolveRelative(current, |pkg| - d + 1, Some(target[d..]), isPackage) == target
  {
    var pkg := PackageOf(current, isPackage);
    DotsClimb(current, |pkg| - d + 1, Some(target[d..]), isPackage);
    ParentIsPrefix(pkg, |pkg| - d);
    assert target == target[..d] + target[d..];
  }

  // ---- the bound names ---------------------------------------------------

  datatype Alias = Alias(name: Dotted, asName: Option<string>)

  /** The import statements of a file, in the order they are met. */
  datatype Statement =
    | Plain(names: seq<Alias>)
    | From(level: nat, base: Option<Dotted>, names: seq<Alias>)

  /** A module, or a name inside one. */
  datatype Target = Target(mod: Dotted, name: Option<string>)

  /** Where a file stands: its module, whether it is a package, and the modules of the project. */
  datatype Setting = Setting(current: Dotted, isPackage: bool, modules: set<Dotted>)

  datatype Binding = Binding(name: string, target: Target)

  /** An imported name is an identifier, so an `import` names at least one part and a `from` exactly one. */
  predicate Proper(st: Statement) {
    forall i :: 0 <= i < |st.names| ==> |st.names[i].name| >= 1 && (st.From? ==> |st.names[i].name| == 1)
  }

  predicate IsStar(st: Statement, a: Alias) {
    st.From? && a.name == ["*"]
  }

  /** `import a.b` binds `a`, unless it is renamed; `from m import x` binds a module of the project when there is
      one of that name, and a name inside `m` otherwise. */
  function BindingOf(s: Setting, st: Statement, a: Alias): Binding
    requires a.name != []
  {
    match st
    case Plain(_) =>
      if a.asName == None then Binding(a.name[0], Target([a.name[0]], None))
      else Binding(a.asName.value, Target(a.name, None))
    case From(level, base, _) =>
      var full := if level > 0 then ResolveRelative(s.current, level, base, s.isPackage)
                  else if base == None then [] else base.value;
      Binding(if a.asName == None then a.name[0] else a.asName.value,
              if full + a.name in s.modules then Target(full + a.name, None) else Target(full, Some(a.name[0])))
  }

  function BindingsOf(s: Setting, st: Statement, n: nat): seq<Binding>
    requires Proper(st) && n <= |st.names|
  {
    if n == 0 then []
    else BindingsOf(s, st, n - 1)
         + if IsStar(st, st.names[n - 1]) then [] else [BindingOf(s, st, st.names[n - 1])]
  }

  predicate AllProper(sts: seq<Statement>) {
    forall i :: 0 <= i < |sts| ==> Proper(sts[i])
  }

  function AllBindings(s: Setting, sts: seq<Statement>): seq<Binding>
    requires AllProper(sts)
  {
    if sts == [] then []
    else
      var n := |sts| - 1;
      AllBindings(s, sts[..n]) + BindingsOf(s, sts[n], |sts[n].names|)
  }

  function LastOf(bs: seq<Binding>): (m: map<string, Target>)
    ensures forall name :: name in m <==> exists i :: 0 <= i < |bs| && bs[i].name == name
  {
    if bs == [] then map[]
    else
      var n := |bs| - 1;
      var m := LastOf(bs[..n])[bs[n].name := bs[n].target];
      assert forall name :: name in m ==> exists i :: 0 <= i < |bs| && bs[i].name == name by {
        forall name | name in m ensures exists i :: 0 <= i < |bs| && bs[i].name == name {
          if name == bs[n].name {
            assert bs[n].name == name;
          } else {
            var i :| 0 <= i < |bs[..n]| && bs[..n][i].name == name;
            assert bs[i].name == name;
          }
        }
      }
      assert forall i :: 0 <= i < n ==> bs[..n][i] == bs[i];
      m
  }

  /** The last import of a name decides. */
  lemma {:induction false} LastImportWins(bs: seq<Binding>, i: nat)
    requires i < |bs| && forall j :: i < j < |bs| ==> bs[j].name != bs[i].name
    ensures bs[i].name in LastOf(bs) && LastOf(bs)[bs[i].name] == bs[i].target
  {
    if i < |bs| - 1 {
      LastImportWins(bs[..|bs| - 1], i);
    }
  }

  lemma LastOfSnoc(bs: seq<Binding>, b: Binding)
    ensures LastOf(bs + [b]) == LastOf(bs)[b.name := b.target]
  {
    assert (bs + [b])[..|bs|] == bs;
  }

  /** The dictionary of bound names, with its insertion order. */
  method CollectImports(s: Setting, sts: seq<Statement>) returns (names: seq<string>, bound: map<string, Target>)
    requires AllProper(sts)
    ensures bound == LastOf(AllBindings(s, sts))
    ensures Distinct(names) && forall name :: name in names <==> name in bound
  {
    hide LastOf, BindingOf;
    names, bound := [], map[];
    NothingBound();
    for i := 0 to |sts|
      invariant bound == LastOf(AllBindings(s, sts[..i]))
      invariant Distinct(names) && forall name :: name in names <==> name in bound
    {
      assert sts[..i + 1][..i] == sts[..i];
      var st := sts[i];
      ghost var before := AllBindings(s, sts[..i]);
      assert before + BindingsOf(s, st, 0) == before;
      for j := 0 to |st.names|
        invariant bound == LastOf(before + BindingsOf(s, st, j))
        invariant Distinct(names) && forall name :: name in names <==> name in bound
      {
        if IsStar(st, st.names[j]) {
          assert before + BindingsOf(s, st, j + 1) == before + BindingsOf(s, st, j);
          continue;
        }
        var b := BindingOf(s, st, st.names[j]);
        LastOfSnoc(before + BindingsOf(s, st, j), b);
        assert before + BindingsOf(s, st, j + 1) == before + BindingsOf(s, st, j) + [b];
        if b.name !in bound {
          names := names + [b.name];
        }
        bound := bound[b.name := b.target];
      }
    }
    assert sts[..|sts|] == sts;
  }

  lemma NothingBound()
    ensures LastOf([]) == map[]
  {
  }
}
