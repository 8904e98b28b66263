/** The self-model store and its recursive merges (`krakey/models/self_model.py`). */
module SelfModel {
  import opened Basics

  /** A scalar of the document, or a list: nothing merges into either. */
  datatype Atom = Null | Bool(b: bool) | Number(n: real) | Text(s: string) | List(items: seq<Value>)

  datatype Value = Leaf(atom: Atom) | Dict(fields: Fields)

  type Fields = map<string, Value>

  type Path = seq<string>

  /** The value at a path; the empty path is the whole document. */
  function At(v: Value, path: Path): Option<Value> {
    if path == [] then Some(v)
    else if v.Leaf? || path[0] !in v.fields then None
    else At(v.fields[path[0]], path[1..])
  }

  // ---- deep merge --------------------------------------------------------

  function DeepMerge(base: Fields, delta: Fields): (merged: Fields)
    ensures merged.Keys == base.Keys + delta.Keys
    decreases Dict(delta)
  {
    map k | k in base.Keys + delta.Keys ::
      if k !in delta then base[k]
      else if delta[k].Dict? && k in base && base[k].Dict? then Dict(DeepMerge(base[k].fields, delta[k].fields))
      else delta[k]
  }

  /** Applying the same delta twice is applying it once. */
  lemma {:induction false} MergeIdempotent(base: Fields, delta: Fields)
    ensures DeepMerge(DeepMerge(base, delta), delta) == DeepMerge(base, delta)
    decreases Dict(delta)
  {
    var once := DeepMerge(base, delta);
    forall k | k in delta ensures DeepMerge(once, delta)[k] == once[k] {
      if delta[k].Dict? {
        if k in base && base[k].Dict? {
          MergeIdempotent(base[k].fields, delta[k].fields);
        } else {
          MergeSelf(delta[k].fields);
        }
      }
    }
  }

  lemma {:induction false} MergeSelf(d: Fields)
    ensures DeepMerge(d, d) == d
    decreases Dict(d)
  {
    forall k | k in d ensures DeepMerge(d, d)[k] == d[k] {
      if d[k].Dict? {
        MergeSelf(d[k].fields);
      }
    }
  }

  /** The delta says nothing at `path`: following it inside both documents, one arrives at a key the delta
      does not have. */
  predicate Untouched(base: Fields, delta: Fields, path: Path)
    decreases |path|
  {
    path != []
    && (path[0] !in delta
        || (delta[path[0]].Dict? && path[0] in base && base[path[0]].Dict?
            && Untouched(base[path[0]].fields, delta[path[0]].fields, path[1..])))
  }

  /** Where the delta says nothing the base value stays. */
  lemma {:induction false} MergeKeepsUntouched(base: Fields, delta: Fields, path: Path)
    requires Untouched(base, delta, path)
    ensures At(Dict(DeepMerge(base, delta)), path) == At(Dict(base), path)
    decreases |path|
  {
    if path[0] in delta {
      MergeKeepsUntouched(base[path[0]].fields, delta[path[0]].fields, path[1..]);
    }
  }

  /** Wherever the delta has a leaf, or a dict where the base has none, the delta's value is the result. */
  lemma {:induction false} MergeAppliesDelta(base: Fields, delta: Fields, path: Path)
    requires path != [] && At(Dict(delta), path).Some?
    requires At(Dict(delta), path).value.Leaf? || !At(Dict(base), path).Some? || At(Dict(base), path).value.Leaf?
    ensures At(Dict(DeepMerge(base, delta)), path) == At(Dict(delta), path)
    decreases |path|
  {
    var k := path[0];
    var merged := DeepMerge(base, delta);
    if delta[k].Dict? && k in base && base[k].Dict? {
      if path[1..] != [] {
        MergeAppliesDelta(base[k].fields, delta[k].fields, path[1..]);
      }
    }
    assert k in merged;
  }

  /** `z` has a key wherever `x` has one, at every depth down to which both are dicts. */
  predicate Covers(z: Fields, x: Fields)
    decreases Dict(x)
  {
    forall k :: k in x ==> k in z && (x[k].Dict? && z[k].Dict? ==> Covers(z[k].fields, x[k].fields))
  }

  /** Merging `z` over `x` leaves nothing of `x` exactly when `z` covers it. */
  lemma {:induction false} CoveredVanishes(x: Fields, z: Fields)
    ensures DeepMerge(x, z) == z <==> Covers(z, x)
    decreases Dict(x)
  {
    var merged := DeepMerge(x, z);
    forall k | k in x && k in z && x[k].Dict? && z[k].Dict?
      ensures merged[k] == z[k] <==> Covers(z[k].fields, x[k].fields) {
      CoveredVanishes(x[k].fields, z[k].fields);
    }
    if Covers(z, x) {
      assert merged.Keys == z.Keys;
      forall k | k in z ensures merged[k] == z[k] {
      }
    } else {
      var k :| k in x && !(k in z && (x[k].Dict? && z[k].Dict? ==> Covers(z[k].fields, x[k].fields)));
      assert k in merged;
    }
  }

  /** The one pattern on which merging does not associate, at any depth: a dict, replaced by a leaf,
      replaced by a dict that does not cover the first. */
  predicate Associates(a: Fields, b: Fields, c: Fields)
    decreases Dict(a)
  {
    forall k :: k in a && k in b && k in c && a[k].Dict? && c[k].Dict? ==>
      if b[k].Leaf? then Covers(c[k].fields, a[k].fields)
      else Associates(a[k].fields, b[k].fields, c[k].fields)
  }

  /** Merging associates exactly when that pattern is absent. */
  lemma {:induction false} MergeAssociative(a: Fields, b: Fields, c: Fields)
    ensures DeepMerge(DeepMerge(a, b), c) == DeepMerge(a, DeepMerge(b, c)) <==> Associates(a, b, c)
    decreases Dict(a)
  {
    var left, right := DeepMerge(DeepMerge(a, b), c), DeepMerge(a, DeepMerge(b, c));
    forall k | k in left ensures left[k] == right[k] <==> AssociatesAt(a, b, c, k) {
      if k in a && k in b && k in c && a[k].Dict? && b[k].Dict? && c[k].Dict? {
        MergeAssociative(a[k].fields, b[k].fields, c[k].fields);
      }
      MergeAssociativeAt(a, b, c, k);
    }
    AssociatesPointwise(a, b, c);
    assert left == right <==> forall k :: k in left ==> left[k] == right[k];
  }

  lemma AssociatesPointwise(a: Fields, b: Fields, c: Fields)
    ensures Associates(a, b, c) <==> forall k :: k in a.Keys + b.Keys + c.Keys ==> AssociatesAt(a, b, c, k)
  {
    if forall k :: k in a.Keys + b.Keys + c.Keys ==> AssociatesAt(a, b, c, k) {
      forall k | k in a && k in b && k in c && a[k].Dict? && c[k].Dict?
        ensures if b[k].Leaf? then Covers(c[k].fields, a[k].fields)
                else Associates(a[k].fields, b[k].fields, c[k].fields) {
        assert AssociatesAt(a, b, c, k);
      }
    }
  }

  lemma MergeAssociativeAt(a: Fields, b: Fields, c: Fields, k: string)
    requires k in a || k in b || k in c
    requires k in a && k in b && k in c && a[k].Dict? && b[k].Dict? && c[k].Dict? ==>
      var x, y, z := a[k].fields, b[k].fields, c[k].fields;
      (DeepMerge(DeepMerge(x, y), z) == DeepMerge(x, DeepMerge(y, z)) <==> Associates(x, y, z))
    ensures DeepMerge(DeepMerge(a, b), c)[k] == DeepMerge(a, DeepMerge(b, c))[k] <==> AssociatesAt(a, b, c, k)
  {
    hide Associates, Covers;
    var ab, bc := DeepMerge(a, b), DeepMerge(b, c);
    if k in a && k in c && a[k].Dict? && c[k].Dict? {
      CoveredVanishes(a[k].fields, c[k].fields);
    }
    assert k in ab <==> k in a || k in b;
    assert k in bc <==> k in b || k in c;
  }

  predicate AssociatesAt(a: Fields, b: Fields, c: Fields, k: string) {
    k in a && k in b && k in c && a[k].Dict? && c[k].Dict? ==>
      if b[k].Leaf? then Covers(c[k].fields, a[k].fields)
      else Associates(a[k].fields, b[k].fields, c[k].fields)
  }

  /** An input on which it fails. */
  lemma MergeNotAssociative()
    ensures var a := map["k" := Dict(map["x" := Leaf(Null)])];
      var b := map["k" := Leaf(Null)];
      var c := map["k" := Dict(map[])];
      DeepMerge(DeepMerge(a, b), c) != DeepMerge(a, DeepMerge(b, c))
  {
    var a := map["k" := Dict(map["x" := Leaf(Null)])];
    var b := map["k" := Leaf(Null)];
    var c := map["k" := Dict(map[])];
    assert "x" in a["k"].fields && "x" !in c["k"].fields;
    assert !Associates(a, b, c);
    MergeAssociative(a, b, c);
  }

  // ---- overlaying the defaults -------------------------------------------

  function DefaultSelfModel(): Fields {
    map["identity" := Dict(map["name" := Leaf(Text("")), "persona" := Leaf(Text(""))]),
        "state" := Dict(map["bootstrap_complete" := Leaf(Bool(false))])]
  }

  function MergeDefaults(defaults: Fields, loaded: Fields): (merged: Fields)
    ensures merged.Keys == defaults.Keys
    decreases Dict(defaults)
  {
    map k | k in defaults.Keys ::
      if k !in loaded then defaults[k]
      else if defaults[k].Dict? && loaded[k].Dict? then Dict(MergeDefaults(defaults[k].fields, loaded[k].fields))
      else loaded[k]
  }

  lemma {:induction false} DefaultsOverSelf(d: Fields)
    ensures MergeDefaults(d, d) == d
    decreases Dict(d)
  {
    forall k | k in d ensures MergeDefaults(d, d)[k] == d[k] {
      if d[k].Dict? {
        DefaultsOverSelf(d[k].fields);
      }
    }
  }

  lemma {:induction false} DefaultsIdempotent(d: Fields, loaded: Fields)
    ensures MergeDefaults(d, MergeDefaults(d, loaded)) == MergeDefaults(d, loaded)
    decreases Dict(d)
  {
    var once := MergeDefaults(d, loaded);
    forall k | k in d ensures MergeDefaults(d, once)[k] == once[k] {
      if d[k].Dict? {
        if k !in loaded {
          DefaultsOverSelf(d[k].fields);
        } else if loaded[k].Dict? {
          DefaultsIdempotent(d[k].fields, loaded[k].fields);
        }
      }
    }
  }

  /** Every path of the result is a path of the schema, or runs on inside a loaded dict that sits where
      the schema has a leaf. */
  lemma {:induction false} DefaultsBoundPaths(d: Fields, loaded: Fields, path: Path)
    requires At(Dict(MergeDefaults(d, loaded)), path).Some?
    ensures At(Dict(d), path).Some? || RunsPastLeaf(d, loaded, path)
    decreases Dict(d)
  {
    if path != [] && path[0] in d && path[0] in loaded && d[path[0]].Dict? && loaded[path[0]].Dict? {
      DefaultsBoundPaths(d[path[0]].fields, loaded[path[0]].fields, path[1..]);
    }
  }

  predicate RunsPastLeaf(d: Fields, loaded: Fields, path: Path)
    decreases |path|
  {
    |path| >= 2 && path[0] in d && path[0] in loaded && loaded[path[0]].Dict?
    && (if d[path[0]].Leaf? then At(loaded[path[0]], path[1..]).Some?
        else RunsPastLeaf(d[path[0]].fields, loaded[path[0]].fields, path[1..]))
  }

  /** And every such path is in the result. */
  lemma {:induction false} PastLeafSurvives(d: Fields, loaded: Fields, path: Path)
    requires RunsPastLeaf(d, loaded, path)
    ensures At(Dict(MergeDefaults(d, loaded)), path).Some?
    ensures At(Dict(d), path) == None
    decreases Dict(d)
  {
    if d[path[0]].Dict? {
      PastLeafSurvives(d[path[0]].fields, loaded[path[0]].fields, path[1..]);
    }
  }

  /** No non-empty loaded dict sits where the schema has a leaf. */
  predicate Confined(d: Fields, loaded: Fields)
    decreases Dict(d)
  {
    forall k :: k in d && k in loaded && loaded[k].Dict? ==>
      if d[k].Leaf? then loaded[k].fields == map[] else Confined(d[k].fields, loaded[k].fields)
  }

  lemma {:induction false} ConfinedStopsAtLeaves(d: Fields, loaded: Fields, path: Path)
    requires Confined(d, loaded)
    ensures !RunsPastLeaf(d, loaded, path)
    decreases |path|
  {
    if |path| >= 2 && path[0] in d && path[0] in loaded && loaded[path[0]].Dict? && d[path[0]].Dict? {
      ConfinedStopsAtLeaves(d[path[0]].fields, loaded[path[0]].fields, path[1..]);
    }
  }

  lemma {:induction false} UnconfinedRunsPast(d: Fields, loaded: Fields) returns (path: Path)
    requires !Confined(d, loaded)
    ensures RunsPastLeaf(d, loaded, path)
    decreases Dict(d)
  {
    var k :| k in d && k in loaded && loaded[k].Dict?
      && if d[k].Leaf? then loaded[k].fields != map[] else !Confined(d[k].fields, loaded[k].fields);
    if d[k].Leaf? {
      var j :| j in loaded[k].fields;
      path := [k, j];
      assert path[1..] == [j] && [j][1..] == [];
    } else {
      var rest := UnconfinedRunsPast(d[k].fields, loaded[k].fields);
      path := [k] + rest;
      assert path[1..] == rest;
    }
  }

  /** The cleaned document keeps to the schema's paths exactly when no non-empty loaded dict sits at a
      schema leaf. */
  lemma SchemaKeptIffConfined(d: Fields, loaded: Fields)
    ensures (forall path :: At(Dict(MergeDefaults(d, loaded)), path).Some? ==> At(Dict(d), path).Some?)
        <==> Confined(d, loaded)
  {
    if Confined(d, loaded) {
      forall path | At(Dict(MergeDefaults(d, loaded)), path).Some? ensures At(Dict(d), path).Some? {
        DefaultsBoundPaths(d, loaded, path);
        ConfinedStopsAtLeaves(d, loaded, path);
      }
    } else {
      var path := UnconfinedRunsPast(d, loaded);
      PastLeafSurvives(d, loaded, path);
    }
  }

  /** A document on which it is not kept. */
  lemma SchemaEscapes()
    ensures var loaded := map["identity" := Dict(map["name" := Dict(map["first" := Leaf(Text("K"))])])];
      var path := ["identity", "name", "first"];
      && At(Dict(MergeDefaults(DefaultSelfModel(), loaded)), path) == Some(Leaf(Text("K")))
      && At(Dict(DefaultSelfModel()), path) == None
  {
    var name := Dict(map["first" := Leaf(Text("K"))]);
    var loaded := map["identity" := Dict(map["name" := name])];
    var path := ["identity", "name", "first"];
    var d := DefaultSelfModel();
    assert path[1..] == ["name", "first"] && path[1..][1..] == ["first"] && ["first"][1..] == [];
    assert "identity" in d && "name" in d["identity"].fields;
    var merged := MergeDefaults(d, loaded);
    assert "identity" in merged && merged["identity"].Dict?;
    assert "name" in merged["identity"].fields && merged["identity"].fields["name"] == name;
    assert At(name, ["first"]) == Some(Leaf(Text("K")));
    assert At(merged["identity"], ["name", "first"]) == At(name, ["first"]);
  }

  // ---- the store ---------------------------------------------------------

  predicate Truthy(v: Value) {
    match v
    case Leaf(Null) => false
    case Leaf(Bool(b)) => b
    case Leaf(Number(n)) => n != 0.0
    case Leaf(Text(s)) => s != ""
    case Leaf(List(items)) => items != []
    case Dict(fields) => fields != map[]
  }

  /** What reading a file that is there gives: a falsy document reads as the empty mapping. */
  function Read(document: Value): Value {
    if Truthy(document) then document else Dict(map[])
  }

  datatype LoadError = TypeError | AttributeError

  /** The model and whether it is still in bootstrap, or an exception. */
  datatype Loaded = Loaded(model: Fields, isBootstrap: bool) | Raised(error: LoadError)

  predicate Within(part: string, s: string) {
    part <= s || (s != "" && Within(part, s[1..]))
  }

  /** `key in loaded` for a document that is no mapping. */
  predicate HasPart(a: Atom, key: string) {
    match a
    case Text(s) => Within(key, s)
    case List(items) => Leaf(Text(key)) in items
    case _ => false
  }

  /** Cleaning a truthy document that is no mapping: neither a number nor `true` can be asked for a key, and neither a
      text nor a list be indexed with one; with nothing found, listing the dropped keys asks for `items`. */
  function CleaningError(a: Atom): LoadError {
    if a.Bool? || a.Number? || HasPart(a, "identity") || HasPart(a, "state") then TypeError else AttributeError
  }

  function IsBootstrap(state: Fields): bool {
    !("bootstrap_complete" in state && Truthy(state["bootstrap_complete"]))
  }

  /** Loading a file that is there. */
  function LoadResult(document: Value): (r: Loaded) {
    match Read(document)
    case Leaf(a) => Raised(CleaningError(a))
    case Dict(data) =>
      var merged := MergeDefaults(DefaultSelfModel(), data);
      if merged["state"].Leaf? then Raised(AttributeError)
      else Loaded(merged, IsBootstrap(merged["state"].fields))
  }

  /** Loading raises on exactly the truthy documents that are no mapping, and on the mappings whose `state` is there
      and is none. */
  lemma LoadFails(document: Value)
    ensures LoadResult(document).Raised? <==>
              (document.Leaf? && Truthy(document))
              || (document.Dict? && "state" in document.fields && document.fields["state"].Leaf?)
  {
    if Read(document).Dict? {
      StateOfMerged(Read(document).fields);
    }
  }

  lemma StateOfMerged(data: Fields)
    ensures MergeDefaults(DefaultSelfModel(), data)["state"].Leaf? <==> "state" in data && data["state"].Leaf?
  {
    assert "state" in DefaultSelfModel() && DefaultSelfModel()["state"].Dict?;
  }

  /** `None` is a missing file. */
  class SelfModelStore {
    var document: Option<Value>
    ghost var saves: nat

    constructor (document: Option<Value>)
      ensures this.document == document && saves == 0
    {
      this.document, saves := document, 0;
    }

    function Current(): Value
      reads this
    {
      if document == None then Dict(DefaultSelfModel()) else Read(document.value)
    }

    method Load() returns (data: Value)
      ensures data == Current()
    {
      if document == None {
        return Dict(DefaultSelfModel());
      }
      if Truthy(document.value) {
        return document.value;
      }
      return Dict(map[]);
    }

    method Save(data: Value)
      modifies this
      ensures document == Some(data) && saves == old(saves) + 1
    {
      document, saves := Some(data), saves + 1;
    }

    /** `None` is an exception: nothing but the empty delta merges into a document that is no mapping. */
    method Update(delta: Fields) returns (merged: Option<Value>)
      modifies this
      ensures merged == None <==> old(Current()).Leaf? && delta != map[]
      ensures merged == None ==> document == old(document) && saves == old(saves)
      ensures merged.Some? ==> document == merged && saves == old(saves) + 1
      ensures merged.Some? ==>
                merged.value == if old(Current()).Dict? then Dict(DeepMerge(old(Current()).fields, delta))
                                else old(Current())
    {
      var current := Load();
      match current {
        case Leaf(_) =>
          if delta != map[] {
            return None;
          }
          merged := Some(current);
        case Dict(fields) =>
          merged := Some(Dict(DeepMerge(fields, delta)));
      }
      Save(merged.value);
    }

    /** A missing file is not created; a file that differs from its cleaned form is rewritten, once: the
        second load of the same file never writes. */
    method LoadSelfModelOrDefault() returns (r: Loaded)
      modifies this
      ensures old(document) == None ==>
                r == Loaded(DefaultSelfModel(), true) && document == None && saves == old(saves)
      ensures old(document).Some? ==> r == LoadResult(old(document).value)
      ensures r.Raised? ==> document == old(document) && saves == old(saves)
      ensures old(document).Some? && r.Loaded? ==> document == Some(Dict(r.model))
      ensures old(document).Some? && r.Loaded? ==>
                saves == old(saves) + if Dict(r.model) == old(Current()) then 0 else 1
      ensures r.Loaded? ==> MergeDefaults(DefaultSelfModel(), r.model) == r.model
    {
      if document == None {
        DefaultsOverSelf(DefaultSelfModel());
        return Loaded(DefaultSelfModel(), true);
      }
      var loaded := Load();
      match loaded {
        case Leaf(a) =>
          return Raised(CleaningError(a));
        case Dict(data) =>
          var merged := MergeDefaults(DefaultSelfModel(), data);
          DefaultsIdempotent(DefaultSelfModel(), data);
          var state := merged["state"];
          if state.Leaf? {
            return Raised(AttributeError);
          }
          if merged != data {
            Save(Dict(merged));
          }
          return Loaded(merged, IsBootstrap(state.fields));
      }
    }
  }

  /** Two loads in a row write at most once, and the second returns what the first did. */
  method LoadTwice(store: SelfModelStore) returns (first: Loaded, second: Loaded)
    modifies store
    ensures first == second
    ensures store.saves <= old(store.saves) + 1
  {
    first := store.LoadSelfModelOrDefault();
    second := store.LoadSelfModelOrDefault();
  }
}
