/** The MemOS recall session (`krakey/engines/recall/memos.py`). */
module Recall {
  import opened Basics
  import opened Sorting
  import opened Stimuli

  /** Identifiers of memory nodes; only their equality matters. */
  type NodeId = nat

  datatype Node = Node(id: Option<NodeId>, name: string, category: string, description: string)

  /** One stimulus with what the memory search returned for it. */
  datatype Query = Query(stimulus: Stimulus, results: seq<Node>)

  datatype RecallResult = RecallResult(nodes: seq<Node>, covered: seq<Stimulus>, uncovered: seq<Stimulus>)

  /** The memory search with the session's `top_k`, for one state of the memory. */
  type Search = string -> seq<Node>

  /** The memory over time: what search number `i` finds. */
  type Memory = nat -> Search

  type Cost = Node -> nat

  /** The query for `s`, answered as search number `i`. */
  function Asked(memory: Memory, i: nat, s: Stimulus): Query {
    Query(s, memory(i)(s.content))
  }

  /** One search for each stimulus, the first of them search number `from`. */
  function Queried(memory: Memory, from: nat, stimuli: seq<Stimulus>): seq<Query> {
    if stimuli == [] then []
    else
      var n := |stimuli| - 1;
      Queried(memory, from, stimuli[..n]) + [Asked(memory, from + n, stimuli[n])]
  }

  /** All returned nodes that have an id, in order of return. */
  function Identified(nodes: seq<Node>): seq<Node> {
    if nodes == [] then []
    else
      var n := |nodes| - 1;
      Identified(nodes[..n]) + (if nodes[n].id == None then [] else [nodes[n]])
  }

  function Hits(queries: seq<Query>): seq<Node> {
    if queries == [] then []
    else
      var n := |queries| - 1;
      Hits(queries[..n]) + Identified(queries[n].results)
  }

  lemma {:induction false} IdentifiedHaveIds(nodes: seq<Node>)
    ensures forall n :: n in Identified(nodes) ==> n.id.Some?
  {
    if nodes != [] {
      IdentifiedHaveIds(nodes[..|nodes| - 1]);
    }
  }

  lemma {:induction false} HitsHaveIds(queries: seq<Query>)
    ensures AllIdentified(Hits(queries))
  {
    if queries != [] {
      HitsHaveIds(queries[..|queries| - 1]);
      IdentifiedHaveIds(queries[|queries| - 1].results);
    }
  }

  predicate AllIdentified(hits: seq<Node>) {
    forall n :: n in hits ==> n.id.Some?
  }

  // ---- ranking -----------------------------------------------------------

  function Frequency(hits: seq<Node>, id: NodeId): nat {
    if hits == [] then 0
    else
      var n := |hits| - 1;
      Frequency(hits[..n], id) + if hits[n].id == Some(id) then 1 else 0
  }

  predicate Found(hits: seq<Node>, id: NodeId) {
    exists i :: 0 <= i < |hits| && hits[i].id == Some(id)
  }

  /** Position of the first hit with this id. */
  function FirstAt(hits: seq<Node>, id: NodeId): (i: nat)
    requires Found(hits, id)
    ensures i < |hits| && hits[i].id == Some(id)
    ensures forall j :: 0 <= j < i ==> hits[j].id != Some(id)
  {
    if hits[0].id == Some(id) then 0
    else
      assert exists i :: 0 <= i < |hits[1..]| && hits[1..][i].id == Some(id) by {
        var i :| 0 <= i < |hits| && hits[i].id == Some(id);
        assert hits[1..][i - 1].id == Some(id);
      }
      1 + FirstAt(hits[1..], id)
  }

  /** `a` ranks at least as high as `b`: more hits, or as many and seen first. */
  predicate RanksBefore(hits: seq<Node>, a: NodeId, b: NodeId) {
    Frequency(hits, a) > Frequency(hits, b)
    || (Frequency(hits, a) == Frequency(hits, b)
        && Found(hits, a) && Found(hits, b) && FirstAt(hits, a) <= FirstAt(hits, b))
  }

  /** `order` lists every id found, once, in rank order. */
  ghost predicate IsRanking(hits: seq<Node>, order: seq<NodeId>) {
    && (forall id :: id in order <==> Found(hits, id))
    && Distinct(order)
    && (forall i, j :: 0 <= i < j < |order| ==> RanksBefore(hits, order[i], order[j]))
  }

  lemma RankingStrict(hits: seq<Node>, a: NodeId, b: NodeId)
    requires RanksBefore(hits, a, b) && RanksBefore(hits, b, a)
    ensures a == b
  {
    var i, j := FirstAt(hits, a), FirstAt(hits, b);
    assert i == j && hits[i].id == Some(a) && hits[j].id == Some(b);
  }

  /** There is only one ranking, whatever sort produced it. */
  lemma RankingUnique(hits: seq<Node>, xs: seq<NodeId>, ys: seq<NodeId>)
    requires IsRanking(hits, xs) && IsRanking(hits, ys)
    ensures xs == ys
  {
    var le := (a: NodeId, b: NodeId) => RanksBefore(hits, a, b);
    SameDistinctMembers(xs, ys);
    forall a, b | a in xs && b in xs && le(a, b) && le(b, a) ensures a == b {
      RankingStrict(hits, a, b);
    }
    SortedUnique(le, xs, ys);
  }

  // ---- the budget --------------------------------------------------------

  function TotalCost(cost: Cost, nodes: seq<Node>): nat {
    if nodes == [] then 0 else TotalCost(cost, nodes[..|nodes| - 1]) + cost(nodes[|nodes| - 1])
  }

  /** The first `m` candidates may be admitted: they fit the budget, or there is just one of them. */
  predicate Admissible(cost: Cost, budget: int, nodes: seq<Node>, m: nat)
    requires m <= |nodes|
  {
    m <= 1 || TotalCost(cost, nodes[..m]) <= budget
  }

  /** `m` is the longest admissible prefix. */
  ghost predicate IsAdmission(cost: Cost, budget: int, nodes: seq<Node>, m: nat) {
    && m <= |nodes|
    && Admissible(cost, budget, nodes, m)
    && forall j :: m < j <= |nodes| ==> !Admissible(cost, budget, nodes, j)
  }

  lemma {:induction false} CostGrows(cost: Cost, nodes: seq<Node>, i: nat, j: nat)
    requires i <= j <= |nodes|
    ensures TotalCost(cost, nodes[..i]) <= TotalCost(cost, nodes[..j])
  {
    if i < j {
      CostGrows(cost, nodes, i, j - 1);
      assert nodes[..j][..j - 1] == nodes[..j - 1];
    }
  }

  method Admit(cost: Cost, budget: int, candidates: seq<Node>) returns (admitted: seq<Node>)
    ensures |admitted| <= |candidates| && admitted == candidates[..|admitted|]
    ensures IsAdmission(cost, budget, candidates, |admitted|)
    ensures candidates != [] ==> admitted != []
  {
    admitted := [];
    var cumulative := 0;
    for i := 0 to |candidates|
      invariant admitted == candidates[..i] && cumulative == TotalCost(cost, candidates[..i])
      invariant Admissible(cost, budget, candidates, i)
    {
      var c := cost(candidates[i]);
      assert candidates[..i + 1][..i] == candidates[..i];
      if admitted == [] || cumulative + c <= budget {
        admitted := admitted + [candidates[i]];
        cumulative := cumulative + c;
      } else {
        forall j | i < j <= |candidates| ensures !Admissible(cost, budget, candidates, j) {
          CostGrows(cost, candidates, i + 1, j);
        }
        break;
      }
    }
  }

  // ---- coverage ----------------------------------------------------------

  function Covered(queries: seq<Query>, withResults: bool): seq<Stimulus> {
    if queries == [] then []
    else
      var n := |queries| - 1;
      Covered(queries[..n], withResults)
      + if (queries[n].results != []) == withResults then [queries[n].stimulus] else []
  }

  function Subjects(queries: seq<Query>): seq<Stimulus> {
    if queries == [] then [] else Subjects(queries[..|queries| - 1]) + [queries[|queries| - 1].stimulus]
  }

  /** The two coverage lists split the stimuli: together they hold each of them once. */
  lemma {:induction false} CoveragePartitions(queries: seq<Query>)
    ensures multiset(Covered(queries, true)) + multiset(Covered(queries, false)) == multiset(Subjects(queries))
  {
    if queries != [] {
      CoveragePartitions(queries[..|queries| - 1]);
    }
  }

  lemma {:induction false} SubjectsAppend(a: seq<Query>, b: seq<Query>)
    ensures Subjects(a + b) == Subjects(a) + Subjects(b)
  {
    if b == [] {
      assert a + b == a;
    } else {
      var n := |b| - 1;
      SubjectsAppend(a, b[..n]);
      assert (a + b)[..|a + b| - 1] == a + b[..n];
    }
  }

  lemma {:induction false} SubjectsQueried(memory: Memory, from: nat, stimuli: seq<Stimulus>)
    ensures Subjects(Queried(memory, from, stimuli)) == stimuli
  {
    if stimuli != [] {
      SubjectsQueried(memory, from, stimuli[..|stimuli| - 1]);
    }
  }

  /** Some search for `s` came back empty. */
  predicate NothingFound(queries: seq<Query>, s: Stimulus) {
    exists i :: 0 <= i < |queries| && queries[i].stimulus == s && queries[i].results == []
  }

  lemma {:induction false} UncoveredMeaning(queries: seq<Query>, s: Stimulus)
    ensures s in Covered(queries, false) <==> NothingFound(queries, s)
  {
    if queries != [] {
      var n := |queries| - 1;
      UncoveredMeaning(queries[..n], s);
      if NothingFound(queries[..n], s) {
        var i :| 0 <= i < n && queries[..n][i].stimulus == s && queries[..n][i].results == [];
        assert queries[i].stimulus == s;
      }
      if NothingFound(queries, s) {
        var i :| 0 <= i < |queries| && queries[i].stimulus == s && queries[i].results == [];
        assert i < n ==> queries[..n][i] == queries[i];
      }
    }
  }

  lemma {:induction false} CoveredAreSubjects(queries: seq<Query>, withResults: bool)
    ensures forall s :: s in Covered(queries, withResults) ==> s in Subjects(queries)
  {
    if queries != [] {
      CoveredAreSubjects(queries[..|queries| - 1], withResults);
    }
  }

  // ---- the result as a relation ------------------------------------------

  function NodesOf(hits: seq<Node>, order: seq<NodeId>): (nodes: seq<Node>)
    requires forall id :: id in order ==> Found(hits, id)
    ensures |nodes| == |order|
  {
    seq(|order|, i requires 0 <= i < |order| => hits[FirstAt(hits, order[i])])
  }

  /** What `finalize` must return: for each id its first node, ranked, cut to the longest prefix the
      budget admits, and the stimuli split in order by whether anything was found for them. */
  ghost predicate IsResult(cost: Cost, budget: int, queries: seq<Query>, r: RecallResult) {
    var hits := Hits(queries);
    && r.covered == Covered(queries, true)
    && r.uncovered == Covered(queries, false)
    && exists order ::
         && IsRanking(hits, order)
         && IsAdmission(cost, budget, NodesOf(hits, order), |r.nodes|)
         && r.nodes == NodesOf(hits, order)[..|r.nodes|]
  }

  lemma AdmissionUnique(cost: Cost, budget: int, nodes: seq<Node>, m: nat, n: nat)
    requires IsAdmission(cost, budget, nodes, m) && IsAdmission(cost, budget, nodes, n)
    ensures m == n
  {
  }

  /** The result is a function of the queries. */
  lemma ResultUnique(cost: Cost, budget: int, queries: seq<Query>, r: RecallResult, q: RecallResult)
    requires IsResult(cost, budget, queries, r) && IsResult(cost, budget, queries, q)
    ensures r == q
  {
    var hits := Hits(queries);
    var a :| IsRanking(hits, a) && IsAdmission(cost, budget, NodesOf(hits, a), |r.nodes|)
      && r.nodes == NodesOf(hits, a)[..|r.nodes|];
    var b :| IsRanking(hits, b) && IsAdmission(cost, budget, NodesOf(hits, b), |q.nodes|)
      && q.nodes == NodesOf(hits, b)[..|q.nodes|];
    RankingUnique(hits, a, b);
    AdmissionUnique(cost, budget, NodesOf(hits, a), |r.nodes|, |q.nodes|);
  }

  // ---- batching ----------------------------------------------------------

  lemma LastOfJoined(a: seq<Stimulus>, b: seq<Stimulus>, n: nat)
    requires |b| == n + 1
    ensures (a + b)[..|a| + n] == a + b[..n] && (a + b)[|a| + n] == b[n] && |a + b| == |a| + n + 1
  {
  }

  lemma QueriedUnfold(memory: Memory, from: nat, stimuli: seq<Stimulus>, n: nat, k: nat)
    requires |stimuli| == n + 1 && k == from + n
    ensures Queried(memory, from, stimuli) == Queried(memory, from, stimuli[..n]) + [Asked(memory, k, stimuli[n])]
  {
  }

  lemma {:induction false} QueriedAppend(memory: Memory, from: nat, a: seq<Stimulus>, b: seq<Stimulus>)
    ensures Queried(memory, from, a + b) == Queried(memory, from, a) + Queried(memory, from + |a|, b)
  {
    if b == [] {
      assert a + b == a;
    } else {
      hide Queried, Asked;
      var n := |b| - 1;
      var k := from + |a| + n;
      QueriedAppend(memory, from, a, b[..n]);
      LastOfJoined(a, b, n);
      QueriedUnfold(memory, from, a + b, |a| + n, k);
      QueriedUnfold(memory, from + |a|, b, n, k);
      assert Queried(memory, from, a + b)
          == Queried(memory, from, a) + Queried(memory, from + |a|, b[..n]) + [Asked(memory, k, b[n])];
    }
  }

  function Joined(batches: seq<seq<Stimulus>>): seq<Stimulus>
    decreases |batches|
  {
    if batches == [] then [] else batches[0] + Joined(batches[1..])
  }

  /** The queries of a session fed batch by batch. */
  function Fed(memory: Memory, from: nat, queries: seq<Query>, batches: seq<seq<Stimulus>>): seq<Query>
    decreases |batches|
  {
    if batches == [] then queries
    else Fed(memory, from + |batches[0]|, queries + Queried(memory, from, batches[0]), batches[1..])
  }

  /** Feeding a session in any batches gives the queries of feeding it all at once. */
  lemma {:induction false} BatchingIrrelevant(memory: Memory, from: nat, queries: seq<Query>,
                                              batches: seq<seq<Stimulus>>)
    ensures Fed(memory, from, queries, batches) == queries + Queried(memory, from, Joined(batches))
    decreases |batches|
  {
    if batches != [] {
      var more, rest := Queried(memory, from, batches[0]), from + |batches[0]|;
      BatchingIrrelevant(memory, rest, queries + more, batches[1..]);
      QueriedAppend(memory, from, batches[0], Joined(batches[1..]));
      assert queries + more + Queried(memory, rest, Joined(batches[1..]))
        == queries + (more + Queried(memory, rest, Joined(batches[1..])));
    }
  }

  /** Two sessions whose searches see the same memory, fed the same stimuli in the same order but batched
      differently, finalize to the same result. */
  lemma SameResultHoweverBatched(memory: Memory, from: nat, cost: Cost, budget: int,
                                 a: seq<seq<Stimulus>>, b: seq<seq<Stimulus>>, r: RecallResult, q: RecallResult)
    requires Joined(a) == Joined(b)
    requires IsResult(cost, budget, Fed(memory, from, [], a), r)
    requires IsResult(cost, budget, Fed(memory, from, [], b), q)
    ensures r == q
  {
    BatchingIrrelevant(memory, from, [], a);
    BatchingIrrelevant(memory, from, [], b);
    ResultUnique(cost, budget, Fed(memory, from, [], a), r, q);
  }

  // ---- the source's session ----------------------------------------------

  class RecallSession {
    const cost: Cost
    const budget: int
    var queries: seq<Query>
    var processed: seq<Stimulus>

    constructor (cost: Cost, budget: int)
      ensures this.cost == cost && this.budget == budget
      ensures queries == [] && processed == []
    {
      this.cost, this.budget := cost, budget;
      queries, processed := [], [];
    }

    /** A search for each stimulus in turn, the first of them search number `from`. */
    method AddStimuli(memory: Memory, from: nat, stimuli: seq<Stimulus>)
      modifies this
      ensures queries == old(queries) + Queried(memory, from, stimuli)
      ensures processed == old(processed) + stimuli
    {
      for i := 0 to |stimuli|
        invariant queries == old(queries) + Queried(memory, from, stimuli[..i])
        invariant processed == old(processed) + stimuli[..i]
      {
        assert stimuli[..i + 1][..i] == stimuli[..i];
        var results := memory(from + i)(stimuli[i].content);
        queries := queries + [Query(stimuli[i], results)];
        processed := processed + [stimuli[i]];
      }
      assert stimuli[..|stimuli|] == stimuli;
    }

    method Merge() returns (keys: seq<NodeId>, merged: map<NodeId, Node>, freq: map<NodeId, nat>,
                            firstSeen: map<NodeId, nat>)
      ensures Merged(Hits(queries), keys, merged, freq, firstSeen)
    {
      hide Merged, Identified;
      keys, merged, freq, firstSeen := [], map[], map[], map[];
      MergedNothing();
      for i := 0 to |queries|
        invariant Merged(Hits(queries[..i]), keys, merged, freq, firstSeen)
      {
        assert queries[..i + 1][..i] == queries[..i];
        ghost var before := Hits(queries[..i]);
        var results := queries[i].results;
        IdentifiedNothing();
        assert before + Identified(results[..0]) == before;
        for j := 0 to |results|
          invariant Merged(before + Identified(results[..j]), keys, merged, freq, firstSeen)
        {
          var node := results[j];
          IdentifiedStep(results, j);
          if node.id == None {
            continue;
          }
          var id := node.id.value;
          ghost var hits := before + Identified(results[..j]);
          MergedStep(hits, keys, merged, freq, firstSeen, node);
          assert before + Identified(results[..j + 1]) == hits + [node];
          if id !in merged {
            merged := merged[id := node];
            firstSeen := firstSeen[id := |keys|];
            keys := keys + [id];
          }
          freq := freq[id := if id in freq then freq[id] + 1 else 1];
        }
        assert results[..|results|] == results;
      }
      assert queries[..|queries|] == queries;
    }

    method Finalize() returns (r: RecallResult)
      ensures IsResult(cost, budget, queries, r)
    {
      hide Hits, Found, FirstAt, Frequency, RanksBefore, KeyAtMost;
      var keys, merged, freq, firstSeen := Merge();
      var le := (a: NodeId, b: NodeId) => KeyAtMost(freq, firstSeen, a, b);
      var order := SortBy(le, keys);
      SortedKeysAreRanked(Hits(queries), keys, merged, freq, firstSeen, le);
      var candidates := seq(|order|, i requires 0 <= i < |order| =>
        if order[i] in merged then merged[order[i]] else Node(None, "", "", ""));
      assert candidates == NodesOf(Hits(queries), order);
      var admitted := Admit(cost, budget, candidates);
      var covered, uncovered := Partition();
      r := RecallResult(admitted, covered, uncovered);
    }

    method Partition() returns (covered: seq<Stimulus>, uncovered: seq<Stimulus>)
      ensures covered == Covered(queries, true) && uncovered == Covered(queries, false)
    {
      covered, uncovered := [], [];
      for i := 0 to |queries|
        invariant covered == Covered(queries[..i], true) && uncovered == Covered(queries[..i], false)
      {
        assert queries[..i + 1][..i] == queries[..i];
        if queries[i].results != [] {
          covered := covered + [queries[i].stimulus];
        } else {
          uncovered := uncovered + [queries[i].stimulus];
        }
      }
      assert queries[..|queries|] == queries;
    }
  }

  /** The sort key `(-freq, first_seen)`. */
  predicate KeyAtMost(freq: map<NodeId, nat>, firstSeen: map<NodeId, nat>, a: NodeId, b: NodeId) {
    a in freq && b in freq && a in firstSeen && b in firstSeen
    && (freq[a] > freq[b] || (freq[a] == freq[b] && firstSeen[a] <= firstSeen[b]))
  }

  /** The three dictionaries after reading `hits`; `keys` is their insertion order. */
  ghost predicate Merged(hits: seq<Node>, keys: seq<NodeId>, merged: map<NodeId, Node>, freq: map<NodeId, nat>,
                         firstSeen: map<NodeId, nat>) {
    && (forall id :: id in keys <==> id in merged)
    && merged.Keys == freq.Keys == firstSeen.Keys
    && (forall id :: id in merged <==> Found(hits, id))
    && (forall id :: id in merged ==> merged[id] == hits[FirstAt(hits, id)])
    && (forall id :: id in freq ==> freq[id] == Frequency(hits, id))
    && (forall id :: id in firstSeen ==> firstSeen[id] < |keys|)
    && SameOrder(hits, firstSeen)
    && Distinct(keys)
  }

  ghost predicate SameOrder(hits: seq<Node>, firstSeen: map<NodeId, nat>)
    requires forall id :: id in firstSeen ==> Found(hits, id)
  {
    forall a, b :: a in firstSeen && b in firstSeen ==>
      (firstSeen[a] <= firstSeen[b] <==> FirstAt(hits, a) <= FirstAt(hits, b))
  }

  lemma SameOrderGrows(hits: seq<Node>, firstSeen: map<NodeId, nat>, node: Node, bound: nat)
    requires node.id.Some?
    requires forall id :: id in firstSeen ==> Found(hits, id) && firstSeen[id] < bound
    requires SameOrder(hits, firstSeen)
    ensures forall id :: id in firstSeen ==> Found(hits + [node], id)
    ensures SameOrder(hits + [node], firstSeen)
    ensures !Found(hits, node.id.value) ==>
              Found(hits + [node], node.id.value) && SameOrder(hits + [node], firstSeen[node.id.value := bound])
  {
    hide Found, FirstAt, Frequency;
    FoundGrows(hits, node);
  }

  lemma MergedNothing()
    ensures Merged(Hits([]), [], map[], map[], map[])
  {
  }

  lemma IdentifiedNothing()
    ensures Identified([]) == []
  {
  }

  lemma IdentifiedStep(nodes: seq<Node>, j: nat)
    requires j < |nodes|
    ensures Identified(nodes[..j + 1])
         == Identified(nodes[..j]) + (if nodes[j].id == None then [] else [nodes[j]])
    ensures nodes[j].id == None ==> Identified(nodes[..j + 1]) == Identified(nodes[..j])
  {
    assert nodes[..j + 1][..j] == nodes[..j];
  }

  lemma FoundGrows(hits: seq<Node>, node: Node)
    requires node.id.Some?
    ensures forall id: NodeId :: Found(hits + [node], id) <==> Found(hits, id) || id == node.id.value
    ensures forall id: NodeId :: Found(hits, id) ==> FirstAt(hits + [node], id) == FirstAt(hits, id)
    ensures !Found(hits, node.id.value) ==> FirstAt(hits + [node], node.id.value) == |hits|
    ensures forall id: NodeId ::
              Frequency(hits + [node], id) == Frequency(hits, id) + if id == node.id.value then 1 else 0
  {
    var all := hits + [node];
    assert all[|hits|] == node;
    assert all[..|hits|] == hits;
    forall id: NodeId | Found(hits, id) ensures Found(all, id) && FirstAt(all, id) == FirstAt(hits, id) {
      var i := FirstAt(hits, id);
      assert all[i].id == Some(id);
      var j := FirstAt(all, id);
      assert j < |hits| ==> hits[j].id == Some(id);
    }
    forall id: NodeId | Found(all, id) ensures Found(hits, id) || id == node.id.value {
      var i := FirstAt(all, id);
      assert i < |hits| ==> hits[i].id == Some(id);
    }
  }

  lemma {:induction false} FrequencyZero(hits: seq<Node>, id: NodeId)
    requires !Found(hits, id)
    ensures Frequency(hits, id) == 0
  {
    if hits != [] {
      var n := |hits| - 1;
      assert hits[n].id != Some(id);
      forall i | 0 <= i < n ensures hits[..n][i].id != Some(id) {
        assert hits[i].id != Some(id);
      }
      FrequencyZero(hits[..n], id);
    }
  }

  lemma MergedStep(hits: seq<Node>, keys: seq<NodeId>, merged: map<NodeId, Node>, freq: map<NodeId, nat>,
                   firstSeen: map<NodeId, nat>, node: Node)
    requires Merged(hits, keys, merged, freq, firstSeen) && node.id.Some?
    ensures var id := node.id.value;
      var isNew := id !in merged;
      Merged(hits + [node],
             if isNew then keys + [id] else keys,
             if isNew then merged[id := node] else merged,
             freq[id := if id in freq then freq[id] + 1 else 1],
             if isNew then firstSeen[id := |keys|] else firstSeen)
  {
    if node.id.value in merged {
      MergedKnown(hits, keys, merged, freq, firstSeen, node);
    } else {
      MergedNew(hits, keys, merged, freq, firstSeen, node);
    }
  }

  lemma MergedKnown(hits: seq<Node>, keys: seq<NodeId>, merged: map<NodeId, Node>, freq: map<NodeId, nat>,
                    firstSeen: map<NodeId, nat>, node: Node)
    requires Merged(hits, keys, merged, freq, firstSeen) && node.id.Some? && node.id.value in merged
    ensures var id := node.id.value;
      id in freq && Merged(hits + [node], keys, merged, freq[id := freq[id] + 1], firstSeen)
  {
    hide Found, FirstAt, Frequency, Distinct, SameOrder;
    FoundGrows(hits, node);
    SameOrderGrows(hits, firstSeen, node, |keys|);
  }

  lemma MergedNew(hits: seq<Node>, keys: seq<NodeId>, merged: map<NodeId, Node>, freq: map<NodeId, nat>,
                  firstSeen: map<NodeId, nat>, node: Node)
    requires Merged(hits, keys, merged, freq, firstSeen) && node.id.Some? && node.id.value !in merged
    ensures var id := node.id.value;
      && id !in freq
      && Merged(hits + [node], keys + [id], merged[id := node], freq[id := 1], firstSeen[id := |keys|])
  {
    hide Found, FirstAt, Frequency, Distinct, SameOrder;
    var id := node.id.value;
    FoundGrows(hits, node);
    SameOrderGrows(hits, firstSeen, node, |keys|);
    FrequencyZero(hits, id);
    DistinctSnoc(keys, id);
    assert forall other :: other in merged ==> FirstAt(hits + [node], other) < |hits|;
    assert (hits + [node])[FirstAt(hits + [node], id)] == node;
  }

  lemma SortedKeysAreRanked(hits: seq<Node>, keys: seq<NodeId>, merged: map<NodeId, Node>, freq: map<NodeId, nat>,
                            firstSeen: map<NodeId, nat>, le: (NodeId, NodeId) -> bool)
    requires Merged(hits, keys, merged, freq, firstSeen)
    requires forall a, b :: le(a, b) == KeyAtMost(freq, firstSeen, a, b)
    ensures IsRanking(hits, SortBy(le, keys))
  {
    hide Found, FirstAt, Frequency, Distinct, RanksBefore, SortBy, KeyAtMost;
    var order := SortBy(le, keys);
    assert SortedBy(le, order) by {
      KeysOrdered(keys, freq, firstSeen, le);
      SortBySorted(le, keys);
    }
    SameMembers(keys, order);
    PermutationDistinct(keys, order);
    forall i, j | 0 <= i < j < |order| ensures RanksBefore(hits, order[i], order[j]) {
      assert le(order[i], order[j]);
      KeyMeansRank(hits, keys, merged, freq, firstSeen, order[i], order[j]);
    }
  }

  lemma KeysOrdered(keys: seq<NodeId>, freq: map<NodeId, nat>, firstSeen: map<NodeId, nat>,
                    le: (NodeId, NodeId) -> bool)
    requires forall a, b :: le(a, b) == KeyAtMost(freq, firstSeen, a, b)
    requires forall id :: id in keys ==> id in freq && id in firstSeen
    ensures Orders(le, multiset(keys))
  {
    forall id | id in multiset(keys) ensures id in keys {
    }
  }

  lemma KeyMeansRank(hits: seq<Node>, keys: seq<NodeId>, merged: map<NodeId, Node>, freq: map<NodeId, nat>,
                     firstSeen: map<NodeId, nat>, a: NodeId, b: NodeId)
    requires Merged(hits, keys, merged, freq, firstSeen) && KeyAtMost(freq, firstSeen, a, b)
    ensures RanksBefore(hits, a, b)
  {
    hide Found, FirstAt, Frequency;
  }
}
