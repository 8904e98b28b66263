/** Eviction of the oldest rounds into graph memory (`krakey/engines/heartbeat/compact.py`). */
module Compact {
  import opened Basics
  import opened History

  // ---- how many rounds one call evicts -----------------------------------

  /** The least number of oldest rounds whose removal satisfies both caps. */
  function LeastFit(tok: Estimator, caps: Caps, rs: seq<Round>): (k: nat)
    requires caps.tokens >= 0 && caps.rounds >= 0
    ensures k <= |rs|
  {
    if !Over(tok, caps, rs) then 0 else 1 + LeastFit(tok, caps, rs[1..])
  }

  lemma {:induction false} LeastFitIsLeast(tok: Estimator, caps: Caps, rs: seq<Round>)
    requires caps.tokens >= 0 && caps.rounds >= 0
    ensures !Over(tok, caps, rs[LeastFit(tok, caps, rs)..])
    ensures forall j :: 0 <= j < LeastFit(tok, caps, rs) ==> Over(tok, caps, rs[j..])
  {
    var k := LeastFit(tok, caps, rs);
    assert rs[0..] == rs;
    if k > 0 {
      LeastFitIsLeast(tok, caps, rs[1..]);
      assert rs[1..][k - 1..] == rs[k..];
      forall j | 0 <= j < k ensures Over(tok, caps, rs[j..]) {
        if j > 0 {
          assert rs[1..][j - 1..] == rs[j..];
        }
      }
    }
  }

  lemma {:induction false} LeastFitAfterPops(tok: Estimator, caps: Caps, rs: seq<Round>, j: nat)
    requires caps.tokens >= 0 && caps.rounds >= 0
    requires j <= LeastFit(tok, caps, rs)
    ensures LeastFit(tok, caps, rs[j..]) == LeastFit(tok, caps, rs) - j
  {
    if j == 0 {
      assert rs[0..] == rs;
    } else {
      LeastFitAfterPops(tok, caps, rs[1..], j - 1);
      assert rs[1..][j - 1..] == rs[j..];
    }
  }

  function NonNegative(n: int): nat {
    if n < 0 then 0 else n
  }

  /** The pop budget covers everything except, possibly, the single last round, which is split. */
  predicate Splits(tok: Estimator, caps: Caps, rs: seq<Round>, maxPops: int)
    requires caps.tokens >= 0 && caps.rounds >= 0
  {
    rs != [] && LeastFit(tok, caps, rs) == |rs| <= NonNegative(maxPops) + 1
  }

  /** Rounds removed by one call that no failure interrupts. */
  function EvictCount(tok: Estimator, caps: Caps, rs: seq<Round>, maxPops: int): (e: nat)
    requires caps.tokens >= 0 && caps.rounds >= 0
    ensures e <= |rs|
  {
    var k := LeastFit(tok, caps, rs);
    if k <= NonNegative(maxPops) || Splits(tok, caps, rs, maxPops) then k else NonNegative(maxPops)
  }

  /** Exact eviction: an uncapped call leaves the longest suffix that fits; a capped one stops at
      its pop budget with the window still over. */
  lemma EvictionIsExact(tok: Estimator, caps: Caps, rs: seq<Round>, maxPops: int)
    requires caps.tokens >= 0 && caps.rounds >= 0
    ensures var e := EvictCount(tok, caps, rs, maxPops);
      && (forall j :: 0 <= j < e ==> Over(tok, caps, rs[j..]))
      && (Over(tok, caps, rs[e..]) <==>
            LeastFit(tok, caps, rs) > NonNegative(maxPops) && !Splits(tok, caps, rs, maxPops))
      && (Over(tok, caps, rs[e..]) ==> e == NonNegative(maxPops) && |rs| - e >= 2)
  {
    LeastFitIsLeast(tok, caps, rs);
    var e := EvictCount(tok, caps, rs, maxPops);
    if |rs| - e == 1 && Over(tok, caps, rs[e..]) {
      LeastFitAfterPops(tok, caps, rs, e);
    }
  }

  // ---- splitting one oversized round -------------------------------------

  function Concat(parts: seq<string>): string {
    if parts == [] then "" else parts[0] + Concat(parts[1..])
  }

  function Chunks(text: string, chars: int): seq<string>
    requires chars > 0
  {
    if text == "" then []
    else if |text| <= chars then [text]
    else [text[..chars]] + Chunks(text[chars..], chars)
  }

  /** Splitting loses and invents nothing, and only the last chunk may be short. */
  lemma {:induction false} ChunksLossless(text: string, chars: int)
    requires chars > 0
    ensures Concat(Chunks(text, chars)) == text
    ensures forall i :: 0 <= i < |Chunks(text, chars)| ==> 0 < |Chunks(text, chars)[i]| <= chars
    ensures forall i :: 0 <= i < |Chunks(text, chars)| - 1 ==> |Chunks(text, chars)[i]| == chars
  {
    if |text| > chars {
      ChunksLossless(text[chars..], chars);
      var all, rest := Chunks(text, chars), Chunks(text[chars..], chars);
      assert all == [text[..chars]] + rest && all[1..] == rest;
      assert rest != [];
      forall i | 0 <= i < |all| ensures 0 < |all[i]| <= chars && (i < |all| - 1 ==> |all[i]| == chars) {
        if i > 0 {
          assert all[i] == rest[i - 1];
        }
      }
      assert text == text[..chars] + text[chars..];
    } else if text != "" {
      assert Chunks(text, chars)[1..] == [];
    }
  }

  method ChunksByCharBudget(text: string, chars: int) returns (out: seq<string>)
    requires chars > 0
    ensures out == Chunks(text, chars)
  {
    out := [];
    if text == "" {
      return;
    }
    var i := 0;
    while i < |text|
      invariant 0 <= i
      invariant i <= |text| ==> out + Chunks(text[i..], chars) == Chunks(text, chars)
      invariant i > |text| ==> out == Chunks(text, chars)
    {
      var end := if i + chars <= |text| then i + chars else |text|;
      assert text[i..][..end - i] == text[i..end];
      assert text[i..][end - i..] == text[end..];
      assert end == |text| ==> text[i..] == text[i..end];
      assert Chunks(text[i..], chars) == [text[i..end]] + Chunks(text[end..], chars);
      assert out + ([text[i..end]] + Chunks(text[end..], chars)) == out + [text[i..end]] + Chunks(text[end..], chars);
      out := out + [text[i..end]];
      i := i + chars;
    }
  }

  /** `" ".join(t for t in parts if t)`. */
  function JoinNonEmpty(parts: seq<string>): string {
    if parts == [] then ""
    else
      var rest := JoinNonEmpty(parts[1..]);
      if parts[0] == "" then rest
      else if rest == "" then parts[0]
      else parts[0] + " " + rest
  }

  lemma {:induction false} JoinIsEmpty(parts: seq<string>)
    ensures JoinNonEmpty(parts) == "" <==> forall p :: p in parts ==> p == ""
  {
    if parts != [] {
      JoinIsEmpty(parts[1..]);
      assert parts[0] in parts;
      assert forall p :: p in parts <==> p == parts[0] || p in parts[1..];
    }
  }

  function FullText(r: Round): string {
    JoinNonEmpty([r.thinking, r.stimulus, r.decision, r.note])
  }

  // ---- what compaction hands to the LLM ----------------------------------

  /** The variable parts of one extraction prompt, with the query used to look up existing nodes. */
  datatype Job = Job(query: string, thinking: string, stimulus: string, decision: string, note: string,
                     recallContext: string)

  function JobFor(r: Round, includeRecall: bool): Job {
    var query := if r.stimulus != "" then r.stimulus else if r.decision != "" then r.decision else r.note;
    Job(query, r.thinking, r.stimulus, r.decision, r.note, if includeRecall then r.recall else "")
  }

  function CharBudget(splitChunkTokens: int): (c: int)
    ensures c >= 80
  {
    if splitChunkTokens * 4 > 80 then splitChunkTokens * 4 else 80
  }

  function Synthetic(r: Round, chunk: string): Round {
    Round(r.heartbeatId, chunk, "", "", "", "")
  }

  function WholeJobs(rs: seq<Round>, includeRecall: bool): (jobs: seq<Job>)
    ensures |jobs| == |rs|
  {
    if rs == [] then [] else [JobFor(rs[0], includeRecall)] + WholeJobs(rs[1..], includeRecall)
  }

  function ChunkJobs(r: Round, chunks: seq<string>): (jobs: seq<Job>)
    ensures |jobs| == |chunks|
  {
    if chunks == [] then [] else [JobFor(Synthetic(r, chunks[0]), false)] + ChunkJobs(r, chunks[1..])
  }

  function SplitJobs(r: Round, splitChunkTokens: int): seq<Job> {
    ChunkJobs(r, Chunks(FullText(r), CharBudget(splitChunkTokens)))
  }

  /** Everything one call hands over when nothing raises: whole rounds oldest first, then the chunks. */
  function Plan(tok: Estimator, caps: Caps, rs: seq<Round>, maxPops: int,
                includeRecall: bool, splitChunkTokens: int): seq<Job>
    requires caps.tokens >= 0 && caps.rounds >= 0
  {
    if Splits(tok, caps, rs, maxPops)
    then WholeJobs(rs[..|rs| - 1], includeRecall) + SplitJobs(rs[|rs| - 1], splitChunkTokens)
    else WholeJobs(rs[..EvictCount(tok, caps, rs, maxPops)], includeRecall)
  }

  function StimulusTexts(jobs: seq<Job>): seq<string> {
    if jobs == [] then [] else [jobs[0].stimulus] + StimulusTexts(jobs[1..])
  }

  lemma {:induction false} ChunkJobsCarryTheChunks(r: Round, chunks: seq<string>)
    ensures StimulusTexts(ChunkJobs(r, chunks)) == chunks
  {
    if chunks != [] {
      ChunkJobsCarryTheChunks(r, chunks[1..]);
    }
  }

  /** The chunks of a split round concatenate to its joined text, so it is handed over exactly when one
      of those four texts is non-empty: a round whose only text is its recall summary vanishes unseen. */
  lemma SplitHandsOverTheText(r: Round, splitChunkTokens: int)
    ensures Concat(StimulusTexts(SplitJobs(r, splitChunkTokens))) == FullText(r)
    ensures SplitJobs(r, splitChunkTokens) == [] <==>
              r.thinking == "" && r.stimulus == "" && r.decision == "" && r.note == ""
  {
    var chunks := Chunks(FullText(r), CharBudget(splitChunkTokens));
    ChunksLossless(FullText(r), CharBudget(splitChunkTokens));
    ChunkJobsCarryTheChunks(r, chunks);
    var parts := [r.thinking, r.stimulus, r.decision, r.note];
    JoinIsEmpty(parts);
    assert r.thinking in parts && r.stimulus in parts && r.decision in parts && r.note in parts;
  }

  // ---- the collaborators -------------------------------------------------

  /** Index of the first of `n` calls, starting at call `base`, that raises; `n` if none does. */
  function FirstRaise(raises: nat -> bool, base: nat, n: nat): (f: nat)
    ensures f <= n
    ensures forall i :: base <= i < base + f ==> !raises(i)
    ensures f < n ==> raises(base + f)
    decreases n
  {
    if n == 0 || raises(base) then 0 else 1 + FirstRaise(raises, base + 1, n - 1)
  }

  /** The memory engine and the compaction LLM together: they receive jobs, and call number `i`
      raises when `raises(i)` (a failing lookup, chat, parse or write). */
  class Compactor {
    const raises: nat -> bool
    var jobs: seq<Job>

    constructor (raises: nat -> bool)
      ensures this.raises == raises && jobs == []
    {
      this.raises, this.jobs := raises, [];
    }

    method CompactRound(r: Round, includeRecall: bool) returns (ok: bool)
      modifies this
      ensures jobs == old(jobs) + [JobFor(r, includeRecall)]
      ensures ok == !raises(|old(jobs)|)
    {
      ok := !raises(|jobs|);
      jobs := jobs + [JobFor(r, includeRecall)];
    }
  }

  function AtMost(a: nat, b: nat): nat {
    if a <= b then a else b
  }

  /** What one call does: the jobs it hands over, the rounds it pops, and whether it returns normally. */
  datatype Effect = Effect(jobs: seq<Job>, pops: nat, ok: bool)

  /** Compacting the chunks of an already popped round, up to and including the first call that raises. */
  function ChunkEffect(r: Round, chunks: seq<string>, raises: nat -> bool, base: nat): (e: Effect)
    ensures e.pops == 1
  {
    if chunks == [] then Effect([], 1, true)
    else
      var job := JobFor(Synthetic(r, chunks[0]), false);
      if raises(base) then Effect([job], 1, false)
      else
        var e := ChunkEffect(r, chunks[1..], raises, base + 1);
        Effect([job] + e.jobs, 1, e.ok)
  }

  function SplitEffect(r: Round, splitChunkTokens: int, raises: nat -> bool, base: nat): (e: Effect)
    ensures e.pops == 1
  {
    ChunkEffect(r, Chunks(FullText(r), CharBudget(splitChunkTokens)), raises, base)
  }

  method CompactChunks(r: Round, chunks: seq<string>, gm: Compactor) returns (ok: bool)
    modifies gm
    ensures var e := ChunkEffect(r, chunks, gm.raises, |old(gm.jobs)|);
      gm.jobs == old(gm.jobs) + e.jobs && ok == e.ok
  {
    ghost var e := ChunkEffect(r, chunks, gm.raises, |gm.jobs|);
    for i := 0 to |chunks|
      invariant var rest := ChunkEffect(r, chunks[i..], gm.raises, |gm.jobs|);
        rest.ok == e.ok && gm.jobs + rest.jobs == old(gm.jobs) + e.jobs
    {
      assert chunks[i..][1..] == chunks[i + 1..];
      Shift(gm.jobs, JobFor(Synthetic(r, chunks[i]), false),
            ChunkEffect(r, chunks[i + 1..], gm.raises, |gm.jobs| + 1).jobs);
      ok := gm.CompactRound(Synthetic(r, chunks[i]), false);
      if !ok {
        return false;
      }
    }
    return true;
  }

  method SplitAndCompactSingleRound(window: SlidingWindow, gm: Compactor, splitChunkTokens: int) returns (ok: bool)
    modifies window, window.file, gm
    ensures old(window.rounds) == [] ==> ok && window.View() == old(window.View()) && gm.jobs == old(gm.jobs)
    ensures old(window.rounds) != [] ==>
              var e := SplitEffect(old(window.rounds)[0], splitChunkTokens, gm.raises, |old(gm.jobs)|);
              && window.View() == Popped(window.Store(), old(window.View()))
              && gm.jobs == old(gm.jobs) + e.jobs
              && ok == e.ok
  {
    var oldest := window.PopOldest();
    if oldest == None {
      return true;
    }
    var chunks := ChunksByCharBudget(FullText(oldest.value), CharBudget(splitChunkTokens));
    ok := CompactChunks(oldest.value, chunks, gm);
  }

  /** One call, round by round: stop when the window fits, split a last lone round, stop at the pop
      budget, otherwise pop and compact the oldest round, and stop there if that raises. */
  function CompactEffect(tok: Estimator, caps: Caps, rs: seq<Round>, maxPops: int, includeRecall: bool,
                         splitChunkTokens: int, raises: nat -> bool, base: nat): (e: Effect)
    requires caps.tokens >= 0 && caps.rounds >= 0
    ensures e.pops <= |rs|
    decreases |rs|
  {
    if !Over(tok, caps, rs) then Effect([], 0, true)
    else if |rs| == 1 then SplitEffect(rs[0], splitChunkTokens, raises, base)
    else if maxPops <= 0 then Effect([], 0, true)
    else if raises(base) then Effect([JobFor(rs[0], includeRecall)], 1, false)
    else
      var e := CompactEffect(tok, caps, rs[1..], maxPops - 1, includeRecall, splitChunkTokens, raises, base + 1);
      Effect([JobFor(rs[0], includeRecall)] + e.jobs, 1 + e.pops, e.ok)
  }

  lemma EffectUnfold(tok: Estimator, caps: Caps, rs: seq<Round>, maxPops: int, includeRecall: bool,
                     splitChunkTokens: int, raises: nat -> bool, base: nat)
    requires caps.tokens >= 0 && caps.rounds >= 0 && Over(tok, caps, rs) && |rs| > 1
    ensures var e := CompactEffect(tok, caps, rs, maxPops, includeRecall, splitChunkTokens, raises, base);
      var job := JobFor(rs[0], includeRecall);
      if maxPops <= 0 then e == Effect([], 0, true)
      else if raises(base) then e == Effect([job], 1, false)
      else
        var rest := CompactEffect(tok, caps, rs[1..], maxPops - 1, includeRecall, splitChunkTokens, raises, base + 1);
        e == Effect([job] + rest.jobs, 1 + rest.pops, rest.ok)
  {
  }

  lemma EffectEnd(tok: Estimator, caps: Caps, rs: seq<Round>, maxPops: int, includeRecall: bool,
                  splitChunkTokens: int, raises: nat -> bool, base: nat)
    requires caps.tokens >= 0 && caps.rounds >= 0
    ensures var e := CompactEffect(tok, caps, rs, maxPops, includeRecall, splitChunkTokens, raises, base);
      && (!Over(tok, caps, rs) ==> e == Effect([], 0, true))
      && (Over(tok, caps, rs) && |rs| <= 1 ==>
            |rs| == 1 && e == SplitEffect(rs[0], splitChunkTokens, raises, base))
  {
  }

  /** The blocking compaction loop. */
  method CompactIfNeeded(window: SlidingWindow, gm: Compactor, includeRecall: bool, splitChunkTokens: int,
                         maxPops: int) returns (ok: bool)
    requires window.caps.tokens >= 0 && window.caps.rounds >= 0
    modifies window, window.file, gm
    ensures var e := CompactEffect(window.tok, window.caps, old(window.rounds), maxPops, includeRecall,
                                   splitChunkTokens, gm.raises, |old(gm.jobs)|);
      && ok == e.ok
      && gm.jobs == old(gm.jobs) + e.jobs
      && window.View() == Pops(window.Store(), old(window.View()), e.pops)
  {
    hide CompactEffect, SplitEffect, Over, JobFor, Popped, Persisted;
    ghost var m := window.View();
    ghost var e := CompactEffect(window.tok, window.caps, window.rounds, maxPops, includeRecall,
                                 splitChunkTokens, gm.raises, |gm.jobs|);
    var pops := 0;
    var over := window.NeedsCompact();
    while over && |window.rounds| > 1
      invariant var rest := CompactEffect(window.tok, window.caps, window.rounds, maxPops - pops, includeRecall,
                                          splitChunkTokens, gm.raises, |gm.jobs|);
        rest.ok == e.ok && pops + rest.pops == e.pops && gm.jobs + rest.jobs == old(gm.jobs) + e.jobs
      invariant 0 <= pops <= |m.rounds| && window.View() == Pops(window.Store(), m, pops)
      invariant over == Over(window.tok, window.caps, window.rounds)
      decreases |window.rounds|
    {
      EffectUnfold(window.tok, window.caps, window.rounds, maxPops - pops, includeRecall, splitChunkTokens,
                   gm.raises, |gm.jobs|);
      if pops >= maxPops {
        return true;
      }
      Shift(gm.jobs, JobFor(window.rounds[0], includeRecall),
            CompactEffect(window.tok, window.caps, window.rounds[1..], maxPops - pops - 1, includeRecall,
                          splitChunkTokens, gm.raises, |gm.jobs| + 1).jobs);
      var oldest := window.PopOldest();
      ok := gm.CompactRound(oldest.value, includeRecall);
      pops := pops + 1;
      if !ok {
        return false;
      }
      over := window.NeedsCompact();
    }
    EffectEnd(window.tok, window.caps, window.rounds, maxPops - pops, includeRecall, splitChunkTokens,
              gm.raises, |gm.jobs|);
    ok := true;
    if over && |window.rounds| == 1 {
      ok := SplitAndCompactSingleRound(window, gm, splitChunkTokens);
    }
  }

  lemma {:induction false} ChunksFollowThePlan(r: Round, chunks: seq<string>, raises: nat -> bool, base: nat)
    ensures var plan := ChunkJobs(r, chunks);
      var f := FirstRaise(raises, base, |plan|);
      ChunkEffect(r, chunks, raises, base) == Effect(plan[..AtMost(f + 1, |plan|)], 1, f == |plan|)
  {
    if chunks != [] && !raises(base) {
      ChunksFollowThePlan(r, chunks[1..], raises, base + 1);
      var plan := ChunkJobs(r, chunks[1..]);
      var f := FirstRaise(raises, base + 1, |plan|);
      TakeCons(JobFor(Synthetic(r, chunks[0]), false), plan, AtMost(f + 1, |plan|));
    }
  }

  lemma TakeCons<T>(x: T, xs: seq<T>, n: nat)
    requires n <= |xs|
    ensures ([x] + xs)[..n + 1] == [x] + xs[..n]
  {
  }

  /** Walking a plan of jobs up to and including the first one whose call raises; job number `i`
      pops a round as long as some of the `evict` rounds remain. */
  function Walk(plan: seq<Job>, evict: nat, raises: nat -> bool, base: nat): Effect {
    var f := FirstRaise(raises, base, |plan|);
    Effect(plan[..AtMost(f + 1, |plan|)], if f == |plan| then evict else AtMost(f + 1, evict), f == |plan|)
  }

  lemma WalkCons(job: Job, plan: seq<Job>, evict: nat, raises: nat -> bool, base: nat)
    ensures raises(base) ==> Walk([job] + plan, evict + 1, raises, base) == Effect([job], 1, false)
    ensures !raises(base) ==>
              var e := Walk(plan, evict, raises, base + 1);
              Walk([job] + plan, evict + 1, raises, base) == Effect([job] + e.jobs, 1 + e.pops, e.ok)
  {
    TakeCons(job, plan, AtMost(FirstRaise(raises, base + 1, |plan|) + 1, |plan|));
  }

  lemma PlanStep(tok: Estimator, caps: Caps, rs: seq<Round>, maxPops: int,
                 includeRecall: bool, splitChunkTokens: int)
    requires caps.tokens >= 0 && caps.rounds >= 0
    requires Over(tok, caps, rs) && |rs| > 1 && maxPops > 0
    ensures Plan(tok, caps, rs, maxPops, includeRecall, splitChunkTokens)
         == [JobFor(rs[0], includeRecall)] + Plan(tok, caps, rs[1..], maxPops - 1, includeRecall, splitChunkTokens)
    ensures EvictCount(tok, caps, rs, maxPops) == 1 + EvictCount(tok, caps, rs[1..], maxPops - 1)
  {
    hide Over, SplitJobs;
    var n := if Splits(tok, caps, rs, maxPops) then |rs| - 1 else EvictCount(tok, caps, rs, maxPops);
    assert rs[..n][1..] == rs[1..][..n - 1];
  }

  lemma PlanEnd(tok: Estimator, caps: Caps, rs: seq<Round>, maxPops: int,
                includeRecall: bool, splitChunkTokens: int)
    requires caps.tokens >= 0 && caps.rounds >= 0
    requires !Over(tok, caps, rs) || (maxPops <= 0 && |rs| != 1)
    ensures Plan(tok, caps, rs, maxPops, includeRecall, splitChunkTokens) == []
    ensures EvictCount(tok, caps, rs, maxPops) == 0
  {
  }

  lemma PlanSplit(tok: Estimator, caps: Caps, rs: seq<Round>, maxPops: int,
                  includeRecall: bool, splitChunkTokens: int)
    requires caps.tokens >= 0 && caps.rounds >= 0
    requires Over(tok, caps, rs) && |rs| == 1
    ensures Plan(tok, caps, rs, maxPops, includeRecall, splitChunkTokens) == SplitJobs(rs[0], splitChunkTokens)
    ensures EvictCount(tok, caps, rs, maxPops) == 1
  {
    hide SplitJobs;
    assert rs[..0] == [] && rs[1..] == [];
  }

  /** The same call in closed form: it walks the plan up to and including the first job whose call
      raises, and pops exactly the rounds those jobs came from. */
  lemma {:induction false} CompactFollowsThePlan(tok: Estimator, caps: Caps, rs: seq<Round>, maxPops: int,
                                                 includeRecall: bool, splitChunkTokens: int,
                                                 raises: nat -> bool, base: nat)
    requires caps.tokens >= 0 && caps.rounds >= 0
    ensures CompactEffect(tok, caps, rs, maxPops, includeRecall, splitChunkTokens, raises, base)
         == Walk(Plan(tok, caps, rs, maxPops, includeRecall, splitChunkTokens),
                 EvictCount(tok, caps, rs, maxPops), raises, base)
    decreases |rs|
  {
    hide Plan, EvictCount, Over, SplitJobs, Splits;
    if !Over(tok, caps, rs) || (maxPops <= 0 && |rs| != 1) {
      PlanEnd(tok, caps, rs, maxPops, includeRecall, splitChunkTokens);
      EffectEnd(tok, caps, rs, maxPops, includeRecall, splitChunkTokens, raises, base);
    } else {
      NotEmptyWhenOver(tok, caps, rs);
      if |rs| == 1 {
        PlanSplit(tok, caps, rs, maxPops, includeRecall, splitChunkTokens);
        EffectEnd(tok, caps, rs, maxPops, includeRecall, splitChunkTokens, raises, base);
        SplitFollowsThePlan(rs[0], splitChunkTokens, raises, base);
      } else {
        PlanStep(tok, caps, rs, maxPops, includeRecall, splitChunkTokens);
        var plan := Plan(tok, caps, rs[1..], maxPops - 1, includeRecall, splitChunkTokens);
        WalkCons(JobFor(rs[0], includeRecall), plan, EvictCount(tok, caps, rs[1..], maxPops - 1), raises, base);
        CompactFollowsThePlan(tok, caps, rs[1..], maxPops - 1, includeRecall, splitChunkTokens, raises, base + 1);
        EffectUnfold(tok, caps, rs, maxPops, includeRecall, splitChunkTokens, raises, base);
      }
    }
  }

  lemma NotEmptyWhenOver(tok: Estimator, caps: Caps, rs: seq<Round>)
    requires caps.tokens >= 0 && caps.rounds >= 0 && Over(tok, caps, rs)
    ensures rs != []
  {
  }

  lemma SplitFollowsThePlan(r: Round, splitChunkTokens: int, raises: nat -> bool, base: nat)
    ensures SplitEffect(r, splitChunkTokens, raises, base) == Walk(SplitJobs(r, splitChunkTokens), 1, raises, base)
  {
    ChunksFollowThePlan(r, Chunks(FullText(r), CharBudget(splitChunkTokens)), raises, base);
  }
}
