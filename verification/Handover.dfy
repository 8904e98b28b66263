/** How the rounds that leave the window over a whole run reach graph memory
    (`krakey/engines/heartbeat/compact.py`, `krakey/engines/heartbeat/orchestrator.py`). */
module Handover {
  import opened Compact
  import opened History

  /** How a run compacts: whether recall summaries go along, the chunk size, and which calls raise. */
  datatype Setting = Setting(includeRecall: bool, splitChunkTokens: int, raises: nat -> bool)

  /** What one evicted round is turned into when `base` jobs came before it: itself, or its chunks up to and
      including the first whose compaction raises. */
  predicate IsShare(g: Setting, jobs: seq<Job>, r: Round, base: nat) {
    jobs == [JobFor(r, g.includeRecall)] || jobs == SplitEffect(r, g.splitChunkTokens, g.raises, base).jobs
  }

  /** After `base` other jobs, the jobs are the shares of these rounds, in this order, one share for each. */
  ghost predicate HandedOver(g: Setting, jobs: seq<Job>, rs: seq<Round>, base: nat)
    decreases |rs|
  {
    if rs == [] then jobs == []
    else exists k: nat :: k <= |jobs| && SharesUpTo(g, jobs, rs, base, k)
  }

  ghost predicate SharesUpTo(g: Setting, jobs: seq<Job>, rs: seq<Round>, base: nat, k: nat)
    requires rs != [] && k <= |jobs|
    decreases |rs|, 0
  {
    HandedOver(g, jobs[..k], rs[..|rs| - 1], base) && IsShare(g, jobs[k..], rs[|rs| - 1], base + k)
  }

  lemma HandOne(g: Setting, jobs: seq<Job>, rs: seq<Round>, share: seq<Job>, r: Round, base: nat)
    requires HandedOver(g, jobs, rs, base) && IsShare(g, share, r, base + |jobs|)
    ensures HandedOver(g, jobs + share, rs + [r], base)
  {
    hide IsShare;
    var k := |jobs|;
    assert (jobs + share)[..k] == jobs && (jobs + share)[k..] == share;
    assert (rs + [r])[..|rs|] == rs;
    assert SharesUpTo(g, jobs + share, rs + [r], base, k);
  }

  lemma {:induction false} HandMore(g: Setting, a: seq<Job>, xs: seq<Round>, b: seq<Job>, ys: seq<Round>, base: nat)
    requires HandedOver(g, a, xs, base) && HandedOver(g, b, ys, base + |a|)
    ensures HandedOver(g, a + b, xs + ys, base)
    decreases |ys|
  {
    hide IsShare;
    if ys == [] {
      assert a + b == a && xs + ys == xs;
    } else {
      var n := |ys| - 1;
      var k: nat :| k <= |b| && SharesUpTo(g, b, ys, base + |a|, k);
      HandMore(g, a, xs, b[..k], ys[..n], base);
      HandOne(g, a + b[..k], xs + ys[..n], b[k..], ys[n], base);
      assert a + b[..k] + b[k..] == a + b;
      assert xs + ys[..n] + [ys[n]] == xs + ys;
    }
  }

  lemma HandSingle(g: Setting, share: seq<Job>, r: Round, base: nat)
    requires IsShare(g, share, r, base)
    ensures HandedOver(g, share, [r], base)
  {
    hide IsShare;
    HandOne(g, [], [], share, r, base);
    assert [] + share == share && [] + [r] == [r];
  }

  lemma {:induction false} WholeJobsHandOver(g: Setting, rs: seq<Round>, base: nat)
    ensures HandedOver(g, WholeJobs(rs, g.includeRecall), rs, base)
    decreases |rs|
  {
    if rs != [] {
      hide HandedOver, IsShare;
      WholeShare(g, rs[0], base);
      HandSingle(g, [JobFor(rs[0], g.includeRecall)], rs[0], base);
      WholeJobsHandOver(g, rs[1..], base + 1);
      HandMore(g, [JobFor(rs[0], g.includeRecall)], [rs[0]], WholeJobs(rs[1..], g.includeRecall), rs[1..], base);
      assert [rs[0]] + rs[1..] == rs;
    }
  }

  /** A compaction call hands over exactly the rounds it pops, oldest first, whether or not it raises. */
  lemma {:induction false} CompactionHandsOver(g: Setting, tok: Estimator, caps: Caps, rs: seq<Round>, maxPops: int,
                                               base: nat)
    requires caps.tokens >= 0 && caps.rounds >= 0
    ensures var e := CompactEffect(tok, caps, rs, maxPops, g.includeRecall, g.splitChunkTokens, g.raises, base);
      HandedOver(g, e.jobs, rs[..e.pops], base)
    decreases |rs|
  {
    hide Over, SplitJobs, SplitEffect, HandedOver, IsShare;
    NothingToHandOver(g, base);
    EffectEnd(tok, caps, rs, maxPops, g.includeRecall, g.splitChunkTokens, g.raises, base);
    if Over(tok, caps, rs) && |rs| > 1 && maxPops > 0 {
      EffectUnfold(tok, caps, rs, maxPops, g.includeRecall, g.splitChunkTokens, g.raises, base);
      var first := [JobFor(rs[0], g.includeRecall)];
      WholeShare(g, rs[0], base);
      HandSingle(g, first, rs[0], base);
      if g.raises(base) {
        assert rs[..1] == [rs[0]];
      } else {
        var rest :=
          CompactEffect(tok, caps, rs[1..], maxPops - 1, g.includeRecall, g.splitChunkTokens, g.raises, base + 1);
        CompactionHandsOver(g, tok, caps, rs[1..], maxPops - 1, base + 1);
        HandMore(g, first, [rs[0]], rest.jobs, rs[1..][..rest.pops], base);
        assert [rs[0]] + rs[1..][..rest.pops] == rs[..1 + rest.pops];
      }
    } else if Over(tok, caps, rs) && |rs| > 1 {
      EffectUnfold(tok, caps, rs, maxPops, g.includeRecall, g.splitChunkTokens, g.raises, base);
      assert rs[..0] == [];
    } else if Over(tok, caps, rs) {
      SplitShare(g, rs[0], base);
      HandSingle(g, SplitEffect(rs[0], g.splitChunkTokens, g.raises, base).jobs, rs[0], base);
      assert rs[..1] == [rs[0]];
    } else {
      assert rs[..0] == [];
    }
  }

  lemma NothingToHandOver(g: Setting, base: nat)
    ensures HandedOver(g, [], [], base)
  {
  }

  lemma WholeShare(g: Setting, r: Round, base: nat)
    ensures IsShare(g, [JobFor(r, g.includeRecall)], r, base)
  {
    hide SplitEffect;
  }

  lemma SplitShare(g: Setting, r: Round, base: nat)
    ensures IsShare(g, SplitEffect(r, g.splitChunkTokens, g.raises, base).jobs, r, base)
  {
    hide SplitEffect;
  }

  // ---- no round vanishes --------------------------------------------------

  /** The rounds with any text; only a round without one may be handed over as nothing. */
  function Speaking(rs: seq<Round>): nat {
    if rs == [] then 0
    else Speaking(rs[..|rs| - 1]) + if FullText(rs[|rs| - 1]) != "" then 1 else 0
  }

  lemma ShareNotEmpty(g: Setting, jobs: seq<Job>, r: Round, base: nat)
    requires IsShare(g, jobs, r, base) && FullText(r) != ""
    ensures jobs != []
  {
    hide JobFor, CharBudget;
    var chunks := Chunks(FullText(r), CharBudget(g.splitChunkTokens));
    assert chunks != [];
  }

  /** So at least as many jobs were handed over as rounds with text left the window. */
  lemma {:induction false} NoRoundVanishes(g: Setting, jobs: seq<Job>, rs: seq<Round>, base: nat)
    requires HandedOver(g, jobs, rs, base)
    ensures Speaking(rs) <= |jobs|
    decreases |rs|
  {
    if rs != [] {
      hide IsShare, FullText;
      var n := |rs| - 1;
      var k: nat :| k <= |jobs| && SharesUpTo(g, jobs, rs, base, k);
      NoRoundVanishes(g, jobs[..k], rs[..n], base);
      if FullText(rs[n]) != "" {
        ShareNotEmpty(g, jobs[k..], rs[n], base + k);
      }
    }
  }
}
