/** Whole runs of the window: crashes, restarts, failing writes, and the backlog over many beats. */
module WindowRuns {
  import opened Basics
  import opened History
  import opened Compact

  // ---- crashes and restarts ----------------------------------------------

  /** One mutation, or a crash at any point followed by a new construction on the same file. A write that
      fails and then a crash is the same as a crash in the middle of that write. */
  datatype Event = Append(r: Round) | Pop | Restart

  /** A life of the window across restarts. Every round that was ever loaded or appended has a serial
      number, its position on `tape`; `ids` and `fileIds` are the serials of the rounds in memory and on
      disk. `past` holds every list the window has held after a mutation, `admitted` what entered the
      window since the last restart. Serials below `floor` were dropped by a write that succeeded. */
  datatype Life = Life(
    window: Mirror,
    tape: seq<Round>,
    ids: seq<nat>,
    fileIds: seq<nat>,
    floor: nat,
    admitted: seq<Round>,
    past: seq<seq<Round>>)

  datatype Setting = Setting(disk: Disk, py: Coercions, caps: Caps)

  predicate Proper(g: Setting) {
    g.disk.present && g.caps.rounds > 0
  }

  /** Before the first construction, over whatever the file holds. */
  function Unborn(g: Setting, content: File): Life {
    var found := Load(g.py, content);
    Life(Mirror([], [], content, 0), found, [], seq(|found|, i => i), 0, [], [found])
  }

  function Step(g: Setting, s: Life, e: Event): Life
    requires Proper(g)
  {
    var ok := g.disk.writable(s.window.writes);
    match e
    case Append(r) =>
      var w := Appended(g.disk, s.window, r);
      var ids := s.ids + [|s.tape|];
      Life(w, s.tape + [r], ids, if ok then ids else s.fileIds, s.floor, s.admitted + [r], s.past + [w.rounds])
    case Pop =>
      if s.window.rounds == [] || s.ids == [] then s
      else
        var w := Popped(g.disk, s.window);
        var ids := s.ids[1..];
        var gone := s.ids[0] + 1;
        Life(w, s.tape, ids, if ok then ids else s.fileIds,
             if ok && gone > s.floor then gone else s.floor, s.admitted, s.past + [w.rounds])
    case Restart =>
      var w := Started(g.disk, g.py, g.caps, s.window.content, s.window.writes);
      var ids := LastN(s.fileIds, 2 * g.caps.rounds);
      var rewritten := |s.fileIds| > 2 * g.caps.rounds && ok;
      Life(w, s.tape, ids, if rewritten then ids else s.fileIds,
           if rewritten && ids[0] > s.floor then ids[0] else s.floor, w.rounds, s.past + [w.rounds])
  }

  function Run(g: Setting, s: Life, es: seq<Event>): Life
    requires Proper(g)
    decreases |es|
  {
    if es == [] then s else Step(g, Run(g, s, es[..|es| - 1]), es[|es| - 1])
  }

  /** `ids` are increasing serials, none below `floor`, of exactly the rounds `rs`. */
  ghost predicate Names(tape: seq<Round>, floor: nat, ids: seq<nat>, rs: seq<Round>) {
    && |ids| == |rs|
    && (forall i :: 0 <= i < |ids| ==> floor <= ids[i] < |tape| && tape[ids[i]] == rs[i])
    && (forall i, j :: 0 <= i < j < |ids| ==> ids[i] < ids[j])
  }

  ghost predicate Sound(g: Setting, s: Life) {
    && s.floor <= |s.tape|
    && Names(s.tape, s.floor, s.ids, s.window.rounds)
    && Names(s.tape, s.floor, s.fileIds, Load(g.py, s.window.content))
    // nothing is lost between entering the window and leaving it, and rounds leave oldest first
    && s.window.evicted + s.window.rounds == s.admitted
    // the disk holds the complete list of some past mutation
    && Load(g.py, s.window.content) in s.past
  }

  lemma NamesOf(tape: seq<Round>, floor: nat, ids: seq<nat>, rs: seq<Round>, k: nat, more: seq<Round>, floor': nat)
    requires Names(tape, floor, ids, rs) && k <= |ids|
    requires k < |ids| ==> floor' <= ids[k]
    requires k == |ids| ==> floor' <= |tape|
    ensures Names(tape + more, floor', ids[k..], rs[k..])
  {
    forall i | k <= i < |ids| ensures floor' <= ids[i] {
      assert ids[k] <= ids[i];
    }
  }

  lemma AppendSound(g: Setting, s: Life, r: Round)
    requires Proper(g) && Sound(g, s)
    ensures Sound(g, Step(g, s, Append(r)))
  {
    hide Load, Encode;
    var t := Step(g, s, Append(r));
    RoundTrip(g.py, t.window.rounds);
    NamesOf(s.tape, s.floor, s.fileIds, Load(g.py, s.window.content), 0, [r], s.floor);
    assert t.window.evicted + t.window.rounds == t.admitted;
    assert t.window.rounds in t.past;
  }

  lemma PopSound(g: Setting, s: Life)
    requires Proper(g) && Sound(g, s)
    ensures Sound(g, Step(g, s, Pop))
  {
    hide Load, Encode;
    if s.window.rounds != [] {
      var t := Step(g, s, Pop);
      RoundTrip(g.py, t.window.rounds);
      NamesOf(s.tape, s.floor, s.ids, s.window.rounds, 1, [], t.floor);
      assert s.tape + [] == s.tape;
      assert t.window.evicted + t.window.rounds == t.admitted;
      assert t.window.rounds in t.past;
    }
  }

  lemma RestartLoads(g: Setting, s: Life)
    requires Proper(g) && |Load(g.py, s.window.content)| <= 2 * g.caps.rounds && Sound(g, s)
    ensures Sound(g, Step(g, s, Restart))
  {
    hide Load, Encode, Names;
    LengthsAgree(g, s);
    var t := Step(g, s, Restart);
    var loaded := Load(g.py, s.window.content);
    assert t.window == Mirror(loaded, [], s.window.content, s.window.writes);
    assert t.ids == s.fileIds == t.fileIds && t.floor == s.floor;
    assert t.window.evicted + t.window.rounds == t.admitted;
    assert forall p :: p in s.past ==> p in t.past;
  }

  lemma LengthsAgree(g: Setting, s: Life)
    requires Sound(g, s)
    ensures |s.fileIds| == |Load(g.py, s.window.content)|
    ensures forall i :: 0 <= i < |s.fileIds| ==> s.floor <= s.fileIds[i] < |s.tape|
  {
  }

  lemma RestartDrops(g: Setting, s: Life)
    requires Proper(g) && |Load(g.py, s.window.content)| > 2 * g.caps.rounds && Sound(g, s)
    ensures Sound(g, Step(g, s, Restart))
  {
    hide Load, Encode, Names;
    LengthsAgree(g, s);
    var t := Step(g, s, Restart);
    var loaded := Load(g.py, s.window.content);
    var k := |loaded| - 2 * g.caps.rounds;
    assert t.window.rounds == loaded[k..] && t.ids == s.fileIds[k..] && t.tape == s.tape + [];
    assert Names(t.tape, t.floor, t.ids, t.window.rounds) by {
      NamesOf(s.tape, s.floor, s.fileIds, loaded, k, [], t.floor);
    }
    assert t.window.evicted + t.window.rounds == t.admitted;
    assert t.window.rounds in t.past;
    if g.disk.writable(s.window.writes) {
      RoundTrip(g.py, t.window.rounds);
    } else {
      assert t.window.content == s.window.content && t.fileIds == s.fileIds && t.floor == s.floor;
      assert forall p :: p in s.past ==> p in t.past;
    }
  }

  lemma RestartSound(g: Setting, s: Life)
    requires Proper(g) && Sound(g, s)
    ensures Sound(g, Step(g, s, Restart))
  {
    hide Sound, Load, Step;
    if |Load(g.py, s.window.content)| <= 2 * g.caps.rounds {
      RestartLoads(g, s);
    } else {
      RestartDrops(g, s);
    }
  }

  /** Every life, over any events, crashes and write failures, is sound. */
  lemma {:induction false} LivesAreSound(g: Setting, content: File, es: seq<Event>)
    requires Proper(g)
    ensures Sound(g, Run(g, Unborn(g, content), es))
    decreases |es|
  {
    if es == [] {
      hide Load;
      var found := Load(g.py, content);
      assert found in Unborn(g, content).past;
    } else {
      hide Sound, Step;
      LivesAreSound(g, content, es[..|es| - 1]);
      StepSound(g, Run(g, Unborn(g, content), es[..|es| - 1]), es[|es| - 1]);
    }
  }

  lemma StepSound(g: Setting, s: Life, e: Event)
    requires Proper(g) && Sound(g, s)
    ensures Sound(g, Step(g, s, e))
    ensures Step(g, s, e).floor >= s.floor
  {
    match e
    case Append(r) => AppendSound(g, s, r);
    case Pop => PopSound(g, s);
    case Restart => RestartSound(g, s);
  }

  lemma {:induction false} RunSound(g: Setting, s: Life, es: seq<Event>)
    requires Proper(g) && Sound(g, s)
    ensures Sound(g, Run(g, s, es)) && Run(g, s, es).floor >= s.floor
    decreases |es|
  {
    hide Sound, Step;
    if es != [] {
      RunSound(g, s, es[..|es| - 1]);
      StepSound(g, Run(g, s, es[..|es| - 1]), es[|es| - 1]);
    }
  }

  /** A round whose removal was written to disk is never seen again, in memory or on disk, whatever
      happens later. */
  lemma PersistedPopNeverReturns(g: Setting, s: Life, es: seq<Event>)
    requires Proper(g) && Sound(g, s) && s.window.rounds != []
    requires g.disk.writable(s.window.writes)
    ensures var t := Run(g, Step(g, s, Pop), es);
      s.ids[0] !in t.ids && s.ids[0] !in t.fileIds
  {
    hide Load, Encode;
    StepSound(g, s, Pop);
    RunSound(g, Step(g, s, Pop), es);
    var t := Run(g, Step(g, s, Pop), es);
    assert t.floor > s.ids[0];
  }

  /** Right after a pop, a crash resurrects the round exactly when the write failed and the file's copy
      survives the fast-drop. */
  lemma PopThenCrash(g: Setting, s: Life)
    requires Proper(g) && Sound(g, s) && s.window.rounds != []
    ensures s.ids[0] in Step(g, Step(g, s, Pop), Restart).ids <==>
              !g.disk.writable(s.window.writes) && s.ids[0] in LastN(s.fileIds, 2 * g.caps.rounds)
  {
    hide Load, Encode;
    if g.disk.writable(s.window.writes) {
      PersistedPopNeverReturns(g, s, [Restart]);
      assert [Restart][..0] == [];
      assert Run(g, Step(g, s, Pop), []) == Step(g, s, Pop);
    }
  }

  /** After a successful write, a restart brings back exactly the last `2 * cap` rounds, or all of them. */
  lemma ReloadAfterWrite(g: Setting, s: Life, e: Event)
    requires Proper(g) && e != Restart && g.disk.writable(s.window.writes)
    requires e == Pop ==> s.window.rounds != [] && s.ids != []
    ensures var t := Step(g, s, e);
      Step(g, t, Restart).window.rounds == LastN(t.window.rounds, 2 * g.caps.rounds)
  {
    hide Load, Encode;
    RoundTrip(g.py, Step(g, s, e).window.rounds);
  }

  // ---- the backlog over beats --------------------------------------------

  /** How one beat treats the window: not at all (a command, forced sleep), or compaction and then, if it
      does not raise, `budgetPops` rounds pruned to fit the prompt and possibly a saved round. */
  datatype Beat =
    | ShortCircuit
    | Worked(raises: nat -> bool, base: nat, budgetPops: nat, saved: Option<Round>)

  datatype Policy = Policy(tok: Estimator, caps: Caps, maxPops: int, includeRecall: bool, splitChunkTokens: int)

  predicate Sanitised(p: Policy) {
    p.caps.tokens > 0 && p.caps.rounds > 0 && p.maxPops > 0
  }

  function Compacted(p: Policy, rs: seq<Round>, b: Beat): (e: Effect)
    requires Sanitised(p) && b.Worked?
    ensures e.pops <= |rs|
  {
    CompactEffect(p.tok, p.caps, rs, p.maxPops, p.includeRecall, p.splitChunkTokens, b.raises, b.base)
  }

  function AfterBeat(p: Policy, rs: seq<Round>, b: Beat): seq<Round>
    requires Sanitised(p)
  {
    if b.ShortCircuit? then rs
    else
      var e := Compacted(p, rs, b);
      var left := rs[e.pops..];
      if !e.ok then left
      else
        var pruned := left[AtMost(b.budgetPops, |left|)..];
        if b.saved.None? then pruned else pruned + [b.saved.value]
  }

  function AfterBeats(p: Policy, rs: seq<Round>, bs: seq<Beat>): seq<Round>
    requires Sanitised(p)
    decreases |bs|
  {
    if bs == [] then rs else AfterBeat(p, AfterBeats(p, rs, bs[..|bs| - 1]), bs[|bs| - 1])
  }

  lemma {:induction false} CompactionPops(p: Policy, rs: seq<Round>, raises: nat -> bool, base: nat)
    requires p.caps.tokens > 0 && p.caps.rounds > 0
    ensures var e := CompactEffect(p.tok, p.caps, rs, p.maxPops, p.includeRecall, p.splitChunkTokens, raises, base);
      && (|rs| > p.caps.rounds && p.maxPops > 0 ==> e.pops > 0)
      && (e.ok ==> e.pops >= p.maxPops || |rs| - e.pops <= p.caps.rounds)
    decreases |rs|
  {
    if Over(p.tok, p.caps, rs) && |rs| > 1 {
      hide Over;
      EffectUnfold(p.tok, p.caps, rs, p.maxPops, p.includeRecall, p.splitChunkTokens, raises, base);
      CompactionPops(p.(maxPops := p.maxPops - 1), rs[1..], raises, base + 1);
    } else {
      EffectEnd(p.tok, p.caps, rs, p.maxPops, p.includeRecall, p.splitChunkTokens, raises, base);
    }
  }

  /** No beat lets the window grow past both its old size and one round above the cap. */
  lemma BeatGrowth(p: Policy, rs: seq<Round>, b: Beat)
    requires Sanitised(p)
    ensures |AfterBeat(p, rs, b)| <= |rs| || |AfterBeat(p, rs, b)| <= p.caps.rounds + 1
  {
    hide CompactEffect;
    if b.Worked? {
      CompactionPops(p, rs, b.raises, b.base);
    }
  }

  /** From a start of at most twice the cap, which construction guarantees, every beat boundary stays
      there. */
  lemma {:induction false} BacklogBounded(p: Policy, rs: seq<Round>, bs: seq<Beat>)
    requires Sanitised(p) && |rs| <= 2 * p.caps.rounds
    ensures |AfterBeats(p, rs, bs)| <= 2 * p.caps.rounds
    decreases |bs|
  {
    if bs != [] {
      hide AfterBeat;
      BacklogBounded(p, rs, bs[..|bs| - 1]);
      BeatGrowth(p, AfterBeats(p, rs, bs[..|bs| - 1]), bs[|bs| - 1]);
    }
  }

  lemma StartBounded(d: Disk, py: Coercions, caps: Caps, content: File, writes: nat)
    requires caps.rounds > 0
    ensures |Started(d, py, caps, content, writes).rounds| <= 2 * caps.rounds
  {
  }

  /** A beat whose compaction did not raise. */
  predicate Completed(p: Policy, rs: seq<Round>, b: Beat)
    requires Sanitised(p)
  {
    b.Worked? && Compacted(p, rs, b).ok
  }

  /** How many of the beats completed. */
  function CompletedBeats(p: Policy, rs: seq<Round>, bs: seq<Beat>): nat
    requires Sanitised(p)
    decreases |bs|
  {
    if bs == [] then 0
    else
      var n := |bs| - 1;
      CompletedBeats(p, rs, bs[..n]) + if Completed(p, AfterBeats(p, rs, bs[..n]), bs[n]) then 1 else 0
  }

  lemma OneMoreBeat(p: Policy, rs: seq<Round>, bs: seq<Beat>, b: Beat)
    requires Sanitised(p)
    ensures AfterBeats(p, rs, bs + [b]) == AfterBeat(p, AfterBeats(p, rs, bs), b)
    ensures CompletedBeats(p, rs, bs + [b])
         == CompletedBeats(p, rs, bs) + if Completed(p, AfterBeats(p, rs, bs), b) then 1 else 0
  {
    hide AfterBeat, Completed, Sanitised;
    assert (bs + [b])[..|bs|] == bs;
  }

  function Excess(p: Policy, rs: seq<Round>): int {
    |rs| - p.caps.rounds
  }

  function DrainTime(p: Policy, rs: seq<Round>): int
    requires p.maxPops >= 2
  {
    (Excess(p, rs) - 1 + p.maxPops - 2) / (p.maxPops - 1)
  }

  lemma DrainStep(p: Policy, rs: seq<Round>, b: Beat)
    requires Sanitised(p) && Completed(p, rs, b)
    ensures Excess(p, AfterBeat(p, rs, b)) <= 1
         || Excess(p, AfterBeat(p, rs, b)) <= Excess(p, rs) - (p.maxPops - 1)
  {
    hide CompactEffect;
    CompactionPops(p, rs, b.raises, b.base);
  }

  /** A beat that did not complete adds nothing. */
  lemma IncompleteStep(p: Policy, rs: seq<Round>, b: Beat)
    requires Sanitised(p) && !Completed(p, rs, b)
    ensures Excess(p, AfterBeat(p, rs, b)) <= Excess(p, rs)
  {
    hide CompactEffect;
  }

  /** Every completed beat takes at least `maxPops - 1` rounds off the excess until at most one is left, and no
      other beat adds to it. */
  lemma {:induction false} BacklogDrains(p: Policy, rs: seq<Round>, bs: seq<Beat>)
    requires Sanitised(p)
    ensures Excess(p, AfterBeats(p, rs, bs)) <= 1
         || Excess(p, AfterBeats(p, rs, bs)) <= Excess(p, rs) - CompletedBeats(p, rs, bs) * (p.maxPops - 1)
    decreases |bs|
  {
    if bs != [] {
      hide AfterBeat, Completed;
      var n := |bs| - 1;
      var before := AfterBeats(p, rs, bs[..n]);
      BacklogDrains(p, rs, bs[..n]);
      if Completed(p, before, bs[n]) {
        DrainStep(p, before, bs[n]);
        OneMoreTimes(CompletedBeats(p, rs, bs[..n]), p.maxPops - 1);
      } else {
        IncompleteStep(p, before, bs[n]);
      }
    }
  }

  lemma OneMoreTimes(n: nat, d: int)
    ensures (n + 1) * d == n * d + d
  {
  }

  /** With at least two pops a beat, `ceil((e - 1) / (maxPops - 1))` completed beats bring an excess of
      `e` down to at most one, whatever other beats come between them. */
  lemma BacklogDrainTime(p: Policy, rs: seq<Round>, bs: seq<Beat>)
    requires Sanitised(p) && p.maxPops >= 2
    requires CompletedBeats(p, rs, bs) >= DrainTime(p, rs)
    ensures Excess(p, AfterBeats(p, rs, bs)) <= 1
  {
    hide Completed, AfterBeats, CompletedBeats;
    BacklogDrains(p, rs, bs);
    CeilingCovers(Excess(p, rs) - 1, p.maxPops - 1, CompletedBeats(p, rs, bs));
  }

  lemma CeilingCovers(q: int, d: nat, n: nat)
    requires d > 0 && n >= (q + d - 1) / d
    ensures n * d >= q
  {
    var c := (q + d - 1) / d;
    assert c * d >= q;
    assert (n - c) * d >= 0;
  }

  /** With a single pop a beat compaction never shrinks the backlog, since what is popped is replaced by what is
      saved: only rounds pruned for the input budget make it shorter. */
  lemma OnePopNeverDrains(p: Policy, rs: seq<Round>, b: Beat)
    requires Sanitised(p) && p.maxPops == 1
    requires |rs| > p.caps.rounds && TotalTokens(p.tok, rs) <= p.caps.tokens
    requires Completed(p, rs, b) && b.saved.Some?
    ensures |AfterBeat(p, rs, b)| == |rs| - AtMost(b.budgetPops, |rs| - 1)
  {
    hide CompactEffect;
    CompactionPops(p, rs, b.raises, b.base);
    CompactFollowsThePlan(p.tok, p.caps, rs, 1, p.includeRecall, p.splitChunkTokens, b.raises, b.base);
    var k := LeastFit(p.tok, p.caps, rs);
    if k == |rs| {
      LeastFitIsLeast(p.tok, p.caps, rs);
      TokensOfLast(p.tok, rs);
    }
  }

  lemma {:induction false} TokensOfLast(tok: Estimator, rs: seq<Round>)
    requires rs != []
    ensures TotalTokens(tok, rs[|rs| - 1..]) <= TotalTokens(tok, rs)
  {
    if |rs| > 1 {
      TokensOfLast(tok, rs[1..]);
      assert rs[1..][|rs| - 2..] == rs[|rs| - 1..];
    }
  }
}
