/** What the reassemblies of one beat take in from the buffer (`_reassemble_on_adrenalin` in
    `krakey/engines/heartbeat/orchestrator.py`), and which prompts a stimulus gets into. */
module Interrupts {
  import opened BeatRecords
  import opened Commands
  import opened Intake
  import opened Recall
  import opened SelfOutput
  import opened Stimuli

  /** How an interrupt ends: with a new prompt for more stimuli, or with the beat. */
  datatype Reassembly =
    | GoOn(stimuli: seq<Stimulus>, recall: RecallResult, prompt: string)
    | Killed
    | SleptInstead
    | Crashed

  /** How the search for a valid reply ended, or that it has not ended yet. */
  datatype SelfOutcome =
    | Answered(parsed: ParsedSelfOutput)
    | Stopped
    | BrokenOff(why: Reassembly)
    | StillTrying

  /** A sleep command that came during a wait was obeyed on the spot. */
  function SleptInside(o: SelfOutcome): nat {
    if o == BrokenOff(SleptInstead) then 1 else 0
  }

  /** What the scan of the drained batch makes of the beat. */
  predicate Decides(seen: Scanned, next: Reassembly) {
    && (next.Crashed? <==> seen.crashed)
    && (next.Killed? <==> !seen.crashed && seen.action == KillAction)
    && (next.SleptInstead? <==> !seen.crashed && seen.action == SleepAction)
  }

  /** What the interrupts of a beat drained: `joined` by those that made a new prompt, of which there was one if
      `again`, and `last` by the one that ended the beat. */
  datatype Intakes = Intakes(joined: seq<Stimulus>, again: bool, last: seq<Stimulus>)

  const NO_INTAKE := Intakes([], false, [])

  predicate HasUrgent(batch: seq<Stimulus>) {
    exists s :: s in batch && s.adrenalin
  }

  /** A batch was drained to end the beat exactly when the beat was broken off; something in it was urgent, and its
      commands say why. */
  predicate Ends(o: SelfOutcome, last: seq<Stimulus>) {
    if o.BrokenOff? then HasUrgent(last) && Decides(ScanOf(last), o.why) && !o.why.GoOn? else last == []
  }

  /** From queue `q` and the drained stimuli `d` to `q'` and `d'`: the beat was about `before` and is about `after`,
      which is `before` and whatever was taken in, in order, but its commands. Only something urgent makes it take
      anything in, and the first reassembly takes in all that was queued. */
  ghost predicate TakenIn(q: multiset<Stimulus>, d: multiset<Stimulus>, q': multiset<Stimulus>, d': multiset<Stimulus>,
                          before: seq<Stimulus>, after: seq<Stimulus>, i: Intakes, o: SelfOutcome) {
    && d' == d + multiset(i.joined) + multiset(i.last)
    && after == before + Survivors(i.joined)
    && (if i.again then HasUrgent(i.joined) && q <= multiset(i.joined)
        else i.joined == [] && q <= q' + multiset(i.last))
    && Ends(o, i.last)
  }

  lemma NothingTakenIn(q: seq<Stimulus>, d: multiset<Stimulus>, q': seq<Stimulus>, before: seq<Stimulus>,
                       o: SelfOutcome)
    requires q <= q' && !o.BrokenOff?
    ensures TakenIn(multiset(q), d, multiset(q'), d, before, before, NO_INTAKE, o)
  {
    assert q' == q + q'[|q|..];
    assert before + [] == before;
  }

  lemma BatchJoins(q: multiset<Stimulus>, d: multiset<Stimulus>, q': multiset<Stimulus>, before: seq<Stimulus>,
                   arrived: seq<Stimulus>, next: Reassembly)
    requires multiset(arrived) == q && HasUrgent(arrived) && Decides(ScanOf(arrived), next)
    requires next.GoOn? && next.stimuli == before + ScanOf(arrived).kept
    ensures TakenIn(q, d, q', d + q, before, next.stimuli, Intakes(arrived, true, []), StillTrying)
  {
    hide Read, ScanOf, Survivors;
    NoStop(arrived);
  }

  lemma BatchEnds(q: multiset<Stimulus>, d: multiset<Stimulus>, q': multiset<Stimulus>, before: seq<Stimulus>,
                  arrived: seq<Stimulus>, next: Reassembly)
    requires multiset(arrived) == q && HasUrgent(arrived) && Decides(ScanOf(arrived), next) && !next.GoOn?
    ensures TakenIn(q, d, q', d + q, before, before, Intakes([], false, arrived), BrokenOff(next))
  {
    hide Read, ScanOf, Survivors;
    NoSurvivors();
    assert before + [] == before;
  }

  lemma NoSurvivors()
    ensures Survivors([]) == []
  {
  }

  function Both(i: Intakes, j: Intakes): Intakes {
    Intakes(i.joined + j.joined, i.again || j.again, j.last)
  }

  lemma TakenInTwice(q: multiset<Stimulus>, d: multiset<Stimulus>, q1: multiset<Stimulus>, d1: multiset<Stimulus>,
                     q2: multiset<Stimulus>, d2: multiset<Stimulus>, a: seq<Stimulus>, b: seq<Stimulus>,
                     c: seq<Stimulus>, i: Intakes, j: Intakes, o: SelfOutcome)
    requires TakenIn(q, d, q1, d1, a, b, i, StillTrying) && TakenIn(q1, d1, q2, d2, b, c, j, o)
    ensures TakenIn(q, d, q2, d2, a, c, Both(i, j), o)
    ensures i == NO_INTAKE ==> Both(i, j) == j
  {
    hide Survivors, Ends, HasUrgent;
    NothingLast(i.last);
    StillUrgent(i.joined, j.joined);
    SurvivorsAppend(i.joined, j.joined);
    assert a + Survivors(i.joined) + Survivors(j.joined) == a + (Survivors(i.joined) + Survivors(j.joined));
    assert q1 <= multiset(j.joined) || (j.joined == [] && q1 <= q2 + multiset(j.last));
    assert [] + j.joined == j.joined;
  }

  lemma StillUrgent(a: seq<Stimulus>, b: seq<Stimulus>)
    ensures HasUrgent(a) || HasUrgent(b) ==> HasUrgent(a + b)
  {
    forall s | (s in a || s in b) && s.adrenalin ensures s in a + b {
    }
  }

  lemma NothingLast(last: seq<Stimulus>)
    requires Ends(StillTrying, last)
    ensures last == []
  {
  }

  lemma StoppedTakenIn(q: multiset<Stimulus>, d: multiset<Stimulus>, q': multiset<Stimulus>, d': multiset<Stimulus>,
                       before: seq<Stimulus>, after: seq<Stimulus>, i: Intakes)
    requires TakenIn(q, d, q', d', before, after, i, StillTrying)
    ensures TakenIn(q, d, q', d', before, after, i, Stopped)
  {
    hide Survivors, ScanOf;
  }

  // ---- what a beat ends up being about ------------------------------------

  /** What a search for a reply leaves its traces in. */
  datatype Traces = Traces(
    drained: multiset<Stimulus>, pushed: multiset<Stimulus>, retries: map<nat, nat>, built: seq<Sight>)

  /** What was queued was drained, `back` was pushed back, and then the interrupts took in what they took in. */
  ghost predicate BeatBooks(d: multiset<Stimulus>, p: multiset<Stimulus>, d': multiset<Stimulus>,
                            p': multiset<Stimulus>, drained: seq<Stimulus>, back: seq<Stimulus>, i: Intakes) {
    && d' == d + multiset(drained) + multiset(i.joined) + multiset(i.last)
    && p' == p + multiset(back)
    && (if i.again then HasUrgent(i.joined) && multiset(back) <= multiset(i.joined) else i.joined == [])
  }

  /** A search for a reply about these stimuli, from the finalized recall to its end `o`: exactly what memory had
      nothing for was pushed back, as far as it had a retry left, and the last prompt was built from `seen`. */
  ghost predicate Searched(t: Traces, t': Traces, drained: seq<Stimulus>, queries: seq<Query>, r: RecallResult,
                           about: seq<Stimulus>, seen: Sight, i: Intakes, o: SelfOutcome) {
    && BeatBooks(t.drained, t.pushed, t'.drained, t'.pushed, drained, PushedBack(t.retries, r.uncovered), i)
    && t'.retries == Retried(t.retries, r.uncovered) && BackAsFound(queries, t.retries, r.uncovered)
    && t.built < t'.built && t'.built[|t'.built| - 1] == seen
    && seen.stimuli == about + Survivors(i.joined) && Ends(o, i.last)
  }

  lemma SearchedFrom(t: Traces, queue: seq<Stimulus>, t': Traces, q': multiset<Stimulus>, queries: seq<Query>,
                     r: RecallResult, about: seq<Stimulus>, seen: Sight, i: Intakes, o: SelfOutcome)
    requires t'.retries == Retried(t.retries, r.uncovered) && BackAsFound(queries, t.retries, r.uncovered)
    requires t'.pushed == t.pushed + multiset(PushedBack(t.retries, r.uncovered))
    requires t.built < t'.built && t'.built[|t'.built| - 1] == seen
    requires TakenIn(multiset(queue + PushedBack(t.retries, r.uncovered)), t.drained, q', t'.drained, about,
                     seen.stimuli, i, o)
    ensures Searched(t, t', [], queries, r, about, seen, i, o)
  {
    hide PushedBack, BackAsFound, Survivors, Ends, Retried;
  }

  lemma SearchedSince(t0: Traces, t: Traces, t': Traces, drained: seq<Stimulus>, queries: seq<Query>, r: RecallResult,
                      about: seq<Stimulus>, seen: Sight, i: Intakes, o: SelfOutcome)
    requires Searched(t, t', [], queries, r, about, seen, i, o)
    requires t == t0.(drained := t0.drained + multiset(drained))
    ensures Searched(t0, t', drained, queries, r, about, seen, i, o)
  {
    hide PushedBack, BackAsFound, Survivors, Ends, Retried;
  }

  /** Of the stimuli of the batch a reassembly takes in again exactly those that were pushed back; of the others it
      takes in none twice. */
  lemma TakenInAgain(l: Ledger, nextId: nat, retries: map<nat, nat>, l': Ledger, queue': multiset<Stimulus>,
                     nextId': nat, retries': map<nat, nat>, drained: seq<Stimulus>, back: seq<Stimulus>, i: Intakes,
                     s: Stimulus)
    requires Balanced(l, multiset(drained), nextId, retries) && Balanced(l', queue', nextId', retries')
    requires BeatBooks(l.drained, l.pushed, l'.drained, l'.pushed, drained, back, i) && multiset(back)[s] <= 1
    requires s in back ==> s in l.drained + multiset(drained)
    ensures s in drained ==> multiset(drained)[s] == 1
    ensures s in drained ==> multiset(i.joined)[s] == if i.again then multiset(back)[s] else 0
    ensures s !in drained ==> multiset(i.joined)[s] <= 1
  {
    hide Balanced;
    Accounted(l, multiset(drained), nextId, retries, s);
    Accounted(l', queue', nextId', retries', s);
    assert l'.drained[s]
        == l.drained[s] + multiset(drained)[s] + multiset(i.joined)[s] + multiset(i.last)[s];
    assert l'.pushed[s] == l.pushed[s] + multiset(back)[s];
    if s !in l.arrived {
      NeverPushed(l, multiset(drained), nextId, retries, s);
      assert s !in back;
      assert s !in multiset(back);
    }
  }

  lemma NeverPushed(l: Ledger, queue: multiset<Stimulus>, nextId: nat, retries: map<nat, nat>, s: Stimulus)
    requires Balanced(l, queue, nextId, retries) && s !in l.arrived
    ensures s !in l.pushed && s !in l.drained && s !in queue
  {
    Accounted(l, queue, nextId, retries, s);
  }

  /** How often a stimulus is in what a beat with an unbroken scan ends up being about. */
  lemma TimesInBeat(drained: seq<Stimulus>, joined: seq<Stimulus>, s: Stimulus)
    requires !Ended(ScanOf(drained))
    ensures var after := ScanOf(drained).kept + Survivors(joined);
      multiset(after)[s] == if Read(s) == NotACommand then multiset(drained)[s] + multiset(joined)[s] else 0
  {
    hide Read, ScanOf, Survivors;
    NoStop(drained);
    SurvivorsCount(drained, s);
    SurvivorsCount(joined, s);
  }

  /** Exactly what memory had nothing for was pushed back, unless it had been before. */
  ghost predicate PushedAsFound(before: multiset<Stimulus>, after: multiset<Stimulus>, queries: seq<Query>,
                                retries: map<nat, nat>) {
    forall s :: after[s] == before[s] + if NothingFound(queries, s) && RetriesOf(retries, s.id) == 0 then 1 else 0
  }

  /** A stimulus is twice in what a beat ends up being about exactly if it came with the drained batch, was pushed
      back, and a reassembly took it in again; every other one is there once. */
  ghost predicate Doubled(drained: seq<Stimulus>, queries: seq<Query>, retries: map<nat, nat>, final: seq<Stimulus>,
                          again: bool) {
    forall s :: s in final ==>
                  (multiset(final)[s]
                   == if s in drained && again && NothingFound(queries, s) && RetriesOf(retries, s.id) == 0 then 2
                      else 1)
  }

  /** These are traces in sound books. */
  ghost predicate Sound(t: Traces, arrived: multiset<Stimulus>, queue: multiset<Stimulus>, nextId: nat) {
    Balanced(Ledger(arrived, t.drained, t.pushed), queue, nextId, t.retries)
  }

  /** What the search of a beat means for its stimuli. */
  lemma WhatSearchesDo(t: Traces, a: multiset<Stimulus>, n: nat, t': Traces, a': multiset<Stimulus>,
                       queue': multiset<Stimulus>, n': nat, drained: seq<Stimulus>, queries: seq<Query>,
                       r: RecallResult, seen: Sight, i: Intakes, o: SelfOutcome)
    requires Sound(t, a, multiset(drained), n) && Sound(t', a', queue', n')
    requires Searched(t, t', drained, queries, r, ScanOf(drained).kept, seen, i, o) && !Ended(ScanOf(drained))
    requires forall s :: NothingFound(queries, s) ==> s in t.drained + multiset(drained)
    ensures PushedAsFound(t.pushed, t'.pushed, queries, t.retries)
        && Doubled(drained, queries, t.retries, seen.stimuli, i.again)
    ensures t'.drained == t.drained + multiset(drained) + multiset(i.joined) + multiset(i.last)
    ensures seen.stimuli == ScanOf(drained).kept + Survivors(i.joined) && Ends(o, i.last)
    ensures if i.again then HasUrgent(i.joined) else i.joined == []
  {
    var l, l' := Ledger(a, t.drained, t.pushed), Ledger(a', t'.drained, t'.pushed);
    var m, final := t.retries, seen.stimuli;
    hide Balanced, PushedBack, RetriesOf, NothingFound, Survivors, ScanOf, Read, Ends, Retried;
    var back := PushedBack(m, r.uncovered);
    forall s ensures l'.pushed[s] == l.pushed[s] + multiset(back)[s] {
      assert l'.pushed[s] == (l.pushed + multiset(back))[s];
    }
    forall s | s in final
      ensures multiset(final)[s]
           == if s in drained && i.again && NothingFound(queries, s) && RetriesOf(m, s.id) == 0 then 2 else 1 {
      assert s in back ==> s in multiset(back);
      TakenInAgain(l, n, m, l', queue', n', t'.retries, drained, back, i, s);
      TimesInBeat(drained, i.joined, s);
      assert s in multiset(final);
      assert s in drained <==> s in multiset(drained);
    }
  }

  function Plain(id: nat, adrenalin: bool): Stimulus {
    Stimulus(id, "system_event", "system:tool", "done", id, adrenalin)
  }

  /** One that is there twice: nothing was found for it, it was pushed back, and an urgent one came during the wait. */
  lemma OneDoubled()
    ensures var s, u := Plain(0, false), Plain(1, true);
      var queries, r := [Query(s, [])], RecallResult([], [], [s]);
      var seen := Sight([s, s, u], RecallResult([], [s, u], [s]), [], Counts(0, 0, 0, ""), 1, 0);
      var t := Traces(multiset{}, multiset{}, map[], []);
      var t' := Traces(multiset{s, s, u}, multiset{s}, map[0 := 1], [seen]);
      && Sound(t, multiset{s}, multiset{s}, 1) && Sound(t', multiset{s, u}, multiset{}, 2)
      && r.uncovered == Covered(queries, false)
      && Searched(t, t', [s], queries, r, ScanOf([s]).kept, seen, Intakes([s, u], true, []), Stopped)
      && multiset(seen.stimuli)[s] == 2
  {
    hide Sound, ScanOf, Searched, Covered;
    var s, u := Plain(0, false), Plain(1, true);
    DoubledSearch(s, u, RecallResult([], [], [s]),
        Sight([s, s, u], RecallResult([], [s, u], [s]), [], Counts(0, 0, 0, ""), 1, 0));
  }

  lemma DoubledSearch(s: Stimulus, u: Stimulus, r: RecallResult, seen: Sight)
    requires s == Plain(0, false) && u == Plain(1, true) && r.uncovered == [s] && seen.stimuli == [s, s, u]
    ensures var t := Traces(multiset{}, multiset{}, map[], []);
      var t' := Traces(multiset{s, s, u}, multiset{s}, map[0 := 1], [seen]);
      && Sound(t, multiset{s}, multiset{s}, 1) && Sound(t', multiset{s, u}, multiset{}, 2)
      && r.uncovered == Covered([Query(s, [])], false)
      && Searched(t, t', [s], [Query(s, [])], r, ScanOf([s]).kept, seen, Intakes([s, u], true, []), Stopped)
      && multiset(seen.stimuli)[s] == 2
  {
    hide Sound, ScanOf, Survivors, Retried, PushedBack, BackAsFound, Covered, BeatBooks;
    OneGoesBack([Query(s, [])], s);
    EventsAreKept(s, u);
    DoubledBooks(s, u);
    assert [s, s, u] == [s] + [s, u];
  }

  lemma OneGoesBack(queries: seq<Query>, s: Stimulus)
    requires queries == [Query(s, [])] && s.id == 0
    ensures PushedBack(map[], [s]) == [s] && Retried(map[], [s]) == map[0 := 1]
    ensures BackAsFound(queries, map[], [s]) && Covered(queries, false) == [s]
  {
    assert queries[..0] == [];
    assert [s][..0] == [];
    assert PushedBack(map[], [s]) == [s];
    forall x ensures multiset(PushedBack(map[], [s]))[x]
                  == if NothingFound(queries, x) && RetriesOf(map[], x.id) == 0 then 1 else 0 {
      assert x == s ==> queries[0].stimulus == x && queries[0].results == [];
    }
  }

  lemma EventsAreKept(s: Stimulus, u: Stimulus)
    requires s == Plain(0, false) && u == Plain(1, true)
    ensures ScanOf([s]).kept == [s] && Survivors([s, u]) == [s, u]
  {
    assert [s][..0] == [] && [s, u][..1] == [s];
    assert Survivors([]) == [] && Survivors([s]) == [s];
    assert ScanOf([]) == Scanned([], NoAction, [], false);
  }

  lemma DoubledBooks(s: Stimulus, u: Stimulus)
    requires s == Plain(0, false) && u == Plain(1, true)
    ensures Sound(Traces(multiset{}, multiset{}, map[], []), multiset{s}, multiset{s}, 1)
    ensures forall b :: Sound(Traces(multiset{s, s, u}, multiset{s}, map[0 := 1], b), multiset{s, u}, multiset{}, 2)
    ensures BeatBooks(multiset{}, multiset{}, multiset{s, s, u}, multiset{s}, [s], [s], Intakes([s, u], true, []))
    ensures multiset([s, s, u])[s] == 2
  {
    assert u in [s, u] && multiset([s]) <= multiset([s, u]);
    forall b ensures Sound(Traces(multiset{s, s, u}, multiset{s}, map[0 := 1], b), multiset{s, u}, multiset{}, 2) {
      assert multiset{s, s, u} == multiset{s, u} + multiset{s};
    }
  }

  /** Some prompt from number `from` on is about `s`. */
  predicate Shown(sights: seq<Sight>, from: nat, s: Stimulus) {
    exists i :: from <= i < |sights| && s in sights[i].stimuli
  }

  /** Of a drained batch exactly the stimuli that are no commands get into a prompt, and none of them if the beat
      makes no prompt. */
  lemma ShownExactly(sights: seq<Sight>, from: nat, drained: seq<Stimulus>, more: seq<Stimulus>, s: Stimulus)
    requires CleanSights(sights) && from <= |sights| && s in drained
    requires from < |sights| ==>
               !Ended(ScanOf(drained)) && sights[|sights| - 1].stimuli == ScanOf(drained).kept + more
    ensures Shown(sights, from, s) <==> from < |sights| && Read(s) == NotACommand
  {
    hide Read, ScanOf, Survivors;
    if from < |sights| && Read(s) == NotACommand {
      NoStop(drained);
      SurvivorsCount(drained, s);
      assert s in multiset(drained) && s in multiset(ScanOf(drained).kept);
      assert s in sights[|sights| - 1].stimuli;
    }
  }

  ghost predicate CleanSights(sights: seq<Sight>) {
    forall i :: 0 <= i < |sights| ==> NoCommands(sights[i].stimuli)
  }
}
