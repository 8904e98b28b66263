/** One heartbeat and whole runs of heartbeats (`krakey/engines/heartbeat/orchestrator.py`). */
module Orchestrator {
  import opened Basics
  import opened BeatRecords
  import opened Commands
  import opened Compact
  import opened Handover
  import opened History
  import opened Intake
  import opened Interrupts
  import opened Recall
  import opened SelfOutput
  import opened Sorting
  import opened Stimuli
  import F = Fatigue
  import W = WindowRuns

  const SPLIT_CHUNK_TOKENS := 1000
  const MAX_PRUNES := 10
  const DEFAULT_INPUT_BUDGET := 128000
  const DEFAULT_MAX_POPS := 5

  // ---- the environment ---------------------------------------------------

  datatype SleepResult = NothingToDo | CycleRan | CycleFailed

  /** The engines that are foreign code. Those indexed by a number may answer differently at every
      suspension; a missing reply or translation is one that raised or timed out. */
  datatype Minds = Minds(
    build: Sight -> string,
    reply: nat -> Option<string>,
    asksForSleep: string -> bool,
    translate: (nat, string, string) -> Option<Translation>,
    sleep: nat -> SleepResult,
    nodes: nat -> nat,
    edges: nat -> nat,
    fatigue: nat -> int)

  datatype Config = Config(
    maxPops: int,
    includeRecall: bool,
    maxInputTokens: Option<int>,
    forceSleepAt: int,
    thresholds: F.Thresholds)

  function InputBudget(c: Config): int {
    if c.maxInputTokens == None || c.maxInputTokens == Some(0) then DEFAULT_INPUT_BUDGET else c.maxInputTokens.value
  }

  // ---- small facts -------------------------------------------------------

  ghost predicate AllWithin(stimuli: seq<Stimulus>, s: multiset<Stimulus>) {
    forall x :: x in stimuli ==> x in s
  }

  lemma JoinedStimuli(stimuli: seq<Stimulus>, arrived: seq<Stimulus>, drained: multiset<Stimulus>)
    requires NoCommands(stimuli) && AllWithin(stimuli, drained)
    ensures var all := stimuli + ScanOf(arrived).kept;
      NoCommands(all) && AllWithin(all, drained + multiset(arrived))
  {
    hide Read, ScanOf;
    KeptAreNoCommands(arrived);
    forall s | s in stimuli + ScanOf(arrived).kept ensures s in drained + multiset(arrived) {
      assert s in stimuli || s in ScanOf(arrived).kept;
    }
  }

  lemma JoinedTwice(arrived: seq<Stimulus>, queue: seq<Stimulus>, drained: multiset<Stimulus>,
                    pushed: multiset<Stimulus>, stimuli: seq<Stimulus>)
    requires multiset(arrived) == multiset(queue) && AllWithin(stimuli, drained)
    requires forall s :: s in queue && s in drained ==> s in pushed
    ensures forall s :: s in ScanOf(arrived).kept && s in stimuli ==> s in pushed
  {
    hide Read, ScanOf;
    SameMembers(arrived, queue);
    KeptAreNoCommands(arrived);
  }

  lemma UrgentDrained(queue: seq<Stimulus>, arrived: seq<Stimulus>)
    requires multiset(arrived) == multiset(queue) && HasUrgent(queue)
    ensures HasUrgent(arrived)
  {
    SameMembers(queue, arrived);
  }

  lemma {:induction false} WholeJobsSnoc(rs: seq<Round>, r: Round, includeRecall: bool)
    ensures WholeJobs(rs + [r], includeRecall) == WholeJobs(rs, includeRecall) + [JobFor(r, includeRecall)]
  {
    if rs == [] {
      assert [] + [r] == [r] && [r][1..] == [];
    } else {
      WholeJobsSnoc(rs[1..], r, includeRecall);
      assert (rs + [r])[1..] == rs[1..] + [r];
    }
  }

  /** From window `m` to window `w`: `n` rounds left from the front, and each of them was handed to
      compaction whole, whether or not that raised. */
  ghost predicate PrunedTo(d: Disk, includeRecall: bool, m: Mirror, before: seq<Job>, n: nat, w: Mirror,
      after: seq<Job>) {
    && n <= |m.rounds|
    && w == Pops(d, m, n) && w.rounds == m.rounds[n..] && w.evicted == m.evicted + m.rounds[..n]
    && after == before + WholeJobs(m.rounds[..n], includeRecall)
  }

  lemma PrunedNothing(d: Disk, includeRecall: bool, m: Mirror, before: seq<Job>)
    ensures PrunedTo(d, includeRecall, m, before, 0, m, before)
  {
    assert m.rounds[..0] == [];
  }

  lemma PrunedOneMore(d: Disk, includeRecall: bool, m: Mirror, before: seq<Job>, n: nat, w: Mirror, jobs: seq<Job>)
    requires PrunedTo(d, includeRecall, m, before, n, w, jobs) && w.rounds != []
    ensures PrunedTo(d, includeRecall, m, before, n + 1, Popped(d, w), jobs + [JobFor(w.rounds[0], includeRecall)])
  {
    hide WholeJobs, Popped, JobFor;
    PopsShape(d, m, n + 1);
    WholeJobsSnoc(m.rounds[..n], m.rounds[n], includeRecall);
    assert m.rounds[..n + 1] == m.rounds[..n] + [m.rounds[n]];
  }

  lemma PrunedTwice(d: Disk, includeRecall: bool, m: Mirror, a: seq<Job>, i: nat, w: Mirror, b: seq<Job>,
                    j: nat, x: Mirror, c: seq<Job>)
    requires PrunedTo(d, includeRecall, m, a, i, w, b) && PrunedTo(d, includeRecall, w, b, j, x, c)
    ensures PrunedTo(d, includeRecall, m, a, i + j, x, c)
  {
    hide WholeJobs, Pops;
    PopsCompose(d, m, i, j);
    PopsShape(d, m, i + j);
    WholeJobsAppend(m.rounds[..i], m.rounds[i..][..j], includeRecall);
    assert m.rounds[..i] + m.rounds[i..][..j] == m.rounds[..i + j];
  }

  lemma {:induction false} WholeJobsAppend(a: seq<Round>, b: seq<Round>, includeRecall: bool)
    ensures WholeJobs(a + b, includeRecall) == WholeJobs(a, includeRecall) + WholeJobs(b, includeRecall)
    decreases |b|
  {
    hide WholeJobs, JobFor;
    if b == [] {
      assert a + b == a;
      NoWholeJobs(includeRecall);
    } else {
      var n := |b| - 1;
      WholeJobsAppend(a, b[..n], includeRecall);
      WholeJobsSnoc(a + b[..n], b[n], includeRecall);
      WholeJobsSnoc(b[..n], b[n], includeRecall);
      assert a + b[..n] + [b[n]] == a + b && b[..n] + [b[n]] == b;
    }
  }

  lemma NoWholeJobs(includeRecall: bool)
    ensures WholeJobs([], includeRecall) == []
  {
  }

  /** What became of a beat that got as far as compaction. */
  datatype Thought = CompactionRaised | Unanswered(why: SelfOutcome) | Decided(parsed: ParsedSelfOutput)

  datatype BeatOutcome =
    | CommandCrashed
    | KilledByCommand
    | SleptOnCommand
    | ForcedToSleep
    | BrokenBeat(thought: Thought)
    | SleptVoluntarily(parsed: ParsedSelfOutput)
    | Idled(parsed: ParsedSelfOutput)

  /** `total` has left the window or is in it, oldest first, and what has left was handed to compaction. */
  ghost predicate Whole(total: seq<Round>, g: Setting, evicted: seq<Round>, rounds: seq<Round>, jobs: seq<Job>) {
    evicted + rounds == total && HandedOver(g, jobs, evicted, 0)
  }

  /** What a beat was about: the drained batch, the recall queries it was finalized on and their result, the
      counts, what its last prompt was built from, what its interrupts took in, when its decision was translated, and
      the beat as a step of the backlog model. */
  datatype BeatRecord = BeatRecord(drained: seq<Stimulus>, queries: seq<Query>, recall: RecallResult, counts: Counts,
      seen: Sight, taken: Intakes, at: nat, step: W.Beat)

  /** The records a reply goes into. */
  datatype Books = Books(
    sent: seq<Attempt>, log: seq<PromptEntry>, saved: seq<Round>, rounds: seq<Round>, ingested: seq<string>,
    dispatched: seq<Dispatch>)

  /** The translation of a decision, if there is a decision and it can be translated at suspension number `at`. */
  function TranslationOf(minds: Minds, p: ParsedSelfOutput, at: nat): Option<Translation> {
    if NoDecision(p) then None else minds.translate(at, p.decision, p.raw)
  }

  /** The beat's last attempt got a complete reply to its last prompt; the log has one entry for the beat, with that
      prompt and that reply; the round at the end of the window is made of the reply, these stimuli and this recall
      result; the tool feedback among these stimuli was offered to memory; and the translated calls but the sleep
      calls were dispatched, with that recall result as their context. */
  ghost predicate ReplyRecorded(minds: Minds, heartbeat: nat, p: ParsedSelfOutput, stimuli: seq<Stimulus>,
                                r: RecallResult, seen: Sight, at: nat, slept: bool, before: Books, after: Books) {
    && seen.heartbeat == heartbeat
    && p == Parsed(p.raw) && Complete(p, minds.asksForSleep(p.raw))
    && |before.sent| < |after.sent|
    && after.sent[|after.sent| - 1] == Attempt(heartbeat, minds.build(seen), Some(p.raw))
    && after.log == Recorded(before.log, PromptEntry(heartbeat, minds.build(seen), Some(p.raw)))
    && after.saved == before.saved + [RoundOf(heartbeat, p, stimuli, r)]
    && after.rounds != [] && after.rounds[|after.rounds| - 1] == RoundOf(heartbeat, p, stimuli, r)
    && after.ingested == before.ingested + FeedbackOf(stimuli)
    && after.dispatched == before.dispatched + DispatchesOf(heartbeat, TranslationOf(minds, p, at), slept, r.nodes)
  }

  predicate ShortCircuit(o: BeatOutcome) {
    o.CommandCrashed? || o.KilledByCommand? || o.SleptOnCommand? || o.ForcedToSleep?
  }

  /** The beat ended in an exception, which ends the loop, or the observation ended within it. */
  predicate Escapes(o: BeatOutcome) {
    o.CommandCrashed?
    || (o.BrokenBeat? && (o.thought.CompactionRaised? || o.thought == Unanswered(StillTrying)
                          || o.thought == Unanswered(BrokenOff(Crashed))))
  }

  /** Recall was finalized. */
  predicate Recalled(o: BeatOutcome) {
    Replied(o) || (o.BrokenBeat? && !o.thought.CompactionRaised?)
  }

  /** How often the beat asked the memory engine to sleep. */
  function Sleeps(o: BeatOutcome): nat {
    if o.SleptOnCommand? || o.ForcedToSleep? || o.SleptVoluntarily? then 1
    else if o.BrokenBeat? && o.thought.Unanswered? then SleptInside(o.thought.why)
    else 0
  }

  predicate Replied(o: BeatOutcome) {
    o.SleptVoluntarily? || o.Idled?
  }

  /** How the search of a beat that recalled ended. */
  function SearchOf(o: BeatOutcome): SelfOutcome {
    match o
    case BrokenBeat(Unanswered(why)) => why
    case SleptVoluntarily(p) => Answered(p)
    case Idled(p) => Answered(p)
    case _ => StillTrying
  }

  /** The runtime's fields a heartbeat works on. The ghost fields record what it did: prompts built, calls of the
      LLM, feedback offered to memory, sleeps requested, rounds saved, and its beats as steps of the backlog model. */
  class Runtime {
    const inbox: Inbox
    const window: SlidingWindow
    const gm: Compactor
    const minds: Minds
    const config: Config
    const horizon: nat
    var heartbeatCount: nat
    var sleepCycles: nat
    var promptLog: seq<PromptEntry>
    var dispatched: seq<Dispatch>
    ghost var built: seq<Sight>
    ghost var sent: seq<Attempt>
    ghost var ingested: seq<string>
    ghost var sleepRequests: nat
    ghost var saved: seq<Round>
    ghost var history: seq<W.Beat>
    ghost const start: seq<Round>

    /** `maxPops` is the configured value, which the heartbeat engine sanitizes. */
    constructor (inbox: Inbox, window: SlidingWindow, gm: Compactor, minds: Minds, config: Config,
                 maxPops: ConfigValue, horizon: nat)
      requires inbox.Valid() && window.evicted == [] && gm.jobs == []
      requires window.caps.tokens > 0 && window.caps.rounds > 0
      ensures Valid()
      ensures this.inbox == inbox && this.window == window && this.gm == gm && this.minds == minds
      ensures this.config == config.(maxPops := SanitizePositiveInt(maxPops, DEFAULT_MAX_POPS))
          && this.horizon == horizon
      ensures heartbeatCount == 0 && sleepCycles == 0 && promptLog == [] && dispatched == []
      ensures built == [] && sent == [] && saved == [] && history == [] && start == window.rounds
      ensures ingested == [] && sleepRequests == 0
    {
      this.inbox, this.window, this.gm, this.minds := inbox, window, gm, minds;
      this.config := config.(maxPops := SanitizePositiveInt(maxPops, DEFAULT_MAX_POPS));
      this.horizon := horizon;
      heartbeatCount, sleepCycles, promptLog, dispatched := 0, 0, [], [];
      built, sent, saved, history, start := [], [], [], [], window.rounds;
      ingested, sleepRequests := [], 0;
      new;
      hide Inbox.Valid, CompactEffect;
      assert [] + window.rounds == window.rounds == window.rounds + [];
      NothingToHandOver(Handing(), 0);
    }

    // ---- what a call did to the window ---------------------------------------

    /** How many rounds left the window since the call began. */
    twostate function Pruned(): (n: int)
      reads window`rounds
    {
      |old(window.rounds)| - |window.rounds|
    }

    twostate predicate PrunedOnly()
      reads window, window.file, gm
    {
      && |window.rounds| <= |old(window.rounds)|
      && PrunedTo(window.Store(), config.includeRecall, old(window.View()), old(gm.jobs), Pruned(), window.View(),
         gm.jobs)
    }

    // ---- prompts and the input budget ----------------------------------------

    function SightOf(stimuli: seq<Stimulus>, r: RecallResult, counts: Counts): Sight
      reads this`heartbeatCount, window`rounds, inbox`tick
    {
      Sight(stimuli, r, window.rounds, counts, heartbeatCount, inbox.tick)
    }

    predicate Fits(prompt: string) {
      window.tok(prompt) <= InputBudget(config)
    }

    /** `a` was too long, so its oldest round was pruned, and `b` was built instead. */
    ghost predicate PruneStep(a: Sight, b: Sight) {
      && !Fits(minds.build(a)) && a.rounds != [] && b.rounds == a.rounds[1..]
      && b.stimuli == a.stimuli && b.counts == a.counts && b.heartbeat == a.heartbeat
    }

    ghost predicate PruneSteps(sights: seq<Sight>, from: nat) {
      forall i :: from <= i < |sights| - 1 ==> PruneStep(sights[i], sights[i + 1])
    }

    lemma OnePruneMore(sights: seq<Sight>, s: Sight, from: nat)
      requires sights != [] && PruneSteps(sights, from) && PruneStep(sights[|sights| - 1], s)
      ensures PruneSteps(sights + [s], from)
    {
      hide PruneStep;
      forall i | from <= i < |sights| ensures PruneStep((sights + [s])[i], (sights + [s])[i + 1]) {
        assert i < |sights| - 1 ==> PruneStep(sights[i], sights[i + 1]);
      }
    }

    lemma NothingPrunedYet(sights: seq<Sight>, s: Sight)
      ensures PruneSteps(sights + [s], |sights|)
    {
    }

    /** Prompt number `i` fits the input budget, or was built over an empty window, or ten rounds were pruned for it. */
    ghost predicate Affordable(sights: seq<Sight>, i: int) {
      && 0 <= i < |sights|
      && (Fits(minds.build(sights[i])) || sights[i].rounds == []
          || (i >= MAX_PRUNES && PruneSteps(sights[..i + 1], i - MAX_PRUNES)))
    }

    /** What was sent is prompt number `i` of its beat. */
    ghost predicate IsPrompt(a: Attempt, sights: seq<Sight>, i: int) {
      Affordable(sights, i) && a.prompt == minds.build(sights[i]) && a.heartbeat == sights[i].heartbeat
    }

    ghost predicate WasPrompt(a: Attempt, sights: seq<Sight>) {
      exists i :: IsPrompt(a, sights, i)
    }

    ghost predicate AllAffordable(attempts: seq<Attempt>, sights: seq<Sight>) {
      forall j :: 0 <= j < |attempts| ==> WasPrompt(attempts[j], sights)
    }

    /** No command was ever in a prompt, and no prompt was ever sent without regard to the input budget. */
    ghost predicate PromptsSound()
      reads `built, `sent
    {
      CleanSights(built) && AllAffordable(sent, built)
    }

    lemma OneMoreBuilt(attempts: seq<Attempt>, sights: seq<Sight>, s: Sight)
      requires AllAffordable(attempts, sights)
      ensures AllAffordable(attempts, sights + [s])
    {
      hide Fits, PruneSteps;
      forall j | 0 <= j < |attempts| ensures WasPrompt(attempts[j], sights + [s]) {
        assert WasPrompt(attempts[j], sights);
        var i :| IsPrompt(attempts[j], sights, i);
        assert (sights + [s])[..i + 1] == sights[..i + 1];
        assert IsPrompt(attempts[j], sights + [s], i);
      }
    }

    lemma OneMoreSent(attempts: seq<Attempt>, sights: seq<Sight>, a: Attempt, i: int)
      requires AllAffordable(attempts, sights) && IsPrompt(a, sights, i)
      ensures AllAffordable(attempts + [a], sights)
    {
      hide IsPrompt;
      assert WasPrompt(a, sights);
    }

    /** `prompt` is the prompt of this beat built last, and may be sent. */
    ghost predicate Current(prompt: string)
      reads `built, `heartbeatCount
    {
      && built != [] && Affordable(built, |built| - 1)
      && prompt == minds.build(built[|built| - 1]) && built[|built| - 1].heartbeat == heartbeatCount
    }

    /** `prompt` is the prompt built last, and it was built from these at some moment. */
    ghost predicate Latest(stimuli: seq<Stimulus>, r: RecallResult, counts: Counts, prompt: string)
      reads `built, `heartbeatCount, window`rounds
    {
      && built != [] && Current(prompt)
      && built[|built| - 1] == Sight(stimuli, r, window.rounds, counts, heartbeatCount, built[|built| - 1].moment)
    }

    lemma StepOfPruning(a: Sight, r: RecallResult, moment: nat)
      requires !Fits(minds.build(a)) && a.rounds != []
      ensures PruneStep(a, Sight(a.stimuli, r, a.rounds[1..], a.counts, a.heartbeat, moment))
    {
    }

    /** A prompt that fits, or has nothing left to prune, or had ten rounds pruned for it. */
    lemma MaySend(from: nat, stimuli: seq<Stimulus>, r: RecallResult, counts: Counts)
      requires from < |built| && PruneSteps(built, from) && built[|built| - 1] == SightOf(stimuli, r, counts)
      requires Fits(minds.build(SightOf(stimuli, r, counts))) || window.rounds == [] || |built| == from + 1 + MAX_PRUNES
      ensures Latest(stimuli, r, counts, minds.build(SightOf(stimuli, r, counts)))
    {
      hide Fits, PruneStep;
      assert built[..|built|] == built;
    }

    method BuildSelfPrompt(stimuli: seq<Stimulus>, r: RecallResult, counts: Counts) returns (prompt: string)
      requires NoCommands(stimuli) && PromptsSound()
      modifies `built
      ensures prompt == minds.build(SightOf(stimuli, r, counts))
      ensures built == old(built) + [SightOf(stimuli, r, counts)] && PromptsSound()
    {
      hide AllAffordable;
      OneMoreBuilt(sent, built, SightOf(stimuli, r, counts));
      prompt := minds.build(SightOf(stimuli, r, counts));
      built := built + [SightOf(stimuli, r, counts)];
    }

    /** One round of pruning: the oldest round goes into memory, or is dropped when that raises, and recall
        is run again for these stimuli. */
    method PruneOldest(stimuli: seq<Stimulus>, counts: Counts) returns (prompt: string, r: RecallResult)
      requires window.rounds != [] && NoCommands(stimuli) && PromptsSound()
      requires inbox.Valid() && inbox.buffer.recalledUpTo == 0 && AllWithin(stimuli, inbox.ledger.drained)
      modifies `built, window, window.file, gm
      modifies inbox`recall, inbox`nextId, inbox`ledger, inbox`tick, inbox`searches, inbox`stop, inbox.buffer
      ensures inbox.Valid() && inbox.Waited() && fresh(inbox.recall)
      ensures inbox.recall.processed == stimuli
      ensures IsResult(inbox.cost, inbox.recallBudget, inbox.recall.queries, r)
      ensures window.View() == Popped(window.Store(), old(window.View())) && window.rounds == old(window.rounds)[1..]
      ensures gm.jobs == old(gm.jobs) + [JobFor(old(window.rounds)[0], config.includeRecall)]
      ensures prompt == minds.build(SightOf(stimuli, r, counts))
      ensures built == old(built) + [SightOf(stimuli, r, counts)] && PromptsSound()
    {
      hide Inbox.Valid, IsResult, Popped, JobFor, NoCommands, PromptsSound;
      var oldest := window.PopOldest();
      var ok := gm.CompactRound(oldest.value, config.includeRecall);
      inbox.Await();
      r := inbox.FreshRecall(stimuli);
      prompt := BuildSelfPrompt(stimuli, r, counts);
    }

    /** Prune until the prompt fits, the window is empty, or ten rounds are gone. */
    method EnforceInputBudget(stimuli: seq<Stimulus>, recall: RecallResult, counts: Counts)
      returns (prompt: string, r: RecallResult)
      requires NoCommands(stimuli) && PromptsSound()
      requires inbox.Valid() && inbox.buffer.recalledUpTo == 0 && AllWithin(stimuli, inbox.ledger.drained)
      modifies `built, window, window.file, gm
      modifies inbox`recall, inbox`nextId, inbox`ledger, inbox`tick, inbox`searches, inbox`stop, inbox.buffer
      ensures inbox.Valid() && inbox.Waited() && (inbox.recall == old(inbox.recall) || fresh(inbox.recall))
      // the prompt is the one built last, from the returned recall and the window as it now is
      ensures PromptsSound() && old(built) < built && Latest(stimuli, r, counts, prompt)
      // rounds leave from the front, at most ten, each handed to compaction, and only under need
      ensures PrunedOnly() && Pruned() <= MAX_PRUNES
      ensures |built| == |old(built)| + 1 + Pruned()
      ensures PruneSteps(built, |old(built)|)
      ensures Fits(prompt) || window.rounds == [] || Pruned() == MAX_PRUNES
      // recall is the given one, or was run afresh for exactly these stimuli
      ensures Pruned() == 0 ==> r == recall && inbox.recall == old(inbox.recall)
      ensures Pruned() > 0 ==>
                && fresh(inbox.recall) && inbox.recall.processed == stimuli
                && IsResult(inbox.cost, inbox.recallBudget, inbox.recall.queries, r)
    {
      hide Inbox.Valid, IsResult, Popped, PrunedTo, NoCommands, PromptsSound, JobFor, Fits,
          PruneStep, PruneSteps, Affordable, Latest;
      r := recall;
      PrunedNothing(window.Store(), config.includeRecall, window.View(), gm.jobs);
      prompt := BuildSelfPrompt(stimuli, r, counts);
      NothingPrunedYet(old(built), SightOf(stimuli, r, counts));
      for i := 0 to MAX_PRUNES
        invariant PrunedOnly() && Pruned() == i
        invariant inbox.Valid() && inbox.Waited() && (inbox.recall == old(inbox.recall) || fresh(inbox.recall))
        invariant PromptsSound() && old(built) <= built && |built| == |old(built)| + 1 + i
        invariant built[|built| - 1] == SightOf(stimuli, r, counts)
            && prompt == minds.build(SightOf(stimuli, r, counts))
        invariant PruneSteps(built, |old(built)|)
        invariant i == 0 ==> r == recall && inbox.recall == old(inbox.recall)
        invariant i > 0 ==>
                    && fresh(inbox.recall) && inbox.recall.processed == stimuli
                    && IsResult(inbox.cost, inbox.recallBudget, inbox.recall.queries, r)
      {
        if Fits(prompt) {
          break;
        }
        if window.rounds == [] {
          break;
        }
        ghost var sights, tooLong := built, SightOf(stimuli, r, counts);
        PrunedOneMore(window.Store(), config.includeRecall, old(window.View()), old(gm.jobs), i, window.View(),
            gm.jobs);
        prompt, r := PruneOldest(stimuli, counts);
        StepOfPruning(tooLong, r, inbox.tick);
        OnePruneMore(sights, SightOf(stimuli, r, counts), |old(built)|);
      }
      MaySend(|old(built)|, stimuli, r, counts);
    }

    // ---- the prompt log ------------------------------------------------------

    method RecordPrompt(prompt: string)
      modifies `promptLog
      ensures promptLog == Recorded(old(promptLog), PromptEntry(heartbeatCount, prompt, None))
    {
      promptLog := promptLog + [PromptEntry(heartbeatCount, prompt, None)];
      if |promptLog| > PROMPT_LOG_SIZE {
        promptLog := promptLog[|promptLog| - PROMPT_LOG_SIZE..];
      }
    }

    /** Newest to oldest, the first entry of this beat. */
    method FindEntry(heartbeat: nat) returns (at: Option<nat>)
      ensures at.Some? ==> IsNewest(promptLog, heartbeat, at.value)
      ensures at == None ==> forall e :: e in promptLog ==> e.heartbeat != heartbeat
    {
      var i := |promptLog|;
      while i > 0
        invariant 0 <= i <= |promptLog|
        invariant forall k :: i <= k < |promptLog| ==> promptLog[k].heartbeat != heartbeat
      {
        i := i - 1;
        if promptLog[i].heartbeat == heartbeat {
          return Some(i);
        }
      }
      return None;
    }

    /** The entry of the beat in progress is changed in place; it is the newest of all. */
    method ReplacePrompt(prompt: string, ghost log: seq<PromptEntry>, ghost before: string)
      requires promptLog == Recorded(log, PromptEntry(heartbeatCount, before, None))
      modifies `promptLog
      ensures promptLog == Recorded(log, PromptEntry(heartbeatCount, prompt, None))
    {
      hide Recorded, IsNewest;
      ghost var e := PromptEntry(heartbeatCount, before, None);
      var at := FindEntry(heartbeatCount);
      NewestIsLast(log, e, at);
      RecordedChanged(log, e, PromptEntry(heartbeatCount, prompt, None));
      if at.Some? {
        promptLog := promptLog[at.value := promptLog[at.value].(prompt := prompt)];
      }
    }

    method RecordRawOutput(raw: string, ghost log: seq<PromptEntry>, ghost prompt: string)
      requires promptLog == Recorded(log, PromptEntry(heartbeatCount, prompt, None))
      modifies `promptLog
      ensures promptLog == Recorded(log, PromptEntry(heartbeatCount, prompt, Some(raw)))
    {
      hide Recorded, IsNewest;
      ghost var e := PromptEntry(heartbeatCount, prompt, None);
      var at := FindEntry(heartbeatCount);
      NewestIsLast(log, e, at);
      RecordedChanged(log, e, PromptEntry(heartbeatCount, prompt, Some(raw)));
      if at.Some? {
        promptLog := promptLog[at.value := promptLog[at.value].(output := Some(raw))];
      }
    }

    // ---- sleep ---------------------------------------------------------------

    /** A cycle that ran is counted, announced and resets recall; a failed one is only announced; a no-op
        leaves everything, the current recall session included. */
    method PerformSleep() returns (result: SleepResult)
      requires inbox.Valid() && inbox.buffer.recalledUpTo == 0
      modifies `sleepCycles, `sleepRequests
      modifies inbox`recall, inbox`nextId, inbox`ledger, inbox`tick, inbox`stop, inbox`said, inbox.buffer
      ensures inbox.Valid() && inbox.Waited() && Tracks() == old(Tracks())
      ensures (inbox.recall == old(inbox.recall) || fresh(inbox.recall))
      ensures result == minds.sleep(old(inbox.tick))
      ensures sleepCycles == old(sleepCycles) + (if result.CycleRan? then 1 else 0)
          && sleepRequests == old(sleepRequests) + 1
      ensures result.CycleRan? ==> fresh(inbox.recall) && inbox.recall.processed == []
      ensures !result.CycleRan? ==> inbox.recall == old(inbox.recall)
      ensures inbox.said == old(inbox.said) + match result
                case NothingToDo => [] case CycleRan => [SleepDone] case CycleFailed => [SleepFailed]
    {
      hide Inbox.Valid;
      result := minds.sleep(inbox.tick);
      sleepRequests := sleepRequests + 1;
      inbox.Await();
      match result {
        case NothingToDo =>
        case CycleFailed =>
          inbox.Say(SleepFailed, inbox.world.outputs(inbox.tick));
        case CycleRan =>
          sleepCycles := sleepCycles + 1;
          inbox.Say(SleepDone, inbox.world.outputs(inbox.tick));
          inbox.NewSession();
      }
    }

    // ---- reassembly after an urgent stimulus ---------------------------------

    /** What the interrupts since the call began took in. */
    twostate predicate TookIn(before: seq<Stimulus>, after: seq<Stimulus>, taken: Intakes, o: SelfOutcome)
      reads inbox`ledger, inbox.buffer`queue
    {
      TakenIn(multiset(old(inbox.buffer.queue)), old(inbox.ledger.drained), multiset(inbox.buffer.queue),
              inbox.ledger.drained, before, after, taken, o)
    }

    /** Everything that waits joins the beat after what it had, except the commands, which are obeyed. What joins a
        second time was pushed back before. */
    method TakeArrivals(stimuli: seq<Stimulus>)
      returns (all: seq<Stimulus>, action: Action, crashed: bool, ghost arrived: seq<Stimulus>)
      requires NoCommands(stimuli) && inbox.Valid() && AllWithin(stimuli, inbox.ledger.drained)
      modifies inbox`nextId, inbox`ledger, inbox`tick, inbox`stop, inbox`said, inbox.buffer
      ensures inbox.Valid() && inbox.Progressed() && inbox.buffer.recalledUpTo == 0
      ensures multiset(arrived) == multiset(old(inbox.buffer.queue)) && SortedBy(Earlier(), arrived)
      ensures inbox.ledger.drained == old(inbox.ledger.drained) + multiset(arrived)
      ensures var seen := ScanOf(arrived);
        && all == stimuli + seen.kept && action == seen.action && crashed == seen.crashed
        && inbox.said == old(inbox.said) + Answers(seen.notices)
      ensures NoCommands(all) && AllWithin(all, inbox.ledger.drained)
      ensures forall s :: s in ScanOf(arrived).kept && s in stimuli ==> s in old(inbox.ledger.pushed)
      ensures action == KillAction ==> inbox.stop
    {
      hide Inbox.Valid, NoCommands, AllWithin, ScanOf, SortedBy, Earlier, Answers;
      inbox.QueuedAgain();
      ghost var queue, l := inbox.buffer.queue, inbox.ledger;
      var batch := inbox.DrainAll();
      arrived := batch;
      JoinedTwice(arrived, queue, l.drained, l.pushed, stimuli);
      JoinedStimuli(stimuli, arrived, l.drained);
      var kept;
      kept, action, crashed := inbox.HandleCommands(batch);
      all := stimuli + kept;
    }

    method RemakePrompt(all: seq<Stimulus>, counts: Counts, ghost log: seq<PromptEntry>, ghost before: string)
      returns (prompt: string, r: RecallResult)
      requires NoCommands(all) && PromptsSound()
      requires inbox.Valid() && inbox.buffer.recalledUpTo == 0 && AllWithin(all, inbox.ledger.drained)
      requires promptLog == Recorded(log, PromptEntry(heartbeatCount, before, None))
      modifies `built, `promptLog, window, window.file, gm
      modifies inbox`recall, inbox`nextId, inbox`ledger, inbox`tick, inbox`searches, inbox`stop, inbox.buffer
      ensures inbox.Valid() && inbox.Waited() && fresh(inbox.recall)
      ensures PromptsSound() && old(built) <= built && PrunedOnly() && Latest(all, r, counts, prompt)
      ensures promptLog == Recorded(log, PromptEntry(heartbeatCount, prompt, None))
    {
      hide Inbox.Valid, Recorded, IsResult, PrunedTo, Affordable, Fits, NoCommands, PromptsSound, Latest, Queried;
      r := inbox.FreshRecall(all);
      prompt, r := EnforceInputBudget(all, r, counts);
      ReplacePrompt(prompt, log, before);
    }

    /** An urgent stimulus interrupts a wait: recall and prompt are made again for everything there is now, or
        a command ends the beat. */
    method ReassembleOnAdrenalin(stimuli: seq<Stimulus>, counts: Counts, ghost log: seq<PromptEntry>,
        ghost before: string)
      returns (next: Reassembly, ghost arrived: seq<Stimulus>)
      requires NoCommands(stimuli) && PromptsSound()
      requires inbox.Valid() && inbox.buffer.recalledUpTo == 0 && AllWithin(stimuli, inbox.ledger.drained)
      requires promptLog == Recorded(log, PromptEntry(heartbeatCount, before, None))
      modifies `built, `sleepCycles, `sleepRequests, `promptLog, window, window.file, gm
      modifies inbox`recall, inbox`nextId, inbox`ledger, inbox`tick, inbox`searches, inbox`stop, inbox`said,
          inbox.buffer
      ensures inbox.Valid() && inbox.Progressed() && inbox.buffer.recalledUpTo == 0
      ensures inbox.recall == old(inbox.recall) || fresh(inbox.recall)
      // everything that waited is drained, and its commands decide whether and with what the beat goes on
      ensures multiset(arrived) == multiset(old(inbox.buffer.queue)) && SortedBy(Earlier(), arrived)
      ensures inbox.ledger.drained == old(inbox.ledger.drained) + multiset(arrived)
      ensures Decides(ScanOf(arrived), next)
      ensures old(inbox.said) + Answers(ScanOf(arrived).notices) <= inbox.said
      ensures !next.SleptInstead? ==> inbox.said == old(inbox.said) + Answers(ScanOf(arrived).notices)
      ensures PromptsSound() && old(built) <= built && PrunedOnly()
      ensures next.GoOn? ==>
                && next.stimuli == stimuli + ScanOf(arrived).kept
                && NoCommands(next.stimuli) && AllWithin(next.stimuli, inbox.ledger.drained)
                && (forall s :: s in ScanOf(arrived).kept && s in stimuli ==> s in old(inbox.ledger.pushed))
                && promptLog == Recorded(log, PromptEntry(heartbeatCount, next.prompt, None))
                && Latest(next.stimuli, next.recall, counts, next.prompt)
      ensures !next.GoOn? ==> promptLog == old(promptLog) && window.View() == old(window.View()) && built == old(built)
      ensures next.Killed? ==> inbox.stop
      ensures sleepRequests == old(sleepRequests) + SleptInside(BrokenOff(next))
    {
      hide Inbox.Valid, Recorded, IsResult, PrunedTo, Affordable, Fits, NoCommands, PromptsSound, ScanOf, Answers;
      hide SortedBy, Earlier, AllWithin, Latest;
      PrunedNothing(window.Store(), config.includeRecall, window.View(), gm.jobs);
      var all, action, crashed;
      all, action, crashed, arrived := TakeArrivals(stimuli);
      if crashed {
        next := Reassembly.Crashed;
        return;
      }
      if action == KillAction {
        next := Killed;
        return;
      }
      if action == SleepAction {
        var _ := PerformSleep();
        next := SleptInstead;
        return;
      }
      var prompt, r := RemakePrompt(all, counts, log, before);
      next := GoOn(all, r, prompt);
    }

    // ---- the Self retry loop -------------------------------------------------

    method Chat(prompt: string) returns (reply: Option<string>)
      requires inbox.Valid() && PromptsSound() && Current(prompt)
      modifies `sent, inbox`nextId, inbox`ledger, inbox`tick, inbox`stop, inbox.buffer
      ensures inbox.Valid() && inbox.Waited() && inbox.tick == old(inbox.tick) + 1
      ensures reply == minds.reply(old(inbox.tick))
      ensures sent == old(sent) + [Attempt(heartbeatCount, prompt, reply)] && PromptsSound()
    {
      hide Inbox.Valid, CleanSights, Affordable, AllAffordable;
      reply := minds.reply(inbox.tick);
      inbox.Await();
      OneMoreSent(sent, built, Attempt(heartbeatCount, prompt, reply), |built| - 1);
      sent := sent + [Attempt(heartbeatCount, prompt, reply)];
    }

    /** An answer is a valid reply to the last prompt sent, given while no stop was requested. */
    ghost predicate RightAnswer(outcome: SelfOutcome, prompt: string)
      reads `sent, `heartbeatCount, inbox`stop
    {
      && (outcome.Answered? ==>
            var raw := outcome.parsed.raw;
            && !inbox.stop
            && sent != [] && sent[|sent| - 1] == Attempt(heartbeatCount, prompt, Some(raw))
            && outcome.parsed == Parsed(raw) && Complete(outcome.parsed, minds.asksForSleep(raw)))
      && (outcome.Stopped? || outcome == BrokenOff(Killed) ==> inbox.stop)
      && (outcome.BrokenOff? ==> !outcome.why.GoOn?)
    }

    /** The beat has exactly one entry: its last prompt, with the reply if there is one. */
    ghost predicate Logged(log: seq<PromptEntry>, prompt: string, outcome: SelfOutcome)
      reads `promptLog, `heartbeatCount
    {
      promptLog == Recorded(log, PromptEntry(heartbeatCount, prompt,
                                             if outcome.Answered? then Some(outcome.parsed.raw) else None))
    }

    lemma SeenLast(stimuli: seq<Stimulus>, r: RecallResult, counts: Counts, prompt: string)
      requires Latest(stimuli, r, counts, prompt)
      ensures built != [] && Current(prompt) && Affordable(built, |built| - 1)
      ensures var seen := built[|built| - 1];
        && prompt == minds.build(seen) && seen.stimuli == stimuli && seen.counts == counts
        && seen.heartbeat == heartbeatCount && seen.rounds == window.rounds
    {
    }

    lemma JustRecorded(log: seq<PromptEntry>, prompt: string)
      requires promptLog == Recorded(log, PromptEntry(heartbeatCount, prompt, None))
      ensures Logged(log, prompt, StillTrying)
    {
    }

    lemma StartTrying(log: seq<PromptEntry>, prompt: string)
      requires Logged(log, prompt, StillTrying)
      ensures RightAnswer(StillTrying, prompt)
    {
    }

    lemma StopTrying(log: seq<PromptEntry>, prompt: string)
      requires Logged(log, prompt, StillTrying) && inbox.stop
      ensures Logged(log, prompt, Stopped) && RightAnswer(Stopped, prompt)
    {
    }

    /** One call of the LLM: a valid reply is logged and ends the search. */
    method Ask(prompt: string, ghost log: seq<PromptEntry>) returns (outcome: SelfOutcome)
      requires inbox.Valid() && PromptsSound() && Current(prompt) && Logged(log, prompt, StillTrying)
      modifies `sent, `promptLog, inbox`nextId, inbox`ledger, inbox`tick, inbox`stop, inbox.buffer
      ensures inbox.Valid() && inbox.Waited() && inbox.tick > old(inbox.tick)
      ensures old(sent) < sent && PromptsSound()
      ensures Logged(log, prompt, outcome) && RightAnswer(outcome, prompt) && !outcome.BrokenOff?
    {
      hide Inbox.Valid, Recorded, Parsed, Complete, PromptsSound, Current;
      var reply := Chat(prompt);
      outcome := StillTrying;
      if reply.Some? {
        var parsed := ParseSelfOutput(reply.value);
        if Complete(parsed, minds.asksForSleep(reply.value)) {
          if inbox.stop {
            return Stopped;
          }
          RecordRawOutput(reply.value, log, prompt);
          return Answered(parsed);
        }
      }
    }

    lemma UrgentWaits()
      requires inbox.Valid() && inbox.buffer.adrenalinSet
      ensures HasUrgent(inbox.buffer.queue)
    {
    }

    /** The wait between two attempts, and a new start if something urgent came. */
    method WaitAndReassemble(stimuli: seq<Stimulus>, r: RecallResult, counts: Counts, prompt: string,
                             ghost log: seq<PromptEntry>)
      returns (outcome: SelfOutcome, current: seq<Stimulus>, r': RecallResult, prompt': string, ghost taken: Intakes)
      requires NoCommands(stimuli) && PromptsSound() && Latest(stimuli, r, counts, prompt)
      requires inbox.Valid() && inbox.buffer.recalledUpTo == 0 && AllWithin(stimuli, inbox.ledger.drained)
      requires Logged(log, prompt, StillTrying)
      modifies `built, `sleepCycles, `sleepRequests, `promptLog, window, window.file, gm
      modifies inbox`recall, inbox`nextId, inbox`ledger, inbox`tick, inbox`searches, inbox`stop, inbox`said,
          inbox.buffer
      ensures inbox.Valid() && inbox.Progressed() && inbox.buffer.recalledUpTo == 0
      ensures inbox.recall == old(inbox.recall) || fresh(inbox.recall)
      ensures PromptsSound() && old(built) <= built && PrunedOnly()
      ensures TookIn(stimuli, current, taken, outcome) && Latest(current, r', counts, prompt')
      ensures Logged(log, prompt', outcome) && RightAnswer(outcome, prompt') && !outcome.Answered?
      ensures outcome.StillTrying? && !taken.again ==> !inbox.buffer.adrenalinSet
      ensures sleepRequests == old(sleepRequests) + SleptInside(outcome)
      ensures outcome.StillTrying? ==> NoCommands(current) && AllWithin(current, inbox.ledger.drained)
    {
      hide Inbox.Valid, Recorded, IsResult, PrunedTo, Affordable, Fits, NoCommands, PromptsSound, AllWithin;
      hide TakenIn, Decides, ScanOf, SortedBy, Earlier, Answers, Latest, HasUrgent;
      PrunedNothing(window.Store(), config.includeRecall, window.View(), gm.jobs);
      current, r', prompt', outcome, taken := stimuli, r, prompt, StillTrying, NO_INTAKE;
      var interrupted := inbox.WaitOrAdrenalin();
      NothingTakenIn(old(inbox.buffer.queue), inbox.ledger.drained, inbox.buffer.queue, stimuli, StillTrying);
      if !interrupted {
        return;
      }
      UrgentWaits();
      ghost var q, d := multiset(inbox.buffer.queue), inbox.ledger.drained;
      ghost var queue := inbox.buffer.queue;
      var next;
      ghost var arrived;
      next, arrived := ReassembleOnAdrenalin(stimuli, counts, log, prompt);
      UrgentDrained(queue, arrived);
      if next.GoOn? {
        current, r', prompt', taken := next.stimuli, next.recall, next.prompt, Intakes(arrived, true, []);
        BatchJoins(q, d, multiset(inbox.buffer.queue), stimuli, arrived, next);
      } else {
        outcome, taken := BrokenOff(next), Intakes([], false, arrived);
        BatchEnds(q, d, multiset(inbox.buffer.queue), stimuli, arrived, next);
      }
      TakenInTwice(multiset(old(inbox.buffer.queue)), old(inbox.ledger.drained), q, d, multiset(inbox.buffer.queue),
          inbox.ledger.drained, stimuli, stimuli, current, NO_INTAKE, taken, outcome);
    }

    /** One attempt: a valid reply ends the search; otherwise wait, and start over if something urgent came. */
    method TryOnce(stimuli: seq<Stimulus>, r: RecallResult, counts: Counts, prompt: string, ghost log: seq<PromptEntry>)
      returns (outcome: SelfOutcome, current: seq<Stimulus>, r': RecallResult, prompt': string, ghost taken: Intakes)
      requires NoCommands(stimuli) && PromptsSound() && Latest(stimuli, r, counts, prompt)
      requires inbox.Valid() && inbox.buffer.recalledUpTo == 0 && AllWithin(stimuli, inbox.ledger.drained)
      requires Logged(log, prompt, StillTrying)
      modifies `built, `sent, `sleepCycles, `sleepRequests, `promptLog, window, window.file, gm
      modifies inbox`recall, inbox`nextId, inbox`ledger, inbox`tick, inbox`searches, inbox`stop, inbox`said,
          inbox.buffer
      ensures inbox.Valid() && inbox.Progressed() && inbox.buffer.recalledUpTo == 0 && inbox.tick > old(inbox.tick)
      ensures inbox.recall == old(inbox.recall) || fresh(inbox.recall)
      ensures PromptsSound() && old(built) <= built && PrunedOnly() && old(sent) < sent
      ensures TookIn(stimuli, current, taken, outcome) && Latest(current, r', counts, prompt')
      ensures Logged(log, prompt', outcome) && RightAnswer(outcome, prompt')
      ensures outcome.StillTrying? && !taken.again ==> !inbox.buffer.adrenalinSet
      ensures sleepRequests == old(sleepRequests) + SleptInside(outcome)
      ensures outcome.StillTrying? ==> NoCommands(current) && AllWithin(current, inbox.ledger.drained)
    {
      hide Inbox.Valid, Recorded, IsResult, PrunedTo, NoCommands, PromptsSound, AllWithin, Latest, Logged, RightAnswer,
          TakenIn, Current, Affordable;
      PrunedNothing(window.Store(), config.includeRecall, window.View(), gm.jobs);
      current, r', prompt', taken := stimuli, r, prompt, NO_INTAKE;
      SeenLast(stimuli, r, counts, prompt);
      outcome := Ask(prompt, log);
      NothingTakenIn(old(inbox.buffer.queue), inbox.ledger.drained, inbox.buffer.queue, stimuli, outcome);
      if outcome.StillTrying? {
        ghost var q, d := multiset(inbox.buffer.queue), inbox.ledger.drained;
        outcome, current, r', prompt', taken := WaitAndReassemble(stimuli, r, counts, prompt, log);
        TakenInTwice(multiset(old(inbox.buffer.queue)), old(inbox.ledger.drained), q, d, multiset(inbox.buffer.queue),
            inbox.ledger.drained, stimuli, stimuli, current, NO_INTAKE, taken, outcome);
      }
    }

    /** Attempts one after another, as long as none ends the search. */
    method KeepTrying(stimuli: seq<Stimulus>, recall: RecallResult, counts: Counts, start: string,
        ghost log: seq<PromptEntry>)
      returns (outcome: SelfOutcome, ghost seen: Sight, ghost taken: Intakes)
      requires NoCommands(stimuli) && PromptsSound() && Latest(stimuli, recall, counts, start)
      requires inbox.Valid() && inbox.buffer.recalledUpTo == 0 && AllWithin(stimuli, inbox.ledger.drained)
      requires Logged(log, start, StillTrying)
      modifies `built, `sent, `sleepCycles, `sleepRequests, `promptLog, window, window.file, gm
      modifies inbox`recall, inbox`nextId, inbox`ledger, inbox`tick, inbox`searches, inbox`stop, inbox`said,
          inbox.buffer
      ensures inbox.Valid() && inbox.Progressed() && inbox.buffer.recalledUpTo == 0
      ensures inbox.recall == old(inbox.recall) || fresh(inbox.recall)
      ensures PromptsSound() && old(built) <= built && PrunedOnly() && old(sent) <= sent
      ensures built != [] && built[|built| - 1] == seen
      ensures seen.heartbeat == heartbeatCount && seen.rounds == window.rounds && seen.counts == counts
      ensures TookIn(stimuli, seen.stimuli, taken, outcome) && Affordable(built, |built| - 1)
      ensures outcome.Answered? ==> old(sent) < sent
      ensures RightAnswer(outcome, minds.build(seen)) && Logged(log, minds.build(seen), outcome)
      ensures sleepRequests == old(sleepRequests) + SleptInside(outcome)
      ensures outcome.StillTrying? ==> inbox.tick >= horizon
    {
      hide Inbox.Valid, PrunedTo, NoCommands, PromptsSound, AllWithin, RightAnswer, Logged, Latest, TakenIn, Current,
          Affordable;
      ghost var m, jobs := window.View(), gm.jobs;
      PrunedNothing(window.Store(), config.includeRecall, m, jobs);
      var current, r, prompt := stimuli, recall, start;
      outcome, taken := StillTrying, NO_INTAKE;
      StartTrying(log, prompt);
      NothingTakenIn(old(inbox.buffer.queue), inbox.ledger.drained, inbox.buffer.queue, stimuli, StillTrying);
      while outcome.StillTrying? && !inbox.stop && inbox.tick < horizon
        invariant inbox.Valid() && inbox.Progressed() && inbox.buffer.recalledUpTo == 0
        invariant inbox.recall == old(inbox.recall) || fresh(inbox.recall)
        invariant PromptsSound() && old(built) <= built && PrunedOnly() && old(sent) <= sent
        invariant TookIn(stimuli, current, taken, outcome) && Latest(current, r, counts, prompt)
        invariant outcome.Answered? ==> old(sent) < sent
        invariant Logged(log, prompt, outcome) && RightAnswer(outcome, prompt)
        invariant sleepRequests == old(sleepRequests) + SleptInside(outcome)
        invariant outcome.StillTrying? ==> NoCommands(current) && AllWithin(current, inbox.ledger.drained)
        decreases horizon - inbox.tick
      {
        ghost var n, w, b := Pruned(), window.View(), gm.jobs;
        ghost var q, d, about, more := multiset(inbox.buffer.queue), inbox.ledger.drained, current, NO_INTAKE;
        outcome, current, r, prompt, more := TryOnce(current, r, counts, prompt, log);
        TakenInTwice(multiset(old(inbox.buffer.queue)), old(inbox.ledger.drained), q, d, multiset(inbox.buffer.queue),
            inbox.ledger.drained, stimuli, about, current, taken, more, outcome);
        taken := Both(taken, more);
        PrunedTwice(window.Store(), config.includeRecall, m, jobs, n, w, b, |w.rounds| - |window.rounds|,
            window.View(), gm.jobs);
      }
      SeenLast(current, r, counts, prompt);
      seen := built[|built| - 1];
      if outcome.StillTrying? && inbox.stop {
        StopTrying(log, prompt);
        StoppedTakenIn(multiset(old(inbox.buffer.queue)), old(inbox.ledger.drained), multiset(inbox.buffer.queue),
            inbox.ledger.drained, stimuli, current, taken);
        outcome := Stopped;
      }
    }

    /** Ask until a structurally valid reply comes, a stop is requested, or a command arriving meanwhile ends
        the beat; observed up to suspension number `horizon`. `seen` is what the last prompt was built from. */
    method RunSelf(stimuli: seq<Stimulus>, recall: RecallResult, counts: Counts)
      returns (outcome: SelfOutcome, ghost seen: Sight, ghost taken: Intakes)
      requires NoCommands(stimuli) && PromptsSound()
      requires inbox.Valid() && inbox.buffer.recalledUpTo == 0 && AllWithin(stimuli, inbox.ledger.drained)
      modifies `built, `sent, `sleepCycles, `sleepRequests, `promptLog, window, window.file, gm
      modifies inbox`recall, inbox`nextId, inbox`ledger, inbox`tick, inbox`searches, inbox`stop, inbox`said,
          inbox.buffer
      ensures inbox.Valid() && inbox.Progressed() && inbox.buffer.recalledUpTo == 0
      ensures inbox.recall == old(inbox.recall) || fresh(inbox.recall)
      ensures PromptsSound() && old(built) < built && built[|built| - 1] == seen && PrunedOnly()
      ensures seen.heartbeat == heartbeatCount && seen.rounds == window.rounds && seen.counts == counts
      ensures TookIn(stimuli, seen.stimuli, taken, outcome) && Affordable(built, |built| - 1)
      ensures old(sent) <= sent
      ensures outcome.Answered? ==> old(sent) < sent
      ensures RightAnswer(outcome, minds.build(seen)) && Logged(old(promptLog), minds.build(seen), outcome)
      ensures sleepRequests == old(sleepRequests) + SleptInside(outcome)
      ensures outcome.StillTrying? ==> inbox.tick >= horizon
    {
      hide Inbox.Valid, Recorded, IsResult, PrunedTo, Affordable, Fits, NoCommands, PromptsSound, AllWithin;
      hide RightAnswer, Latest, TakenIn, Logged, SightOf, SleptInside, PruneSteps;
      ghost var log, m, jobs := promptLog, window.View(), gm.jobs;
      var prompt, r := EnforceInputBudget(stimuli, recall, counts);
      RecordPrompt(prompt);
      JustRecorded(log, prompt);
      NothingTakenIn(old(inbox.buffer.queue), inbox.ledger.drained, inbox.buffer.queue, stimuli, StillTrying);
      ghost var n, w, b := Pruned(), window.View(), gm.jobs;
      ghost var q, d := multiset(inbox.buffer.queue), inbox.ledger.drained;
      outcome, seen, taken := KeepTrying(stimuli, r, counts, prompt, log);
      TakenInTwice(multiset(old(inbox.buffer.queue)), old(inbox.ledger.drained), q, d, multiset(inbox.buffer.queue),
          inbox.ledger.drained, stimuli, stimuli, seen.stimuli, NO_INTAKE, taken, outcome);
      PrunedTwice(window.Store(), config.includeRecall, m, jobs, n, w, b, |w.rounds| - |window.rounds|,
          window.View(), gm.jobs);
    }

    // ---- the decision --------------------------------------------------------

    /** The low-fatigue case of the hint: there are thresholds and none is reached. */
    ghost predicate EnergyIsHigh(pct: int) {
      config.thresholds != map[] && F.NoneReached(pct, config.thresholds)
    }

    method TakeOutSleep(calls: seq<ToolCall>) returns (rest: seq<ToolCall>, found: bool)
      ensures rest == WithoutSleep(calls)
      ensures found <==> !NoSleepCall(calls)
    {
      rest, found := [], false;
      for i := 0 to |calls|
        invariant rest == WithoutSleep(calls[..i])
        invariant found <==> !NoSleepCall(calls[..i])
      {
        assert calls[..i + 1][..i] == calls[..i] && calls[..i + 1] == calls[..i] + [calls[i]];
        if calls[i].tool == SLEEP_TOOL {
          assert calls[..i + 1][i].tool == SLEEP_TOOL;
          found := true;
        } else {
          rest := rest + [calls[i]];
        }
      }
      assert calls[..|calls|] == calls;
    }

    method CountSalvaged(failures: seq<bool>) returns (n: nat)
      ensures n == Salvaged(failures)
    {
      n := 0;
      for i := 0 to |failures|
        invariant n == Salvaged(failures[..i])
      {
        assert failures[..i + 1][..i] == failures[..i];
        if failures[i] {
          n := n + 1;
        }
      }
      assert failures[..|failures|] == failures;
    }

    ghost function ParseNotices(t: Translation): seq<Notice> {
      if t.failures == [] then []
      else
        var n := Salvaged(t.failures);
        [CallsNotParsed(|t.failures| - n, n, |t.calls| + |t.failures| - n)]
    }

    method ReportFailures(t: Translation)
      requires inbox.Valid()
      modifies inbox`nextId, inbox`ledger, inbox`said, inbox.buffer
      ensures inbox.Valid() && inbox.Waited() && inbox.said == old(inbox.said) + ParseNotices(t)
    {
      hide Inbox.Valid, Salvaged;
      if t.failures != [] {
        var n := CountSalvaged(t.failures);
        inbox.Say(CallsNotParsed(|t.failures| - n, n, |t.calls| + |t.failures| - n),
                  inbox.world.outputs(inbox.tick));
      } else {
        assert inbox.said + [] == inbox.said;
      }
    }

    /** Everything but sleep is dispatched, once, under this beat's number; sleep is granted unless energy is
        high. */
    method CarryOut(t: Translation, r: RecallResult, counts: Counts) returns (sleep: bool)
      requires inbox.Valid()
      modifies `dispatched, inbox`nextId, inbox`ledger, inbox`tick, inbox`stop, inbox`said, inbox.buffer
      ensures inbox.Valid() && inbox.Waited()
      ensures sleep <==> AsksToSleep(t) && !EnergyIsHigh(counts.pct)
      ensures dispatched == old(dispatched) + [Dispatch(heartbeatCount, WithoutSleep(t.calls), sleep, r.nodes)]
      ensures inbox.said == old(inbox.said) + if AsksToSleep(t) && !sleep then [SleepRefused] else []
    {
      hide Inbox.Valid, WithoutSleep;
      var calls, found := TakeOutSleep(t.calls);
      sleep := t.sleep || found;
      if sleep {
        var refused := F.RefusesSleep(counts.pct, config.thresholds);
        if refused {
          sleep := false;
          inbox.Say(SleepRefused, inbox.world.outputs(inbox.tick));
        }
      }
      dispatched := dispatched + [Dispatch(heartbeatCount, calls, sleep, r.nodes)];
      inbox.Await();
    }

    /** Sleep was asked for in the translation and energy is not high. */
    ghost predicate GoesToSleep(t: Option<Translation>, pct: int) {
      t.Some? && AsksToSleep(t.value) && !EnergyIsHigh(pct)
    }

    ghost function DecisionNotices(p: ParsedSelfOutput, t: Option<Translation>, sleep: bool): seq<Notice> {
      if NoDecision(p) then []
      else if t == None then [NotTranslated]
      else ParseNotices(t.value) + if AsksToSleep(t.value) && !sleep then [SleepRefused] else []
    }

    /** Nothing is dispatched without a decision or a translation. */
    method ApplyDecision(parsed: ParsedSelfOutput, r: RecallResult, counts: Counts) returns (sleep: bool)
      requires inbox.Valid()
      modifies `dispatched, inbox`nextId, inbox`ledger, inbox`tick, inbox`stop, inbox`said, inbox.buffer
      ensures inbox.Valid() && inbox.Waited()
      ensures var t := TranslationOf(minds, parsed, old(inbox.tick));
        && sleep == GoesToSleep(t, counts.pct)
        && dispatched == old(dispatched) + DispatchesOf(heartbeatCount, t, sleep, r.nodes)
        && inbox.said == old(inbox.said) + DecisionNotices(parsed, t, sleep)
    {
      hide Inbox.Valid, Strip, LowerAll, AsksToSleep, EnergyIsHigh, ParseNotices, WithoutSleep;
      var decision := Strip(parsed.decision);
      assert dispatched + [] == dispatched && inbox.said + [] == inbox.said;
      if decision == "" || LowerAll(decision) == "no action" {
        return false;
      }
      var t := minds.translate(inbox.tick, parsed.decision, parsed.raw);
      inbox.Await();
      if t == None {
        inbox.Say(NotTranslated, inbox.world.outputs(inbox.tick));
        return false;
      }
      ReportFailures(t.value);
      ghost var said := inbox.said;
      sleep := CarryOut(t.value, r, counts);
      assert inbox.said == old(inbox.said) + DecisionNotices(parsed, t, sleep);
    }

    // ---- the other phases ----------------------------------------------------

    method ComputeFatigue() returns (counts: Counts)
      requires inbox.Valid()
      modifies inbox`nextId, inbox`ledger, inbox`tick, inbox`stop, inbox.buffer
      ensures inbox.Valid() && inbox.Waited() && Tracks() == old(Tracks())
      ensures counts.nodes == minds.nodes(old(inbox.tick)) && counts.edges == minds.edges(old(inbox.tick) + 1)
      ensures counts.pct == minds.fatigue(counts.nodes) && F.IsHint(counts.pct, config.thresholds, counts.hint)
    {
      hide Inbox.Valid, F.IsHint;
      var nodes := minds.nodes(inbox.tick);
      inbox.Await();
      var edges := minds.edges(inbox.tick);
      inbox.Await();
      var pct := minds.fatigue(nodes);
      var hint := F.FatigueHint(pct, config.thresholds);
      counts := Counts(nodes, edges, pct, hint);
    }

    ghost function Compaction(rounds: seq<Round>, base: nat): (e: Effect)
      requires window.caps.tokens > 0 && window.caps.rounds > 0
      ensures e.pops <= |rounds|
    {
      CompactEffect(window.tok, window.caps, rounds, config.maxPops, config.includeRecall, SPLIT_CHUNK_TOKENS,
                    gm.raises, base)
    }

    method CompactPhase() returns (ok: bool)
      requires inbox.Valid() && window.caps.tokens > 0 && window.caps.rounds > 0
      modifies window, window.file, gm, inbox`nextId, inbox`ledger, inbox`tick, inbox`stop, inbox.buffer
      ensures inbox.Valid() && inbox.Waited()
      ensures var e := Compaction(old(window.rounds), |old(gm.jobs)|);
        && ok == e.ok && gm.jobs == old(gm.jobs) + e.jobs
        && window.View() == Pops(window.Store(), old(window.View()), e.pops)
    {
      hide Inbox.Valid;
      ok := CompactIfNeeded(window, gm, config.includeRecall, SPLIT_CHUNK_TOKENS, config.maxPops);
      inbox.Await();
    }

    method SaveRound(parsed: ParsedSelfOutput, stimuli: seq<Stimulus>, r: RecallResult)
      modifies `saved, window, window.file
      ensures var round := RoundOf(heartbeatCount, parsed, stimuli, r);
        window.View() == Appended(window.Store(), old(window.View()), round) && saved == old(saved) + [round]
    {
      var round := RoundOf(heartbeatCount, parsed, stimuli, r);
      window.Append(round);
      saved := saved + [round];
    }

    /** Each tool feedback is offered to memory; a failure there is only reported. */
    method IngestFeedback(stimuli: seq<Stimulus>)
      requires inbox.Valid()
      modifies `ingested, inbox`nextId, inbox`ledger, inbox`tick, inbox`stop, inbox.buffer
      ensures inbox.Valid() && inbox.Waited() && ingested == old(ingested) + FeedbackOf(stimuli)
    {
      hide Inbox.Valid;
      assert ingested + FeedbackOf(stimuli[..0]) == ingested;
      for i := 0 to |stimuli|
        invariant inbox.Valid() && inbox.Waited() && ingested == old(ingested) + FeedbackOf(stimuli[..i])
      {
        assert stimuli[..i + 1][..i] == stimuli[..i];
        if stimuli[i].kind == "tool_feedback" {
          ingested := ingested + [stimuli[i].content];
          inbox.Await();
        }
      }
      assert stimuli[..|stimuli|] == stimuli;
    }

    // ---- the invariant of whole runs -----------------------------------------

    function Handing(): Setting {
      Setting(config.includeRecall, SPLIT_CHUNK_TOKENS, gm.raises)
    }

    function Policy(): W.Policy {
      W.Policy(window.tok, window.caps, config.maxPops, config.includeRecall, SPLIT_CHUNK_TOKENS)
    }

    /** Every round that was loaded or saved is in the window or has left it, oldest first, and those that have
        left were handed to compaction in that order. */
    ghost predicate Conserved()
      reads `saved, window, gm
    {
      Whole(start + saved, Handing(), window.evicted, window.rounds, gm.jobs)
    }

    /** What holds within beat number `heartbeatCount`, while its prompt and its dispatch are still to come. */
    ghost predicate InBeat()
      reads this, inbox, inbox.buffer, inbox.recall, window, gm
    {
      && inbox.Valid() && inbox.buffer.recalledUpTo == 0
      && W.Sanitised(Policy())
      && PromptsSound() && Conserved()
      && DispatchesSound(dispatched, heartbeatCount)
      && LogSound(promptLog, heartbeatCount)
      && |history| + 1 == heartbeatCount
      && window.rounds == W.AfterBeats(Policy(), start, history)
    }

    /** What holds between beats. */
    ghost predicate Valid()
      reads this, inbox, inbox.buffer, inbox.recall, window, gm
    {
      && inbox.Valid()
      && W.Sanitised(Policy())
      && PromptsSound() && Conserved()
      && DispatchesSound(dispatched, heartbeatCount + 1)
      && LogSound(promptLog, heartbeatCount + 1)
      && |history| == heartbeatCount
      && window.rounds == W.AfterBeats(Policy(), start, history)
    }

    ghost function Tracks(): Traces
      reads inbox`ledger, inbox`retries, `built
    {
      Traces(inbox.ledger.drained, inbox.ledger.pushed, inbox.retries, built)
    }

    ghost function Records(): Books
      reads `sent, `promptLog, `saved, `ingested, `dispatched, window`rounds
    {
      Books(sent, promptLog, saved, window.rounds, ingested, dispatched)
    }

    // ---- a beat --------------------------------------------------------------

    /** From `rounds` to `now`: compaction, then, unless it raised, any number of rounds pruned from the front. */
    ghost predicate Worn(rounds: seq<Round>, base: nat, ok: bool, now: seq<Round>)
      requires W.Sanitised(Policy())
    {
      var e := Compaction(rounds, base);
      && ok == e.ok && |now| <= |rounds| - e.pops && now == rounds[|rounds| - |now|..]
      && (!ok ==> |now| == |rounds| - e.pops)
    }

    lemma Wear(rounds: seq<Round>, base: nat, ok: bool, left: seq<Round>, now: seq<Round>)
      requires W.Sanitised(Policy())
      requires var e := Compaction(rounds, base); ok == e.ok && left == rounds[e.pops..]
      requires now == left || (ok && |now| <= |left| && now == left[|left| - |now|..])
      ensures Worn(rounds, base, ok, now)
    {
      hide Compaction;
      var e := Compaction(rounds, base);
      assert rounds[e.pops..][|left| - |now|..] == rounds[|rounds| - |now|..];
    }

    lemma NoReplyLogged(log: seq<PromptEntry>, prompt: string, outcome: SelfOutcome)
      requires Logged(log, prompt, outcome)
      ensures Logged(log, prompt, if outcome.Answered? then outcome else StillTrying)
    {
    }

    method CompactPhaseConserves() returns (ok: bool)
      requires inbox.Valid() && W.Sanitised(Policy()) && Conserved()
      modifies window, window.file, gm, inbox`nextId, inbox`ledger, inbox`tick, inbox`stop, inbox.buffer
      ensures inbox.Valid() && inbox.Waited() && Conserved()
      ensures var e := Compaction(old(window.rounds), |old(gm.jobs)|);
        ok == e.ok && window.rounds == old(window.rounds)[e.pops..]
    {
      hide Inbox.Valid, Whole, CompactEffect, Pops;
      ghost var m, jobs := window.View(), gm.jobs;
      ConservedByCompaction(start + saved, Handing(), window.tok, window.caps, config.maxPops, window.Store(), m, jobs);
      ok := CompactPhase();
      assert window.View().rounds == window.rounds && window.View().evicted == window.evicted;
    }

    twostate lemma PruningConserves()
      requires PrunedOnly() && old(Conserved()) && saved == old(saved)
      ensures Conserved() && |window.rounds| <= |old(window.rounds)|
      ensures window.rounds == old(window.rounds)[Pruned()..]
    {
      hide Whole, PrunedTo;
      ghost var m, w := old(window.View()), window.View();
      PrunedShape(window.Store(), config.includeRecall, m, old(gm.jobs), Pruned(), w, gm.jobs);
      ConservedByPruning(start + saved, Handing(), window.Store(), m, old(gm.jobs), Pruned(), w, gm.jobs);
    }

    /** Recall with pushback, and the search for a reply. */
    method RecallAndAsk(stimuli: seq<Stimulus>, counts: Counts)
        returns (outcome: SelfOutcome, r: RecallResult, ghost seen: Sight, ghost taken: Intakes)
      requires NoCommands(stimuli) && PromptsSound() && Conserved()
      requires inbox.Valid() && inbox.buffer.recalledUpTo == 0 && AllWithin(stimuli, inbox.ledger.drained)
      modifies `built, `sent, `sleepCycles, `sleepRequests, `promptLog, window, window.file, gm
      modifies inbox`recall, inbox`retries, inbox`nextId, inbox`ledger, inbox`tick, inbox`searches, inbox`stop,
          inbox`said, inbox.buffer
      ensures inbox.Valid() && inbox.buffer.recalledUpTo == 0 && (old(inbox.stop) ==> inbox.stop)
      ensures inbox.recall == old(inbox.recall) || fresh(inbox.recall)
      ensures PromptsSound() && Conserved()
      ensures |window.rounds| <= |old(window.rounds)| && window.rounds == old(window.rounds)[Pruned()..]
      ensures seen.heartbeat == heartbeatCount && seen.counts == counts && Affordable(built, |built| - 1)
      ensures IsResult(inbox.cost, inbox.recallBudget, old(inbox.recall.queries), r)
      ensures Searched(old(Tracks()), Tracks(), [], old(inbox.recall.queries), r, stimuli, seen, taken, outcome)
      ensures RightAnswer(outcome, minds.build(seen)) && Logged(old(promptLog), minds.build(seen), outcome)
      ensures sleepRequests == old(sleepRequests) + SleptInside(outcome)
      ensures outcome.Answered? ==> old(|sent|) < |sent|
    {
      hide Affordable, Current, AllAffordable;
      hide Inbox.Valid, NoCommands, PromptsSound, AllWithin, RightAnswer, IsResult, Conserved, Logged, PrunedOnly,
          PushedBack, Retried, BackAsFound, TakenIn, Searched;
      r := inbox.FinalizeAndPushback();
      label L:
      outcome, seen, taken := RunSelf(stimuli, r, counts);
      PruningConserves@L();
      SearchedFrom(old(Tracks()), old(inbox.buffer.queue), Tracks(), multiset(inbox.buffer.queue),
          old(inbox.recall.queries), r, stimuli, seen, taken, outcome);
    }

    /** Compaction, then, unless it raised, recall and the search for a reply. */
    method Think(stimuli: seq<Stimulus>, counts: Counts)
      returns (thought: Thought, r: RecallResult, ghost seen: Sight, ghost taken: Intakes)
      requires NoCommands(stimuli) && PromptsSound() && W.Sanitised(Policy()) && Conserved()
      requires inbox.Valid() && inbox.buffer.recalledUpTo == 0 && AllWithin(stimuli, inbox.ledger.drained)
      modifies `built, `sent, `sleepCycles, `sleepRequests, `promptLog, window, window.file, gm
      modifies inbox`recall, inbox`retries, inbox`nextId, inbox`ledger, inbox`tick, inbox`searches, inbox`stop,
          inbox`said, inbox.buffer
      ensures inbox.Valid() && inbox.buffer.recalledUpTo == 0 && (old(inbox.stop) ==> inbox.stop)
      ensures inbox.recall == old(inbox.recall) || fresh(inbox.recall)
      ensures PromptsSound() && Conserved()
      ensures Worn(old(window.rounds), |old(gm.jobs)|, !thought.CompactionRaised?, window.rounds)
      ensures thought.CompactionRaised? ==>
                promptLog == old(promptLog) && Tracks() == old(Tracks()) && taken == NO_INTAKE
      ensures sleepRequests == old(sleepRequests) + if thought.Unanswered? then SleptInside(thought.why) else 0
      ensures !thought.CompactionRaised? ==>
                && seen.heartbeat == heartbeatCount && seen.counts == counts && Affordable(built, |built| - 1)
                && IsResult(inbox.cost, inbox.recallBudget, old(inbox.recall.queries), r)
                && Searched(old(Tracks()), Tracks(), [], old(inbox.recall.queries), r, stimuli, seen, taken,
                            if thought.Decided? then Answered(thought.parsed) else thought.why)
                && Logged(old(promptLog), minds.build(seen),
                   if thought.Decided? then Answered(thought.parsed) else StillTrying)
      ensures thought.Decided? ==> RightAnswer(Answered(thought.parsed), minds.build(seen)) && old(|sent|) < |sent|
    {
      hide Affordable, Current, AllAffordable;
      hide Inbox.Valid, NoCommands, PromptsSound, AllWithin, RightAnswer, IsResult, Compaction, Conserved, Logged,
          Worn, W.Sanitised, Searched, BackAsFound;
      ghost var rounds, base, log := window.rounds, |gm.jobs|, promptLog;
      var ok := CompactPhaseConserves();
      Wear(rounds, base, ok, window.rounds, window.rounds);
      ghost var left := window.rounds;
      r := RecallResult([], [], []);
      seen, taken := SightOf(stimuli, r, counts), NO_INTAKE;
      if !ok {
        return CompactionRaised, r, seen, taken;
      }
      var outcome;
      outcome, r, seen, taken := RecallAndAsk(stimuli, counts);
      Wear(rounds, base, ok, left, window.rounds);
      NoReplyLogged(log, minds.build(seen), outcome);
      thought := if outcome.Answered? then Decided(outcome.parsed) else Unanswered(outcome);
    }

    method SaveRoundConserves(parsed: ParsedSelfOutput, stimuli: seq<Stimulus>, r: RecallResult)
      requires Conserved()
      modifies `saved, window, window.file
      ensures Conserved() && saved == old(saved) + [RoundOf(heartbeatCount, parsed, stimuli, r)]
      ensures window.rounds == old(window.rounds) + [RoundOf(heartbeatCount, parsed, stimuli, r)]
    {
      hide Whole, RoundOf;
      ghost var total, rounds := start + saved, window.rounds;
      ConservedBySaving(total, Handing(), window.evicted, rounds, gm.jobs, RoundOf(heartbeatCount, parsed, stimuli, r));
      SaveRound(parsed, stimuli, r);
      assert window.View().rounds == window.rounds && window.View().evicted == window.evicted;
      assert start + saved == total + [RoundOf(heartbeatCount, parsed, stimuli, r)];
    }

    /** Save the round, apply the decision, and sleep or idle. The round and the dispatch get what the beat began
        with: the stimuli and the recall result from before any pruning or reassembly. */
    method Finish(parsed: ParsedSelfOutput, stimuli: seq<Stimulus>, r: RecallResult, counts: Counts)
        returns (slept: bool, ghost at: nat)
      requires inbox.Valid() && inbox.buffer.recalledUpTo == 0 && Conserved()
      requires DispatchesSound(dispatched, heartbeatCount)
      modifies `saved, `ingested, `dispatched, `sleepCycles, `sleepRequests, window, window.file
      modifies inbox`recall, inbox`nextId, inbox`ledger, inbox`tick, inbox`searches, inbox`stop, inbox`said,
          inbox.buffer
      ensures inbox.Valid() && Conserved() && (old(inbox.stop) ==> inbox.stop)
      ensures inbox.recall == old(inbox.recall) || fresh(inbox.recall)
      ensures Tracks() == old(Tracks())
      ensures saved == old(saved) + [RoundOf(heartbeatCount, parsed, stimuli, r)]
      ensures window.rounds == old(window.rounds) + [RoundOf(heartbeatCount, parsed, stimuli, r)]
      ensures ingested == old(ingested) + FeedbackOf(stimuli)
      ensures sleepRequests == old(sleepRequests) + if slept then 1 else 0
      ensures DispatchesSound(dispatched, heartbeatCount + 1)
      ensures slept == GoesToSleep(TranslationOf(minds, parsed, at), counts.pct)
      ensures dispatched
           == old(dispatched) + DispatchesOf(heartbeatCount, TranslationOf(minds, parsed, at), slept, r.nodes)
      ensures !slept ==> inbox.recall.processed == inbox.buffer.queue[..inbox.buffer.recalledUpTo]
    {
      hide Inbox.Valid, Conserved, GoesToSleep, TranslationOf, DispatchesOf, RoundOf, DecisionNotices;
      SaveRoundConserves(parsed, stimuli, r);
      IngestFeedback(stimuli);
      at := inbox.tick;
      slept := ApplyDecision(parsed, r, counts);
      DispatchedOnce(old(dispatched), heartbeatCount, TranslationOf(minds, parsed, at), slept, r.nodes);
      if slept {
        var _ := PerformSleep();
      } else {
        inbox.IdleWithRecall();
      }
    }

    /** Seen from outside, a beat that got as far as compaction is one step of the backlog model. */
    lemma WornIsABeat(rounds: seq<Round>, base: nat, ok: bool, now: seq<Round>, round: Option<Round>)
        returns (beat: W.Beat)
      requires W.Sanitised(Policy()) && Worn(rounds, base, ok, now) && (!ok ==> round == None)
      ensures W.AfterBeat(Policy(), rounds, beat) == if round == None then now else now + [round.value]
      ensures W.Completed(Policy(), rounds, beat) <==> ok
    {
      hide CompactEffect;
      var e := Compaction(rounds, base);
      var n := |rounds| - e.pops - |now|;
      beat := W.Worked(gm.raises, base, n, round);
      assert rounds[e.pops..][n..] == rounds[e.pops + n..] == now;
    }

    ghost function AfterReply(round: Round, stimuli: seq<Stimulus>, after: seq<Dispatch>): Books
      reads `sent, `promptLog, `saved, `ingested, window`rounds
    {
      Books(sent, promptLog, saved + [round], window.rounds + [round], ingested + FeedbackOf(stimuli), after)
    }

    lemma ReplyFacts(before: Books, p: ParsedSelfOutput, stimuli: seq<Stimulus>, r: RecallResult, seen: Sight,
                     at: nat, slept: bool)
      requires RightAnswer(Answered(p), minds.build(seen)) && Logged(before.log, minds.build(seen), Answered(p))
      requires seen.heartbeat == heartbeatCount
      requires before.saved == saved && |before.sent| < |sent| && before.ingested == ingested
      ensures var round := RoundOf(heartbeatCount, p, stimuli, r);
        var after := before.dispatched + DispatchesOf(heartbeatCount, TranslationOf(minds, p, at), slept, r.nodes);
        ReplyRecorded(minds, heartbeatCount, p, stimuli, r, seen, at, slept, before, AfterReply(round, stimuli, after))
    {
      hide Recorded, Parsed, Complete, RoundOf, DispatchesOf, TranslationOf, FeedbackOf;
    }

    lemma NoStopYet(p: ParsedSelfOutput, prompt: string)
      requires RightAnswer(Answered(p), prompt)
      ensures !inbox.stop
    {
    }

    /** `Finish`, for the reply the last prompt got. */
    method Conclude(parsed: ParsedSelfOutput, stimuli: seq<Stimulus>, r: RecallResult, counts: Counts,
                    ghost seen: Sight, ghost before: Books) returns (outcome: BeatOutcome, ghost at: nat)
      requires inbox.Valid() && inbox.buffer.recalledUpTo == 0 && Conserved()
      requires DispatchesSound(dispatched, heartbeatCount)
      requires RightAnswer(Answered(parsed), minds.build(seen))
          && Logged(before.log, minds.build(seen), Answered(parsed))
      requires seen.heartbeat == heartbeatCount
      requires before.saved == saved && |before.sent| < |sent| && before.ingested == ingested
      requires before.dispatched == dispatched
      modifies `saved, `ingested, `dispatched, `sleepCycles, `sleepRequests, window, window.file
      modifies inbox`recall, inbox`nextId, inbox`ledger, inbox`tick, inbox`searches, inbox`stop, inbox`said,
          inbox.buffer
      ensures inbox.Valid() && Conserved()
      ensures inbox.recall == old(inbox.recall) || fresh(inbox.recall)
      ensures Tracks() == old(Tracks())
      ensures window.rounds == old(window.rounds) + [RoundOf(heartbeatCount, parsed, stimuli, r)]
      ensures Replied(outcome) && outcome.parsed == parsed
          && Recalled(outcome) && SearchOf(outcome) == Answered(parsed)
      ensures ReplyRecorded(minds, heartbeatCount, parsed, stimuli, r, seen, at, outcome.SleptVoluntarily?, before,
                            Records())
      ensures outcome.SleptVoluntarily? == GoesToSleep(TranslationOf(minds, parsed, at), counts.pct)
      ensures sleepRequests == old(sleepRequests) + Sleeps(outcome)
      ensures DispatchesSound(dispatched, heartbeatCount + 1)
      ensures outcome.Idled? ==> inbox.recall.processed == inbox.buffer.queue[..inbox.buffer.recalledUpTo]
    {
      hide Inbox.Valid, Conserved, GoesToSleep, TranslationOf, RoundOf, RightAnswer, Logged, ReplyRecorded,
          DispatchesSound;
      hide FeedbackOf, DispatchesOf;
      forall at, slept
        ensures ReplyRecorded(minds, heartbeatCount, parsed, stimuli, r, seen, at, slept, before,
                              AfterReply(RoundOf(heartbeatCount, parsed, stimuli, r), stimuli,
                                         before.dispatched + DispatchesOf(heartbeatCount,
                                             TranslationOf(minds, parsed, at), slept, r.nodes))) {
        ReplyFacts(before, parsed, stimuli, r, seen, at, slept);
      }
      var slept;
      slept, at := Finish(parsed, stimuli, r, counts);
      outcome := if slept then SleptVoluntarily(parsed) else Idled(parsed);
    }

    /** The part of a beat that commands and forced sleep cut off. */
    method Work(stimuli: seq<Stimulus>, counts: Counts)
      returns (outcome: BeatOutcome, r: RecallResult, ghost seen: Sight, ghost taken: Intakes, ghost at: nat,
        ghost beat: W.Beat)
      requires NoCommands(stimuli) && PromptsSound() && W.Sanitised(Policy()) && Conserved()
      requires inbox.Valid() && inbox.buffer.recalledUpTo == 0 && AllWithin(stimuli, inbox.ledger.drained)
      requires DispatchesSound(dispatched, heartbeatCount) && LogSound(promptLog, heartbeatCount)
      modifies `built, `sent, `saved, `ingested, `dispatched, `sleepCycles, `sleepRequests, `promptLog, window,
          window.file, gm
      modifies inbox`recall, inbox`retries, inbox`nextId, inbox`ledger, inbox`tick, inbox`searches, inbox`stop,
          inbox`said, inbox.buffer
      ensures inbox.Valid() && Conserved() && PromptsSound() && (old(inbox.stop) ==> inbox.stop)
      ensures inbox.recall == old(inbox.recall) || fresh(inbox.recall)
      ensures DispatchesSound(dispatched, heartbeatCount + 1) && LogSound(promptLog, heartbeatCount + 1)
      ensures window.rounds == W.AfterBeat(Policy(), old(window.rounds), beat)
      ensures Recalled(outcome) <==> W.Completed(Policy(), old(window.rounds), beat)
      ensures outcome.BrokenBeat? || Replied(outcome)
      ensures outcome.BrokenBeat? ==>
                saved == old(saved) && ingested == old(ingested) && dispatched == old(dispatched)
                    && !outcome.thought.Decided?
      ensures Recalled(outcome) ==>
                && seen.heartbeat == heartbeatCount && seen.counts == counts && Affordable(built, |built| - 1)
                && IsResult(inbox.cost, inbox.recallBudget, old(inbox.recall.queries), r)
                && Searched(old(Tracks()), Tracks(), [], old(inbox.recall.queries), r, stimuli, seen, taken,
                            SearchOf(outcome))
      ensures !Recalled(outcome) ==> Tracks() == old(Tracks()) && taken == NO_INTAKE
      ensures sleepRequests == old(sleepRequests) + Sleeps(outcome)
      ensures Replied(outcome) ==>
                && ReplyRecorded(minds, heartbeatCount, outcome.parsed, stimuli, r, seen, at,
                                 outcome.SleptVoluntarily?, old(Records()), Records())
                && outcome.SleptVoluntarily? == GoesToSleep(TranslationOf(minds, outcome.parsed, at), counts.pct)
      ensures outcome.Idled? ==> inbox.recall.processed == inbox.buffer.queue[..inbox.buffer.recalledUpTo]
    {
      hide Affordable, Current, AllAffordable;
      hide Tracks, Recalled, Sleeps, SearchOf;
      hide Inbox.Valid, NoCommands, PromptsSound, AllWithin, IsResult, Conserved, Parsed, Complete, Worn, Recorded;
      hide TranslationOf, RoundOf, GoesToSleep, LogSound, DispatchesSound, W.AfterBeat, W.Completed, W.Sanitised,
          RightAnswer, Logged, ReplyRecorded, Searched;
      hide Retried, FeedbackOf, Compaction;
      ghost var rounds, base, log, records := window.rounds, |gm.jobs|, promptLog, Records();
      LogAges(log, heartbeatCount);
      DispatchesAge(dispatched, heartbeatCount);
      var thought;
      thought, r, seen, taken := Think(stimuli, counts);
      at := 0;
      ghost var left := window.rounds;
      LogStaysSound(log, minds.build(seen), thought);
      if !thought.Decided? {
        beat := WornIsABeat(rounds, base, !thought.CompactionRaised?, left, None);
        outcome := BrokenBeat(thought);
        BrokenBeats(thought);
        return;
      }
      ghost var round := RoundOf(heartbeatCount, thought.parsed, stimuli, r);
      beat := WornIsABeat(rounds, base, true, left, Some(round));
      NoStopYet(thought.parsed, minds.build(seen));
      outcome, at := Conclude(thought.parsed, stimuli, r, counts, seen, records);
    }

    lemma LogStaysSound(log: seq<PromptEntry>, prompt: string, thought: Thought)
      requires LogSound(log, heartbeatCount)
      requires thought.CompactionRaised? ==> promptLog == log
      requires !thought.CompactionRaised? ==>
                 Logged(log, prompt, if thought.Decided? then Answered(thought.parsed) else StillTrying)
      ensures LogSound(promptLog, heartbeatCount + 1)
    {
      hide Recorded;
      LogAges(log, heartbeatCount);
      if !thought.CompactionRaised? {
        RecordSound(log, promptLog[|promptLog| - 1]);
      }
    }

    /** Drain, show recall the whole batch, commands included, and obey the commands in it. */
    method Listen() returns (drained: seq<Stimulus>, kept: seq<Stimulus>, action: Action, crashed: bool)
      requires inbox.Valid()
      modifies inbox`nextId, inbox`ledger, inbox`tick, inbox`searches, inbox`stop, inbox`said, inbox.buffer,
          inbox.recall
      ensures inbox.Valid() && inbox.buffer.recalledUpTo == 0 && (old(inbox.stop) ==> inbox.stop)
      ensures multiset(drained) == multiset(old(inbox.buffer.queue)) && SortedBy(Earlier(), drained)
      ensures inbox.ledger.drained == old(inbox.ledger.drained) + multiset(drained)
          && inbox.ledger.pushed == old(inbox.ledger.pushed)
      ensures inbox.recall.queries
           == old(inbox.recall.queries) + Queried(inbox.world.memory, old(inbox.searches),
                                                  Unseen(drained, old(inbox.recall.processed)))
      ensures multiset(inbox.recall.processed) == multiset(drained)
          <==> old(multiset(inbox.recall.processed) <= multiset(inbox.buffer.queue))
      ensures forall s :: s in drained ==> s in inbox.recall.processed
      ensures kept == ScanOf(drained).kept && action == ScanOf(drained).action && crashed == ScanOf(drained).crashed
      ensures inbox.said == old(inbox.said) + Answers(ScanOf(drained).notices)
      ensures NoCommands(kept) && AllWithin(kept, inbox.ledger.drained)
      ensures action == KillAction ==> inbox.stop
    {
      hide Inbox.Valid, NoCommands, ScanOf, SortedBy, Earlier, Answers, Unseen, Queried, StimulusBuffer.Valid;
      ghost var before := inbox.recall.processed;
      drained := inbox.DrainAndSeedRecall();
      SeededAll(drained, before);
      KeptWereDrained(drained, inbox.ledger.drained);
      kept, action, crashed := inbox.HandleCommands(drained);
    }

    /** The beat is entered in the history as a step of the backlog model. */
    ghost method Enter(step: W.Beat, rounds: seq<Round>)
      requires inbox.Valid() && W.Sanitised(Policy()) && PromptsSound() && Conserved()
      requires DispatchesSound(dispatched, heartbeatCount + 1) && LogSound(promptLog, heartbeatCount + 1)
      requires |history| + 1 == heartbeatCount && rounds == W.AfterBeats(Policy(), start, history)
      requires window.rounds == W.AfterBeat(Policy(), rounds, step)
      modifies `history
      ensures Valid() && history == old(history) + [step]
    {
      hide Inbox.Valid, PromptsSound, Conserved, LogSound, DispatchesSound, W.AfterBeat, W.AfterBeats, W.Completed,
          W.CompletedBeats, W.Sanitised;
      W.OneMoreBeat(Policy(), start, history, step);
      history := history + [step];
    }

    /** The beat ends with the window, the log and the dispatches as they were. */
    ghost method EndShort()
      requires InBeat()
      modifies `history
      ensures Valid() && Tracks() == old(Tracks()) && history == old(history) + [W.ShortCircuit]
      ensures window.rounds == W.AfterBeat(Policy(), window.rounds, W.ShortCircuit)
      ensures !W.Completed(Policy(), window.rounds, W.ShortCircuit)
    {
      hide Inbox.Valid, PromptsSound, Conserved, LogSound, DispatchesSound, W.AfterBeats, W.Sanitised;
      LogAges(promptLog, heartbeatCount);
      DispatchesAge(dispatched, heartbeatCount);
      Enter(W.ShortCircuit, window.rounds);
    }

    /** A command ends the beat: by an exception, by a stop, or by a sleep. */
    method CutShort(action: Action, crashed: bool) returns (outcome: BeatOutcome)
      requires InBeat() && (crashed || action != NoAction)
      modifies `sleepCycles, `sleepRequests, `history
      modifies inbox`recall, inbox`nextId, inbox`ledger, inbox`tick, inbox`stop, inbox`said, inbox.buffer
      ensures Valid() && (old(inbox.stop) ==> inbox.stop)
      ensures inbox.recall == old(inbox.recall) || fresh(inbox.recall)
      ensures Tracks() == old(Tracks())
      ensures outcome == if crashed then CommandCrashed else
          if action == KillAction then KilledByCommand else SleptOnCommand
      ensures history == old(history) + [W.ShortCircuit]
      ensures window.rounds == W.AfterBeat(Policy(), window.rounds, W.ShortCircuit)
      ensures !W.Completed(Policy(), window.rounds, W.ShortCircuit)
      ensures sleepRequests == old(sleepRequests) + Sleeps(outcome)
    {
      hide Inbox.Valid, PromptsSound, Conserved, LogSound, DispatchesSound, W.AfterBeats, W.Sanitised;
      outcome := if crashed then CommandCrashed else if action == KillAction then KilledByCommand else SleptOnCommand;
      if outcome.SleptOnCommand? {
        var _ := PerformSleep();
      }
      EndShort();
    }

    /** A beat no command has ended: forced sleep, or the work of the beat. */
    method Respond(kept: seq<Stimulus>)
      returns (outcome: BeatOutcome, r: RecallResult, counts: Counts, ghost seen: Sight, ghost taken: Intakes,
        ghost at: nat, ghost step: W.Beat)
      requires InBeat() && NoCommands(kept) && AllWithin(kept, inbox.ledger.drained)
      modifies `sleepCycles, `sleepRequests, `promptLog, `dispatched, `built, `sent, `saved, `ingested, `history
      modifies window, window.file, gm, inbox, inbox.buffer
      ensures Valid() && (old(inbox.stop) ==> inbox.stop)
      ensures inbox.recall == old(inbox.recall) || fresh(inbox.recall)
      ensures outcome.ForcedToSleep? || outcome.BrokenBeat? || Replied(outcome)
      ensures counts.pct == minds.fatigue(counts.nodes) && F.IsHint(counts.pct, config.thresholds, counts.hint)
      ensures outcome.ForcedToSleep? <==> counts.pct >= config.forceSleepAt
      ensures outcome.ForcedToSleep? ==>
                && window.View() == old(window.View()) && gm.jobs == old(gm.jobs)
                && promptLog == old(promptLog) && sent == old(sent)
      ensures !Replied(outcome) ==> saved == old(saved) && ingested == old(ingested) && dispatched == old(dispatched)
      ensures Recalled(outcome) ==>
                && seen.heartbeat == heartbeatCount && seen.counts == counts && Affordable(built, |built| - 1)
                && IsResult(inbox.cost, inbox.recallBudget, old(inbox.recall.queries), r)
                && Searched(old(Tracks()), Tracks(), [], old(inbox.recall.queries), r, kept, seen, taken,
                            SearchOf(outcome))
      ensures !Recalled(outcome) ==> Tracks() == old(Tracks()) && taken == NO_INTAKE
      ensures history == old(history) + [step] && window.rounds == W.AfterBeat(Policy(), old(window.rounds), step)
      ensures Recalled(outcome) <==> W.Completed(Policy(), old(window.rounds), step)
      ensures sleepRequests == old(sleepRequests) + Sleeps(outcome)
      ensures Replied(outcome) ==>
                && ReplyRecorded(minds, heartbeatCount, outcome.parsed, kept, r, seen, at, outcome.SleptVoluntarily?,
                                 old(Records()), Records())
                && outcome.SleptVoluntarily? == GoesToSleep(TranslationOf(minds, outcome.parsed, at), counts.pct)
      ensures outcome.Idled? ==> inbox.recall.processed == inbox.buffer.queue[..inbox.buffer.recalledUpTo]
    {
      hide Affordable, Current, AllAffordable, Valid, W.Completed;
      hide Tracks;
      hide Inbox.Valid, NoCommands, PromptsSound, AllWithin, IsResult, Conserved;
      hide TranslationOf, GoesToSleep, LogSound, DispatchesSound, W.AfterBeat, W.AfterBeats, W.Sanitised,
          ReplyRecorded, Searched, F.IsHint;
      hide Retried, RetriesOf;
      counts := ComputeFatigue();
      r := RecallResult([], [], []);
      seen, taken, at, step := SightOf(kept, r, counts), NO_INTAKE, 0, W.ShortCircuit;
      if counts.pct >= config.forceSleepAt {
        var _ := PerformSleep();
        EndShort();
        outcome := ForcedToSleep;
        return;
      }
      outcome, r, seen, taken, at, step := Work(kept, counts);
      Enter(step, old(window.rounds));
    }

    /** The beat after its batch was scanned. */
    method Act(kept: seq<Stimulus>, action: Action, crashed: bool)
      returns (outcome: BeatOutcome, r: RecallResult, counts: Counts, ghost seen: Sight, ghost taken: Intakes,
        ghost at: nat, ghost step: W.Beat)
      requires InBeat() && NoCommands(kept) && AllWithin(kept, inbox.ledger.drained)
      requires !(crashed && action == KillAction) && (action == KillAction ==> inbox.stop)
      modifies `sleepCycles, `sleepRequests, `promptLog, `dispatched, `built, `sent, `saved, `ingested, `history
      modifies window, window.file, gm, inbox, inbox.buffer
      ensures Valid() && (old(inbox.stop) ==> inbox.stop)
      ensures inbox.recall == old(inbox.recall) || fresh(inbox.recall)
      ensures outcome.CommandCrashed? <==> crashed
      ensures outcome.KilledByCommand? <==> !crashed && action == KillAction
      ensures outcome.SleptOnCommand? <==> !crashed && action == SleepAction
      ensures Recalled(outcome) ==> !crashed && action == NoAction
      ensures outcome.ForcedToSleep? ==> counts.pct >= config.forceSleepAt
      ensures outcome.BrokenBeat? || Replied(outcome) ==> counts.pct < config.forceSleepAt
      ensures outcome.ForcedToSleep? || outcome.BrokenBeat? || Replied(outcome) ==>
                && counts.pct == minds.fatigue(counts.nodes)
                && F.IsHint(counts.pct, config.thresholds, counts.hint)
      ensures ShortCircuit(outcome) ==>
                && window.View() == old(window.View()) && gm.jobs == old(gm.jobs)
                && promptLog == old(promptLog) && sent == old(sent)
      ensures !Replied(outcome) ==> saved == old(saved) && ingested == old(ingested) && dispatched == old(dispatched)
      ensures history == old(history) + [step] && window.rounds == W.AfterBeat(Policy(), old(window.rounds), step)
      ensures Recalled(outcome) <==> W.Completed(Policy(), old(window.rounds), step)
      ensures sleepRequests == old(sleepRequests) + Sleeps(outcome)
      ensures Recalled(outcome) ==>
                && seen.heartbeat == heartbeatCount && seen.counts == counts && Affordable(built, |built| - 1)
                && IsResult(inbox.cost, inbox.recallBudget, old(inbox.recall.queries), r)
                && Searched(old(Tracks()), Tracks(), [], old(inbox.recall.queries), r, kept, seen, taken,
                            SearchOf(outcome))
      ensures !Recalled(outcome) ==> Tracks() == old(Tracks()) && taken == NO_INTAKE
      ensures Replied(outcome) ==>
                && ReplyRecorded(minds, heartbeatCount, outcome.parsed, kept, r, seen, at, outcome.SleptVoluntarily?,
                                 old(Records()), Records())
                && outcome.SleptVoluntarily? == GoesToSleep(TranslationOf(minds, outcome.parsed, at), counts.pct)
      ensures outcome.Idled? ==> inbox.recall.processed == inbox.buffer.queue[..inbox.buffer.recalledUpTo]
    {
      hide Affordable, Current, AllAffordable;
      hide Tracks;
      hide Valid, InBeat, NoCommands, AllWithin, F.IsHint, Retried, IsResult, Searched, ReplyRecorded, GoesToSleep,
          TranslationOf;
      if crashed || action != NoAction {
        r, counts, seen, taken, at, step := RecallResult([], [], []), Counts(0, 0, 0, ""),
            SightOf(kept, RecallResult([], [], []), Counts(0, 0, 0, "")), NO_INTAKE, 0, W.ShortCircuit;
        outcome := CutShort(action, crashed);
      } else {
        outcome, r, counts, seen, taken, at, step := Respond(kept);
      }
    }

    /** What holds of the books and the prompts between beats. */
    lemma BetweenBeats()
      requires Valid()
      ensures Sound(Tracks(), inbox.ledger.arrived, multiset(inbox.buffer.queue), inbox.nextId)
      ensures CleanSights(built) && W.Sanitised(Policy()) && Policy().maxPops == config.maxPops
    {
      hide Balanced, CleanSights, AllAffordable, W.Sanitised;
    }

    /** What a session that was settled on a drained buffer had nothing found for was drained. */
    lemma MissedWasDrained()
      requires inbox.Valid() && inbox.buffer.recalledUpTo == 0
      ensures forall s :: NothingFound(inbox.recall.queries, s) ==> s in inbox.ledger.drained
    {
      hide Balanced, StimulusBuffer.FlagIsRight;
      assert inbox.buffer.queue[..0] == [];
      CoveredAreSubjects(inbox.recall.queries, false);
      forall s | NothingFound(inbox.recall.queries, s) ensures s in inbox.ledger.drained {
        UncoveredMeaning(inbox.recall.queries, s);
      }
    }

    /** The next beat starts, and listens. */
    method BeginBeat() returns (drained: seq<Stimulus>, kept: seq<Stimulus>, action: Action, crashed: bool)
      requires Valid()
      modifies `heartbeatCount
      modifies inbox`nextId, inbox`ledger, inbox`tick, inbox`searches, inbox`stop, inbox`said, inbox.buffer,
          inbox.recall
      ensures InBeat() && heartbeatCount == old(heartbeatCount) + 1 && (old(inbox.stop) ==> inbox.stop)
      ensures multiset(drained) == multiset(old(inbox.buffer.queue)) && SortedBy(Earlier(), drained)
      ensures inbox.ledger.drained == old(inbox.ledger.drained) + multiset(drained)
          && inbox.ledger.pushed == old(inbox.ledger.pushed)
      ensures inbox.recall.queries
           == old(inbox.recall.queries) + Queried(inbox.world.memory, old(inbox.searches),
                                                  Unseen(drained, old(inbox.recall.processed)))
      ensures multiset(Subjects(inbox.recall.queries)) == multiset(drained)
          <==> old(multiset(inbox.recall.processed) <= multiset(inbox.buffer.queue))
      ensures forall s :: s in drained ==> s in Subjects(inbox.recall.queries)
      ensures forall s :: NothingFound(inbox.recall.queries, s) ==> s in inbox.ledger.drained
      ensures kept == ScanOf(drained).kept && action == ScanOf(drained).action && crashed == ScanOf(drained).crashed
      ensures NoCommands(kept) && AllWithin(kept, inbox.ledger.drained)
      ensures action == KillAction ==> inbox.stop
    {
      hide Inbox.Valid, NoCommands, PromptsSound, AllWithin, Conserved, ScanOf, LogSound, DispatchesSound, W.AfterBeats,
          W.Sanitised;
      hide SortedBy, Earlier, StimulusBuffer.Valid, Subjects, Unseen, Queried, NothingFound, Answers;
      heartbeatCount := heartbeatCount + 1;
      drained, kept, action, crashed := Listen();
      SubjectsAre(inbox);
      MissedWasDrained();
    }

    /** One heartbeat. */
    method Beat() returns (outcome: BeatOutcome, ghost told: BeatRecord)
      requires Valid()
      modifies `heartbeatCount, `sleepCycles, `sleepRequests, `promptLog, `dispatched, `built, `sent, `saved,
          `ingested, `history
      modifies window, window.file, gm, inbox, inbox.buffer, inbox.recall
      ensures Valid() && heartbeatCount == old(heartbeatCount) + 1 && (old(inbox.stop) ==> inbox.stop)
      ensures inbox.recall == old(inbox.recall) || fresh(inbox.recall)
      // everything that waited is taken up, oldest first; the recall session searches for what it has not seen of it,
      // and holds each of it once and nothing else exactly if all it held before was waiting
      ensures multiset(told.drained) == multiset(old(inbox.buffer.queue)) && SortedBy(Earlier(), told.drained)
      ensures told.queries
           == old(inbox.recall.queries) + Queried(inbox.world.memory, old(inbox.searches),
                                                  Unseen(told.drained, old(inbox.recall.processed)))
      ensures forall s :: s in told.drained ==> s in Subjects(told.queries)
      ensures multiset(Subjects(told.queries)) == multiset(told.drained)
          <==> old(multiset(inbox.recall.processed) <= multiset(inbox.buffer.queue))
      // what cuts the beat short, and that nothing else happened then
      ensures outcome.CommandCrashed? <==> ScanOf(told.drained).crashed
      ensures outcome.KilledByCommand? <==> !outcome.CommandCrashed? && ScanOf(told.drained).action == KillAction
      ensures outcome.SleptOnCommand? <==> !outcome.CommandCrashed? && ScanOf(told.drained).action == SleepAction
      ensures outcome.KilledByCommand? ==> inbox.stop
      ensures outcome.ForcedToSleep? ==> told.counts.pct >= config.forceSleepAt
      ensures outcome.BrokenBeat? || Replied(outcome) ==> told.counts.pct < config.forceSleepAt
      ensures outcome.ForcedToSleep? || outcome.BrokenBeat? || Replied(outcome) ==>
                && told.counts.pct == minds.fatigue(told.counts.nodes)
                && F.IsHint(told.counts.pct, config.thresholds, told.counts.hint)
      ensures ShortCircuit(outcome) ==>
                && window.View() == old(window.View()) && gm.jobs == old(gm.jobs)
                && promptLog == old(promptLog) && sent == old(sent)
      ensures !Replied(outcome) ==> saved == old(saved) && ingested == old(ingested) && dispatched == old(dispatched)
      ensures sleepRequests == old(sleepRequests) + Sleeps(outcome)
      // the window takes one step of the backlog model, a completed one exactly if recall was finalized
      ensures history == old(history) + [told.step]
          && window.rounds == W.AfterBeat(Policy(), old(window.rounds), told.step)
      ensures Recalled(outcome) <==> W.Completed(Policy(), old(window.rounds), told.step)
      // what the beat took out of the buffer
      ensures inbox.ledger.drained
           == old(inbox.ledger.drained) + multiset(told.drained) + multiset(told.taken.joined)
            + multiset(told.taken.last)
      ensures !Recalled(outcome) ==>
                && inbox.retries == old(inbox.retries) && built == old(built) && told.taken == NO_INTAKE
                && inbox.ledger.pushed == old(inbox.ledger.pushed)
      // what it put back, and what its last prompt was about: the drained batch and all that the interrupts took in,
      // in order, but the commands
      ensures Recalled(outcome) ==>
                && IsResult(inbox.cost, inbox.recallBudget, told.queries, told.recall)
                && inbox.retries == Retried(old(inbox.retries), told.recall.uncovered)
                && PushedAsFound(old(inbox.ledger.pushed), inbox.ledger.pushed, told.queries, old(inbox.retries))
                && old(built) < built && built[|built| - 1] == told.seen
                && told.seen.heartbeat == heartbeatCount && told.seen.counts == told.counts
                && Affordable(built, |built| - 1)
                && told.seen.stimuli == ScanOf(told.drained).kept + Survivors(told.taken.joined)
                && Ends(SearchOf(outcome), told.taken.last)
                && Doubled(told.drained, told.queries, old(inbox.retries), told.seen.stimuli, told.taken.again)
      // of the batch, exactly the stimuli that are no commands get into a prompt, unless the beat makes none
      ensures forall s :: s in told.drained ==>
                            (Shown(built, |old(built)|, s) <==> Recalled(outcome) && Read(s) == NotACommand)
      // a beat that gets its reply
      ensures Replied(outcome) ==>
                && ReplyRecorded(minds, heartbeatCount, outcome.parsed, ScanOf(told.drained).kept, told.recall,
                                 told.seen, told.at, outcome.SleptVoluntarily?, old(Records()), Records())
                && outcome.SleptVoluntarily?
                   == GoesToSleep(TranslationOf(minds, outcome.parsed, told.at), told.counts.pct)
      ensures outcome.Idled? ==> inbox.recall.processed == inbox.buffer.queue[..inbox.buffer.recalledUpTo]
    {
      hide Affordable, Current, AllAffordable, W.AfterBeat, W.Completed, W.Sanitised;
      hide Valid, InBeat, NoCommands, CleanSights, AllAffordable, AllWithin, IsResult, ScanOf, F.IsHint;
      hide TranslationOf, GoesToSleep;
      hide SortedBy, Earlier, StimulusBuffer.Valid, Subjects, ReplyRecorded, Retried, RetriesOf, Unseen, Queried;
      hide NothingFound, PushedAsFound, Doubled, Shown, Searched, Survivors, Read, Ends, Sound;
      hide Recalled, ShortCircuit, Sleeps, SearchOf;
      BetweenBeats();
      var drained, kept, action, crashed := BeginBeat();
      ghost var queries, t := inbox.recall.queries, Tracks();
      KilledIsNotCrashed(drained);
      var r, counts;
      ghost var seen, taken, at, step;
      outcome, r, counts, seen, taken, at, step := Act(kept, action, crashed);
      told := BeatRecord(drained, queries, r, counts, seen, taken, at, step);
      BetweenBeats();
      WhatBeatsDo(old(Tracks()), old(inbox.ledger.arrived), old(inbox.nextId), t, Tracks(), inbox.ledger.arrived,
          multiset(inbox.buffer.queue), inbox.nextId, told, outcome);
    }

    /** The loop sleeps while the runtime is paused; the other tasks go on. */
    method Rest()
      requires Valid()
      modifies inbox`nextId, inbox`ledger, inbox`tick, inbox`stop, inbox.buffer
      ensures Valid() && (old(inbox.stop) ==> inbox.stop)
    {
      hide Inbox.Valid, PromptsSound, Conserved, LogSound, DispatchesSound, W.AfterBeats, W.Sanitised;
      inbox.Await();
    }

    /** What every run keeps, between any two of its beats. */
    lemma WhatRunsKeep(s: Stimulus)
      requires Valid() && |start| <= 2 * window.caps.rounds
      // the backlog is bounded, no round is lost or reordered, and what left was handed over in that order, each
      // round whole or in its chunks
      ensures |window.rounds| <= 2 * window.caps.rounds
      ensures window.evicted + window.rounds == start + saved
      ensures HandedOver(Handing(), gm.jobs, window.evicted, 0)
      // with two pops a beat or more, enough completed beats bring what is over the cap down to one round
      ensures config.maxPops >= 2 && W.CompletedBeats(Policy(), start, history) >= W.DrainTime(Policy(), start) ==>
                W.Excess(Policy(), window.rounds) <= 1
      // every stimulus that came in was drained or waits, at most once again, and waits at most once at a time
      ensures var l, queue := inbox.ledger, multiset(inbox.buffer.queue);
        && (s in l.arrived ==> 1 <= l.drained[s] + queue[s] <= 1 + MAX_RECALL_RETRIES)
        && (s !in l.arrived ==> s !in l.drained && s !in queue)
        && l.pushed[s] <= MAX_RECALL_RETRIES && queue[s] <= 1
      // no beat has two prompt entries or two dispatches, no dispatch has a sleep call, no command was ever in a
      // prompt, and every prompt sent fits, or has an empty window, or had ten rounds pruned for it
      ensures forall i, j :: 0 <= i < j < |promptLog| ==> promptLog[i].heartbeat < promptLog[j].heartbeat
      ensures forall i, j :: 0 <= i < j < |dispatched| ==> dispatched[i].heartbeat < dispatched[j].heartbeat
      ensures forall i :: 0 <= i < |dispatched| ==> NoSleepCall(dispatched[i].calls)
      ensures forall i :: 0 <= i < |built| ==> NoCommands(built[i].stimuli)
      ensures forall j :: 0 <= j < |sent| ==> WasPrompt(sent[j], built)
    {
      hide WasPrompt, W.CompletedBeats, W.AfterBeats, NoCommands, HandedOver, Settled, StimulusBuffer.Valid;
      if config.maxPops >= 2 && W.CompletedBeats(Policy(), start, history) >= W.DrainTime(Policy(), start) {
        W.BacklogDrainTime(Policy(), start, history);
      }
      W.BacklogBounded(Policy(), start, history);
      Accounted(inbox.ledger, multiset(inbox.buffer.queue), inbox.nextId, inbox.retries, s);
    }

  }

  // ---- a command comes back ----------------------------------------------

  /** Recall sees the batch before the commands are taken out of it. So whatever is in the session, a command like
      anything else, goes back into the buffer exactly when memory holds nothing for it, unless it went back before. */
  lemma UncoveredReturns(cost: Cost, budget: int, queries: seq<Query>, r: RecallResult, retries: map<nat, nat>,
                         s: Stimulus)
    requires IsResult(cost, budget, queries, r) && s in Subjects(queries)
    requires forall t :: t in Subjects(queries) && t.id == s.id ==> t == s
    ensures s in PushedBack(retries, r.uncovered) <==> NothingFound(queries, s) && RetriesOf(retries, s.id) == 0
  {
    hide IsRanking, IsAdmission, RetriesOf, NothingFound, PushedBack;
    CoveredAreSubjects(queries, false);
    UncoveredMeaning(queries, s);
    BackExactly(retries, r.uncovered, s);
    assert s in PushedBack(retries, r.uncovered) <==> s in multiset(PushedBack(retries, r.uncovered));
  }

  /** A command that does, with an empty memory. */
  lemma StatusReturns()
    ensures var s := Stimulus(0, "user_message", "channel:cli", "/status", 0, false);
      Read(s) == Is(Status) && PushedBack(map[], Covered([Query(s, [])], false)) == [s]
  {
    hide ParseCommand;
    StatusIsRead();
    var q := [Query(Stimulus(0, "user_message", "channel:cli", "/status", 0, false), [])];
    assert q[..0] == [] && Covered(q, false) == [q[0].stimulus] && [q[0].stimulus][..0] == [];
  }

  // ---- small facts about a beat ------------------------------------------

  lemma SeededAll(drained: seq<Stimulus>, before: seq<Stimulus>)
    ensures forall s :: s in drained ==> s in before + Unseen(drained, before)
  {
  }

  lemma KeptWereDrained(drained: seq<Stimulus>, all: multiset<Stimulus>)
    requires multiset(drained) <= all
    ensures NoCommands(ScanOf(drained).kept) && AllWithin(ScanOf(drained).kept, all)
  {
    hide ScanOf, NoCommands;
    KeptAreNoCommands(drained);
    forall s | s in ScanOf(drained).kept ensures s in all {
      assert s in multiset(drained);
    }
  }

  /** What a beat means for its stimuli, from its traces before it, after it listened, and after it. */
  lemma WhatBeatsDo(t0: Traces, a: multiset<Stimulus>, n: nat, t: Traces, t': Traces, a': multiset<Stimulus>,
                    queue': multiset<Stimulus>, n': nat, told: BeatRecord, o: BeatOutcome)
    requires Sound(t0, a, multiset(told.drained), n) && Sound(t', a', queue', n') && CleanSights(t'.built)
    requires t == t0.(drained := t0.drained + multiset(told.drained))
    requires forall s :: NothingFound(told.queries, s) ==> s in t.drained
    requires Recalled(o) ==>
               && !Ended(ScanOf(told.drained))
               && Searched(t, t', [], told.queries, told.recall, ScanOf(told.drained).kept, told.seen, told.taken,
                           SearchOf(o))
    requires !Recalled(o) ==> t' == t && told.taken == NO_INTAKE
    ensures t'.drained
         == t0.drained + multiset(told.drained) + multiset(told.taken.joined) + multiset(told.taken.last)
    ensures Recalled(o) ==>
              && t'.retries == Retried(t0.retries, told.recall.uncovered)
              && PushedAsFound(t0.pushed, t'.pushed, told.queries, t0.retries)
              && t0.built < t'.built && t'.built[|t'.built| - 1] == told.seen
              && told.seen.stimuli == ScanOf(told.drained).kept + Survivors(told.taken.joined)
              && Ends(SearchOf(o), told.taken.last)
              && Doubled(told.drained, told.queries, t0.retries, told.seen.stimuli, told.taken.again)
    ensures forall s :: s in told.drained ==>
                          (Shown(t'.built, |t0.built|, s) <==> Recalled(o) && Read(s) == NotACommand)
  {
    hide ScanOf, NothingFound, PushedAsFound, Doubled, Shown, Survivors, Read, Ends, Sound, CleanSights, BackAsFound,
        PushedBack, Retried;
    if Recalled(o) {
      SearchedSince(t0, t, t', told.drained, told.queries, told.recall, ScanOf(told.drained).kept, told.seen,
          told.taken, SearchOf(o));
      WhatSearchesDo(t0, a, n, t', a', queue', n', told.drained, told.queries, told.recall, told.seen, told.taken,
          SearchOf(o));
    }
    forall s | s in told.drained ensures Shown(t'.built, |t0.built|, s) <==> Recalled(o) && Read(s) == NotACommand {
      ShownExactly(t'.built, |t0.built|, told.drained, Survivors(told.taken.joined), s);
    }
  }

  lemma BrokenBeats(thought: Thought)
    requires !thought.Decided?
    ensures var o := BrokenBeat(thought);
      && !Replied(o) && (Recalled(o) <==> !thought.CompactionRaised?)
      && Sleeps(o) == (if thought.Unanswered? then SleptInside(thought.why) else 0)
      && (thought.Unanswered? ==> SearchOf(o) == thought.why)
  {
  }

  lemma KilledIsNotCrashed(stimuli: seq<Stimulus>)
    ensures !(ScanOf(stimuli).crashed && ScanOf(stimuli).action == KillAction)
  {
    hide Read;
  }

  lemma SubjectsAre(inbox: Inbox)
    requires inbox.Valid()
    ensures Subjects(inbox.recall.queries) == inbox.recall.processed
  {
  }

  lemma LogAges(log: seq<PromptEntry>, before: nat)
    requires LogSound(log, before)
    ensures LogSound(log, before + 1)
  {
  }

  lemma DispatchesAge(ds: seq<Dispatch>, before: nat)
    requires DispatchesSound(ds, before)
    ensures DispatchesSound(ds, before + 1)
  {
  }

  lemma PrunedShape(d: Disk, includeRecall: bool, m: Mirror, a: seq<Job>, n: nat, w: Mirror, b: seq<Job>)
    requires PrunedTo(d, includeRecall, m, a, n, w, b)
    ensures n <= |m.rounds| && w.rounds == m.rounds[n..]
  {
  }

  lemma ConservedByPruning(total: seq<Round>, g: Setting, d: Disk, m: Mirror, a: seq<Job>, n: nat, w: Mirror,
                           b: seq<Job>)
    requires PrunedTo(d, g.includeRecall, m, a, n, w, b)
    requires Whole(total, g, m.evicted, m.rounds, a)
    ensures Whole(total, g, w.evicted, w.rounds, b)
  {
    hide HandedOver, Pops, WholeJobs;
    WholeJobsHandOver(g, m.rounds[..n], |a|);
    HandMore(g, a, m.evicted, WholeJobs(m.rounds[..n], g.includeRecall), m.rounds[..n], 0);
    assert m.evicted + m.rounds[..n] + m.rounds[n..] == m.evicted + m.rounds;
  }

  lemma ConservedByCompaction(total: seq<Round>, g: Setting, tok: Estimator, caps: Caps, maxPops: int, d: Disk,
                              m: Mirror, a: seq<Job>)
    requires caps.tokens > 0 && caps.rounds > 0
    requires Whole(total, g, m.evicted, m.rounds, a)
    ensures var e :=
        CompactEffect(tok, caps, m.rounds, maxPops, g.includeRecall, g.splitChunkTokens, g.raises, |a|);
      var w := Pops(d, m, e.pops);
      && w.rounds == m.rounds[e.pops..]
      && Whole(total, g, w.evicted, w.rounds, a + e.jobs)
  {
    hide HandedOver, CompactEffect, Pops;
    var e := CompactEffect(tok, caps, m.rounds, maxPops, g.includeRecall, g.splitChunkTokens, g.raises, |a|);
    PopsShape(d, m, e.pops);
    CompactionHandsOver(g, tok, caps, m.rounds, maxPops, |a|);
    HandMore(g, a, m.evicted, e.jobs, m.rounds[..e.pops], 0);
    assert m.evicted + m.rounds[..e.pops] + m.rounds[e.pops..] == m.evicted + m.rounds;
  }

  lemma ConservedBySaving(total: seq<Round>, g: Setting, evicted: seq<Round>, rounds: seq<Round>, jobs: seq<Job>,
                          r: Round)
    requires Whole(total, g, evicted, rounds, jobs)
    ensures Whole(total + [r], g, evicted, rounds + [r], jobs)
  {
    hide HandedOver;
    assert evicted + (rounds + [r]) == evicted + rounds + [r];
  }
}
