/** The part of the runtime that stimuli pass through: the buffer, the current recall session, the retry
    counters in the stimuli's metadata, and the stop flag, with every other task of the event loop as an
    environment (`krakey/engines/heartbeat/orchestrator.py`, `krakey/engines/heartbeat/idle.py`). */
module Intake {
  import opened Commands
  import opened Recall
  import opened Sorting
  import opened Stimuli

  const MAX_RECALL_RETRIES := 1

  // ---- the environment ---------------------------------------------------

  /** A stimulus on its way into the buffer; pushing it makes it an object of its own. */
  datatype Draft = Draft(kind: string, source: string, content: string, time: int, adrenalin: bool)

  /** What the rest of the system does while the heartbeat is suspended: at suspension number `i` other tasks
      push `arrivals(i)` and may request a stop. `outputs(i)` is the text of a command's answer, `clock(i)` the
      time, and `slices(i)` the number of polls a wait lasts from then on; `memory(i)` answers search number `i`. */
  datatype World = World(arrivals: nat -> seq<Draft>, stops: nat -> bool, memory: Memory,
                         outputs: nat -> string, clock: nat -> int, slices: nat -> nat)

  /** The runtime's own messages to Self. */
  datatype Notice =
    | Answer(command: Command)
    | NotTranslated
    | CallsNotParsed(lost: nat, salvaged: nat, total: int)
    | SleepRefused
    | SleepDone
    | SleepFailed

  function DraftOf(n: Notice, text: string, time: int): Draft {
    var source :=
      match n
      case Answer(_) => "system:command"
      case NotTranslated => "system:decision"
      case CallsNotParsed(_, _, _) => "system:tool_call_parse"
      case _ => "system:sleep";
    Draft("system_event", source, text, time, n.NotTranslated? || n.CallsNotParsed? || n.SleepFailed?)
  }

  function CommandName(c: Command): string {
    match c
    case Status => "status"
    case MemoryStats => "memory_stats"
    case SleepNow => "sleep"
    case Kill => "kill"
  }

  function Answers(cs: seq<Command>): (ns: seq<Notice>)
    ensures |ns| == |cs| && forall i :: 0 <= i < |cs| ==> ns[i] == Answer(cs[i])
  {
    if cs == [] then [] else Answers(cs[..|cs| - 1]) + [Answer(cs[|cs| - 1])]
  }

  // ---- retries -----------------------------------------------------------

  /** `metadata.get("recall_retries", 0)`. */
  function RetriesOf(retries: map<nat, nat>, id: nat): nat {
    if id in retries then retries[id] else 0
  }

  /** Offering one stimulus for pushback: what goes back into the buffer, and the counters afterwards. */
  function Back(retries: map<nat, nat>, s: Stimulus): seq<Stimulus> {
    if RetriesOf(retries, s.id) >= MAX_RECALL_RETRIES then [] else [s]
  }

  function Bumped(retries: map<nat, nat>, s: Stimulus): map<nat, nat> {
    var n := RetriesOf(retries, s.id);
    if n >= MAX_RECALL_RETRIES then retries else retries[s.id := n + 1]
  }

  /** The counters after offering every stimulus of `us` in turn. */
  function Retried(retries: map<nat, nat>, us: seq<Stimulus>): map<nat, nat> {
    if us == [] then retries else Bumped(Retried(retries, us[..|us| - 1]), us[|us| - 1])
  }

  function PushedBack(retries: map<nat, nat>, us: seq<Stimulus>): seq<Stimulus> {
    if us == [] then []
    else PushedBack(retries, us[..|us| - 1]) + Back(Retried(retries, us[..|us| - 1]), us[|us| - 1])
  }

  function IdsOf(us: seq<Stimulus>): set<nat> {
    set s | s in us :: s.id
  }

  lemma IdsSnoc(us: seq<Stimulus>, s: Stimulus)
    ensures IdsOf(us + [s]) == IdsOf(us) + {s.id}
  {
    assert forall t :: t in us + [s] <==> t in us || t == s;
  }

  predicate DistinctIds(us: seq<Stimulus>) {
    forall i, j :: 0 <= i < j < |us| ==> us[i].id != us[j].id
  }

  lemma DistinctIdsSnoc(us: seq<Stimulus>, s: Stimulus)
    requires DistinctIds(us) && s.id !in IdsOf(us)
    ensures DistinctIds(us + [s])
  {
    forall i | 0 <= i < |us| ensures us[i].id != s.id {
      assert us[i] in us;
    }
  }

  lemma PushbackStep(retries: map<nat, nat>, us: seq<Stimulus>)
    requires us != []
    ensures var n := |us| - 1;
      var m := Retried(retries, us[..n]);
      var id := us[n].id;
      if RetriesOf(m, id) >= MAX_RECALL_RETRIES
      then PushedBack(retries, us) == PushedBack(retries, us[..n]) && Retried(retries, us) == m
      else PushedBack(retries, us) == PushedBack(retries, us[..n]) + [us[n]]
           && Retried(retries, us) == m[id := RetriesOf(m, id) + 1]
  {
    hide PushedBack, Retried;
    PushbackUnfold(retries, us, |us| - 1);
    assert us[..|us|] == us;
    assert PushedBack(retries, us[..|us| - 1]) + [] == PushedBack(retries, us[..|us| - 1]);
  }

  lemma PushbackUnfold(retries: map<nat, nat>, us: seq<Stimulus>, i: nat)
    requires i < |us|
    ensures PushedBack(retries, us[..i + 1]) == PushedBack(retries, us[..i]) + Back(Retried(retries, us[..i]), us[i])
    ensures Retried(retries, us[..i + 1]) == Bumped(Retried(retries, us[..i]), us[i])
  {
    assert us[..i + 1][..i] == us[..i];
  }

  lemma NothingPushedBack(retries: map<nat, nat>)
    ensures PushedBack(retries, []) == [] && Retried(retries, []) == retries
  {
  }

  /** A stimulus goes back exactly when it was never pushed back before, and once however often it is
      offered; its counter then says so. */
  lemma {:induction false} PushbackMeaning(retries: map<nat, nat>, us: seq<Stimulus>)
    ensures IdsOf(PushedBack(retries, us)) == set id | id in IdsOf(us) && RetriesOf(retries, id) == 0
    ensures DistinctIds(PushedBack(retries, us))
    ensures forall id: nat :: RetriesOf(Retried(retries, us), id)
                           == RetriesOf(retries, id) + if id in IdsOf(PushedBack(retries, us)) then 1 else 0
    ensures forall s :: s in PushedBack(retries, us) ==> s in us
  {
    hide IdsOf, DistinctIds;
    if us == [] {
      NoIds();
    } else {
      var n := |us| - 1;
      PushbackMeaning(retries, us[..n]);
      PushbackStep(retries, us);
      assert us == us[..n] + [us[n]];
      IdsSnoc(us[..n], us[n]);
      IdsSnoc(PushedBack(retries, us[..n]), us[n]);
      if RetriesOf(Retried(retries, us[..n]), us[n].id) < MAX_RECALL_RETRIES {
        DistinctIdsSnoc(PushedBack(retries, us[..n]), us[n]);
      }
    }
  }

  /** Among objects told apart by their ids, exactly the offered ones never pushed back before go back, once each. */
  lemma BackExactly(retries: map<nat, nat>, us: seq<Stimulus>, s: Stimulus)
    requires forall t :: t in us && t.id == s.id ==> t == s
    ensures multiset(PushedBack(retries, us))[s] == if s in us && RetriesOf(retries, s.id) == 0 then 1 else 0
  {
    var back := PushedBack(retries, us);
    PushbackMeaning(retries, us);
    if s in us && RetriesOf(retries, s.id) == 0 {
      assert s.id in IdsOf(us) && s.id in IdsOf(back);
      assert s in back;
    }
    if s in back {
      assert s.id in IdsOf(back);
      OnceByIds(back, s);
    }
  }

  /** Offered these, exactly those go back for which nothing was found, unless they went back before, once each. */
  ghost predicate BackAsFound(queries: seq<Query>, retries: map<nat, nat>, us: seq<Stimulus>) {
    forall s :: multiset(PushedBack(retries, us))[s]
                == if NothingFound(queries, s) && RetriesOf(retries, s.id) == 0 then 1 else 0
  }

  lemma {:induction false} OnceByIds(us: seq<Stimulus>, s: Stimulus)
    requires DistinctIds(us) && s in us
    ensures multiset(us)[s] == 1
  {
    var n := |us| - 1;
    assert us == us[..n] + [us[n]];
    if us[n] == s {
      assert s !in us[..n] && s !in multiset(us[..n]);
    } else {
      OnceByIds(us[..n], s);
    }
  }

  lemma NoIds()
    ensures IdsOf([]) == {} && DistinctIds([])
  {
  }

  // ---- the books ---------------------------------------------------------

  /** Every stimulus that ever arrived, was handed out by a drain, or was pushed back, with multiplicity. */
  datatype Ledger = Ledger(arrived: multiset<Stimulus>, drained: multiset<Stimulus>, pushed: multiset<Stimulus>)

  /** An id is one object: nothing arrives twice, and different arrivals have different ids. */
  ghost predicate Identified(arrived: multiset<Stimulus>, nextId: nat) {
    && (forall s :: s in arrived ==> arrived[s] == 1 && s.id < nextId)
    && (forall s, t :: s in arrived && t in arrived && s.id == t.id ==> s == t)
  }

  lemma OneMoreArrives(arrived: multiset<Stimulus>, nextId: nat, s: Stimulus)
    requires Identified(arrived, nextId) && s.id == nextId
    ensures Identified(arrived + multiset{s}, nextId + 1)
  {
    assert s !in arrived;
    assert forall t :: t in arrived + multiset{s} <==> t in arrived || t == s;
  }

  /** Whatever came in, once from outside and at most once more by pushback, was drained or is queued. */
  ghost predicate Balanced(l: Ledger, queue: multiset<Stimulus>, nextId: nat, retries: map<nat, nat>) {
    && l.drained + queue == l.arrived + l.pushed
    && l.pushed <= l.drained
    && Identified(l.arrived, nextId)
    && (forall s :: s in l.pushed ==>
          s in l.arrived && l.pushed[s] <= RetriesOf(retries, s.id) <= MAX_RECALL_RETRIES)
  }

  /** So everything that arrived was drained or waits, nothing is drained more than twice, and nothing is queued
      twice at a time. */
  lemma Accounted(l: Ledger, queue: multiset<Stimulus>, nextId: nat, retries: map<nat, nat>, s: Stimulus)
    requires Balanced(l, queue, nextId, retries)
    ensures s in l.arrived ==> 1 <= l.drained[s] + queue[s] <= 1 + MAX_RECALL_RETRIES
    ensures s in l.arrived ==> l.drained[s] + queue[s] == 1 + l.pushed[s]
    ensures s !in l.arrived ==> s !in l.drained && s !in queue
    ensures queue[s] <= 1 && l.pushed[s] <= MAX_RECALL_RETRIES
  {
    assert (l.drained + queue)[s] == (l.arrived + l.pushed)[s];
    assert s !in l.arrived ==> s !in l.pushed;
  }

  lemma ArrivalBalances(l: Ledger, queue: multiset<Stimulus>, nextId: nat, retries: map<nat, nat>, s: Stimulus)
    requires Balanced(l, queue, nextId, retries) && s.id == nextId
    ensures Balanced(l.(arrived := l.arrived + multiset{s}), queue + multiset{s}, nextId + 1, retries)
  {
    hide Identified;
    OneMoreArrives(l.arrived, nextId, s);
    assert l.drained + (queue + multiset{s}) == l.drained + queue + multiset{s}
        == l.arrived + l.pushed + multiset{s} == l.arrived + multiset{s} + l.pushed;
  }

  lemma DrainBalances(l: Ledger, queue: multiset<Stimulus>, nextId: nat, retries: map<nat, nat>)
    requires Balanced(l, queue, nextId, retries)
    ensures Balanced(l.(drained := l.drained + queue), multiset{}, nextId, retries)
  {
    hide Identified;
  }

  lemma PushbackBalances(l: Ledger, queue: multiset<Stimulus>, nextId: nat, retries: map<nat, nat>, s: Stimulus)
    requires Balanced(l, queue, nextId, retries)
    requires s in l.drained && RetriesOf(retries, s.id) < MAX_RECALL_RETRIES
    ensures Balanced(l.(pushed := l.pushed + multiset{s}), queue + multiset{s}, nextId,
                     retries[s.id := RetriesOf(retries, s.id) + 1])
  {
    hide Identified;
    assert s !in l.pushed;
    assert (l.drained + queue)[s] == (l.arrived + l.pushed)[s];
    assert l.drained + (queue + multiset{s}) == l.drained + queue + multiset{s}
        == l.arrived + (l.pushed + multiset{s});
    assert forall t :: t in l.pushed + multiset{s} <==> t in l.pushed || t == s;
  }

  /** The session has seen everything peeked at, and nothing that is still waiting unpeeked. */
  ghost predicate Settled(processed: seq<Stimulus>, peeked: seq<Stimulus>, drained: multiset<Stimulus>) {
    && (forall s :: s in processed ==> s in drained || s in peeked)
    && (forall s :: s in peeked ==> s in processed)
  }

  lemma PrefixAndRest(queue: seq<Stimulus>, k: nat)
    requires k <= |queue|
    ensures queue[..k] + queue[k..] == queue == queue[..|queue|]
    ensures queue[k..] == [] ==> queue[..k] == queue
  {
  }

  lemma SettledOnPeeked(peeked: seq<Stimulus>, drained: multiset<Stimulus>)
    ensures Settled(peeked, peeked, drained)
  {
  }

  function Unseen(stimuli: seq<Stimulus>, seen: seq<Stimulus>): (r: seq<Stimulus>)
    ensures forall s :: s in r <==> s in stimuli && s !in seen
  {
    if stimuli == [] then []
    else
      var last := stimuli[|stimuli| - 1];
      Unseen(stimuli[..|stimuli| - 1], seen) + if last in seen then [] else [last]
  }

  lemma CountSnoc(xs: seq<Stimulus>, x: Stimulus, s: Stimulus)
    ensures multiset(xs + [x])[s] == multiset(xs)[s] + if x == s then 1 else 0
  {
  }

  lemma UnseenUnfold(stimuli: seq<Stimulus>, seen: seq<Stimulus>)
    ensures stimuli == [] ==> Unseen(stimuli, seen) == []
    ensures stimuli != [] ==>
              var n := |stimuli| - 1;
              Unseen(stimuli, seen) == if stimuli[n] in seen then Unseen(stimuli[..n], seen)
                                       else Unseen(stimuli[..n], seen) + [stimuli[n]]
  {
  }

  lemma {:induction false} UnseenCounts(stimuli: seq<Stimulus>, seen: seq<Stimulus>, s: Stimulus)
    ensures multiset(Unseen(stimuli, seen))[s] == if s in seen then 0 else multiset(stimuli)[s]
  {
    hide Unseen;
    UnseenUnfold(stimuli, seen);
    if stimuli != [] {
      var n := |stimuli| - 1;
      UnseenCounts(stimuli[..n], seen, s);
      assert stimuli == stimuli[..n] + [stimuli[n]];
      CountSnoc(stimuli[..n], stimuli[n], s);
      CountSnoc(Unseen(stimuli[..n], seen), stimuli[n], s);
    }
  }

  /** A session given what it has not seen of the drained batch holds every drained stimulus, each exactly once and
      nothing else, exactly when all it held before was waiting in the queue, each once. */
  lemma SeededOnce(queue: seq<Stimulus>, processed: seq<Stimulus>, drained: seq<Stimulus>)
    requires multiset(drained) == multiset(queue)
    requires forall s :: multiset(queue)[s] <= 1
    ensures multiset(processed + Unseen(drained, processed)) == multiset(drained)
        <==> multiset(processed) <= multiset(queue)
  {
    hide Unseen;
    var all := processed + Unseen(drained, processed);
    forall s ensures multiset(all)[s] == multiset(processed)[s] + if s in processed then 0 else multiset(queue)[s] {
      UnseenCounts(drained, processed, s);
    }
    forall s ensures s in processed <==> multiset(processed)[s] > 0 {
    }
    if multiset(all) == multiset(drained) {
      forall s ensures multiset(processed)[s] <= multiset(queue)[s] {
        assert multiset(all)[s] == multiset(queue)[s];
      }
    }
    if multiset(processed) <= multiset(queue) {
      forall s ensures multiset(all)[s] == multiset(drained)[s] {
      }
    }
  }

  /** What the idle wait peeked at waits in the queue. */
  lemma PeekedWaits(queue: seq<Stimulus>, k: nat)
    requires k <= |queue|
    ensures multiset(queue[..k]) <= multiset(queue)
  {
    assert queue == queue[..k] + queue[k..];
  }

  function Greeting(id: nat): Stimulus {
    Stimulus(id, "user_message", "channel:cli", "hello", id, false)
  }

  /** A state in which it does not: something was found for the first of two messages, the beat that drained it asked
      for a sleep that did nothing, so its session stays, and the second message is drained. */
  lemma StaleSession(found: Node)
    ensures var s, t := Greeting(0), Greeting(1);
      var l := Ledger(multiset{s, t}, multiset{s}, multiset{});
      && Balanced(l, multiset{t}, 2, map[]) && Settled([s], [], l.drained)
      && Covered([Query(s, [found])], true) == [s] && Subjects([Query(s, [found])]) == [s]
      && multiset([s] + Unseen([t], [s])) != multiset([t])
  {
    var s, t := Greeting(0), Greeting(1);
    var l := Ledger(multiset{s, t}, multiset{s}, multiset{});
    assert forall x :: x in l.arrived <==> x == s || x == t;
    assert l.drained + multiset{t} == l.arrived + l.pushed;
    var q := [Query(s, [found])];
    assert q[..0] == [];
    assert multiset([s] + Unseen([t], [s]))[s] == 1 && multiset([t])[s] == 0;
  }

  // ---- the source's state ------------------------------------------------

  class Inbox {
    const world: World
    const cost: Cost
    const recallBudget: int
    const buffer: StimulusBuffer
    var recall: RecallSession
    var retries: map<nat, nat>
    var nextId: nat
    var tick: nat
    var searches: nat
    var stop: bool
    var said: seq<Notice>
    ghost var ledger: Ledger

    ghost predicate Valid()
      reads `recall, `retries, `nextId, `ledger, buffer, recall
    {
      && buffer.Valid()
      && Balanced(ledger, multiset(buffer.queue), nextId, retries)
      && recall.cost == cost && recall.budget == recallBudget
      && Subjects(recall.queries) == recall.processed
      && Settled(recall.processed, buffer.queue[..buffer.recalledUpTo], ledger.drained)
    }

    /** The heartbeat went on within its beat: more may have been drained, nothing was pushed back. */
    twostate predicate Progressed()
      reads this, buffer
    {
      && old(ledger.drained) <= ledger.drained && ledger.pushed == old(ledger.pushed) && retries == old(retries)
      && (old(stop) ==> stop) && tick >= old(tick)
    }

    /** Other tasks ran: stimuli may have been added at the end of the queue, nothing else happened to them. */
    twostate predicate Waited()
      reads this, buffer
    {
      && old(buffer.queue) <= buffer.queue && buffer.recalledUpTo == old(buffer.recalledUpTo)
      && ledger.drained == old(ledger.drained) && ledger.pushed == old(ledger.pushed)
      && (old(stop) ==> stop) && tick >= old(tick)
    }

    constructor (world: World, cost: Cost, recallBudget: int)
      ensures Valid() && fresh(buffer) && fresh(recall)
      ensures this.world == world && this.cost == cost && this.recallBudget == recallBudget
      ensures buffer.queue == [] && !stop && said == [] && tick == 0 && searches == 0 && recall.processed == []
      ensures ledger == Ledger(multiset{}, multiset{}, multiset{})
    {
      this.world, this.cost, this.recallBudget := world, cost, recallBudget;
      buffer := new StimulusBuffer();
      recall := new RecallSession(cost, recallBudget);
      retries, nextId, tick, searches, stop, said := map[], 0, 0, 0, false, [];
      ledger := Ledger(multiset{}, multiset{}, multiset{});
    }

    method Push(d: Draft)
      requires Valid()
      modifies `nextId, `ledger, buffer
      ensures Valid() && Waited()
      ensures buffer.queue == old(buffer.queue) + [Stimulus(old(nextId), d.kind, d.source, d.content, d.time,
          d.adrenalin)]
    {
      hide Balanced, Settled;
      var s := Stimulus(nextId, d.kind, d.source, d.content, d.time, d.adrenalin);
      ArrivalBalances(ledger, multiset(buffer.queue), nextId, retries, s);
      buffer.Push(s);
      nextId := nextId + 1;
      ledger := ledger.(arrived := ledger.arrived + multiset{s});
      assert buffer.queue[..buffer.recalledUpTo] == old(buffer.queue)[..buffer.recalledUpTo];
    }

    /** One suspension of the heartbeat. */
    method Await()
      requires Valid()
      modifies `nextId, `ledger, `tick, `stop, buffer
      ensures Valid() && Waited() && tick == old(tick) + 1
      ensures stop == (old(stop) || world.stops(old(tick)))
      ensures |buffer.queue| == |old(buffer.queue)| + |world.arrivals(old(tick))|
    {
      hide Balanced, Settled;
      var drafts := world.arrivals(tick);
      stop := stop || world.stops(tick);
      tick := tick + 1;
      for i := 0 to |drafts|
        invariant Valid() && Waited() && tick == old(tick) + 1
        invariant stop == (old(stop) || world.stops(old(tick)))
        invariant |buffer.queue| == |old(buffer.queue)| + i
      {
        Push(drafts[i]);
      }
    }

    method Say(n: Notice, text: string)
      requires Valid()
      modifies `nextId, `ledger, `said, buffer
      ensures Valid() && Waited() && said == old(said) + [n]
      ensures |buffer.queue| == |old(buffer.queue)| + 1
    {
      hide Valid, DraftOf;
      Push(DraftOf(n, text, world.clock(tick)));
      said := said + [n];
    }

    /** What waits although it was drained before has been pushed back. */
    lemma QueuedAgain()
      requires Valid()
      ensures forall s :: s in buffer.queue && s in ledger.drained ==> s in ledger.pushed
    {
      hide Settled, Subjects, StimulusBuffer.FlagIsRight;
      forall s | s in buffer.queue && s in ledger.drained ensures s in ledger.pushed {
        Accounted(ledger, multiset(buffer.queue), nextId, retries, s);
        assert multiset(buffer.queue)[s] >= 1;
      }
    }

    method Feed(stimuli: seq<Stimulus>)
      requires Subjects(recall.queries) == recall.processed
      modifies recall, `searches
      ensures Subjects(recall.queries) == recall.processed
      ensures recall.processed == old(recall.processed) + stimuli
      ensures recall.queries == old(recall.queries) + Queried(world.memory, old(searches), stimuli)
      ensures searches == old(searches) + |stimuli|
    {
      SubjectsQueried(world.memory, searches, stimuli);
      SubjectsAppend(recall.queries, Queried(world.memory, searches, stimuli));
      recall.AddStimuli(world.memory, searches, stimuli);
      searches := searches + |stimuli|;
    }

    method FeedAndSettle(stimuli: seq<Stimulus>)
      requires Valid() && buffer.recalledUpTo == 0 && Settled(recall.processed + stimuli, [], ledger.drained)
      modifies recall, `searches
      ensures Valid() && recall.processed == old(recall.processed) + stimuli
      ensures recall.queries == old(recall.queries) + Queried(world.memory, old(searches), stimuli)
    {
      hide Balanced, Settled, Subjects, Queried, StimulusBuffer.FlagIsRight;
      assert buffer.queue[..0] == [];
      Feed(stimuli);
    }

    method DrainAll() returns (stimuli: seq<Stimulus>)
      requires Valid()
      modifies buffer, `ledger
      ensures Valid() && buffer.queue == [] && buffer.recalledUpTo == 0
      ensures multiset(stimuli) == multiset(old(buffer.queue)) && SortedBy(Earlier(), stimuli)
      ensures ledger == old(ledger).(drained := old(ledger.drained) + multiset(stimuli))
      ensures Settled(recall.processed + Unseen(stimuli, recall.processed), [], ledger.drained)
      ensures multiset(recall.processed + Unseen(stimuli, recall.processed)) == multiset(stimuli)
          <==> multiset(recall.processed) <= old(multiset(buffer.queue))
    {
      hide Balanced, Settled, SortedBy, Earlier, Unseen, StimulusBuffer.FlagIsRight;
      ghost var queue, upTo, l := buffer.queue, buffer.recalledUpTo, ledger;
      stimuli := buffer.Drain();
      ledger := l.(drained := l.drained + multiset(stimuli));
      DrainBalances(l, multiset(queue), nextId, retries);
      QueuedOnce(l, multiset(queue), nextId, retries);
      SettledAfterDrain(recall.processed, queue, upTo, l.drained, stimuli);
      SeededOnce(queue, recall.processed, stimuli);
      assert buffer.queue[..0] == [];
    }

    /** Everything that waits is handed out, oldest first, and the session is given what it has not
        seen. */
    method DrainAndSeedRecall() returns (stimuli: seq<Stimulus>)
      requires Valid()
      modifies `nextId, `ledger, `tick, `searches, `stop, buffer, recall
      ensures Valid() && buffer.recalledUpTo == 0 && (old(stop) ==> stop)
      ensures multiset(stimuli) == multiset(old(buffer.queue)) && SortedBy(Earlier(), stimuli)
      ensures ledger.drained == old(ledger.drained) + multiset(stimuli) && ledger.pushed == old(ledger.pushed)
      ensures recall.queries == old(recall.queries)
                              + Queried(world.memory, old(searches), Unseen(stimuli, old(recall.processed)))
      ensures recall.processed == old(recall.processed) + Unseen(stimuli, old(recall.processed))
      ensures multiset(recall.processed) == multiset(stimuli)
          <==> old(multiset(recall.processed) <= multiset(buffer.queue))
    {
      hide Valid, Settled, SortedBy, Earlier, Unseen, Queried;
      stimuli := DrainAll();
      var unseen := Unseen(stimuli, recall.processed);
      NoQueries(world.memory, searches);
      assert recall.processed + [] == recall.processed && recall.queries + [] == recall.queries;
      if unseen != [] {
        FeedAndSettle(unseen);
        Await();
      }
    }

    method PushBackOne(s: Stimulus)
      requires Valid() && buffer.recalledUpTo == 0 && s in ledger.drained
      modifies `retries, `ledger, buffer
      ensures Valid() && buffer.recalledUpTo == 0
      ensures buffer.queue == old(buffer.queue) + Back(old(retries), s) && retries == Bumped(old(retries), s)
      ensures ledger == old(ledger).(pushed := old(ledger.pushed) + multiset(Back(old(retries), s)))
    {
      hide Balanced, Settled, StimulusBuffer.FlagIsRight;
      var n := RetriesOf(retries, s.id);
      if n >= MAX_RECALL_RETRIES {
        assert buffer.queue + [] == buffer.queue && ledger.pushed + multiset([]) == ledger.pushed;
        return;
      }
      PushbackBalances(ledger, multiset(buffer.queue), nextId, retries, s);
      retries := retries[s.id := n + 1];
      buffer.Push(s);
      ledger := ledger.(pushed := ledger.pushed + multiset{s});
      assert buffer.queue[..0] == [] == old(buffer.queue)[..0];
    }

    method FinalizeRecall() returns (r: RecallResult)
      requires Valid() && buffer.recalledUpTo == 0
      ensures IsResult(cost, recallBudget, recall.queries, r)
      ensures forall s :: s in r.uncovered ==> s in ledger.drained
    {
      hide Balanced, Settled, IsResult, StimulusBuffer.FlagIsRight;
      r := recall.Finalize();
      assert buffer.queue[..0] == [];
      UncoveredWereDrained(cost, recallBudget, recall.queries, r, recall.processed, [], ledger.drained);
    }

    lemma WhatGoesBack(r: RecallResult)
      requires Valid() && buffer.recalledUpTo == 0 && IsResult(cost, recallBudget, recall.queries, r)
      ensures BackAsFound(recall.queries, retries, r.uncovered)
    {
      hide IsRanking, IsAdmission, PushedBack, RetriesOf, NothingFound, StimulusBuffer.FlagIsRight;
      assert buffer.queue[..0] == [];
      CoveredAreSubjects(recall.queries, false);
      forall s ensures multiset(PushedBack(retries, r.uncovered))[s]
                    == if NothingFound(recall.queries, s) && RetriesOf(retries, s.id) == 0 then 1 else 0 {
        UncoveredMeaning(recall.queries, s);
        if s in r.uncovered {
          Accounted(ledger, multiset(buffer.queue), nextId, retries, s);
          forall t | t in r.uncovered && t.id == s.id ensures t == s {
            Accounted(ledger, multiset(buffer.queue), nextId, retries, t);
          }
          BackExactly(retries, r.uncovered, s);
        } else {
          PushbackMeaning(retries, r.uncovered);
        }
      }
    }

    method FinalizeAndPushback() returns (r: RecallResult)
      requires Valid() && buffer.recalledUpTo == 0
      modifies `retries, `ledger, buffer
      ensures Valid() && buffer.recalledUpTo == 0
      ensures IsResult(cost, recallBudget, recall.queries, r)
      ensures buffer.queue == old(buffer.queue) + PushedBack(old(retries), r.uncovered)
      ensures retries == Retried(old(retries), r.uncovered)
      ensures ledger == old(ledger).(pushed := old(ledger.pushed) + multiset(PushedBack(old(retries), r.uncovered)))
      ensures BackAsFound(recall.queries, old(retries), r.uncovered)
    {
      hide Valid, IsResult, PushedBack, Retried, Back, Bumped, BackAsFound;
      r := FinalizeRecall();
      WhatGoesBack(r);
      var us := r.uncovered;
      NothingPushedBack(retries);
      ghost var m, back := retries, PushedBack(retries, us[..0]);
      for i := 0 to |us|
        invariant Valid() && buffer.recalledUpTo == 0
        invariant back == PushedBack(m, us[..i]) && retries == Retried(m, us[..i])
        invariant buffer.queue == old(buffer.queue) + back
        invariant ledger.arrived == old(ledger.arrived) && ledger.drained == old(ledger.drained)
        invariant ledger.pushed == old(ledger.pushed) + multiset(back)
      {
        PushbackUnfold(m, us, i);
        PushBackOne(us[i]);
        back := PushedBack(m, us[..i + 1]);
      }
      assert us[..|us|] == us;
    }

    /** A session of its own for these stimuli, finalized at once, becomes the current one. */
    method FreshRecall(stimuli: seq<Stimulus>) returns (r: RecallResult)
      requires Valid() && buffer.recalledUpTo == 0
      requires forall s :: s in stimuli ==> s in ledger.drained
      modifies `recall, `nextId, `ledger, `tick, `searches, `stop, buffer
      ensures Valid() && Waited() && fresh(recall)
      ensures recall.processed == stimuli && recall.queries == Queried(world.memory, old(searches), stimuli)
      ensures IsResult(cost, recallBudget, recall.queries, r)
    {
      hide Balanced, IsResult, Queried;
      recall := new RecallSession(cost, recallBudget);
      Feed(stimuli);
      Await();
      r := recall.Finalize();
    }

    method NewSession()
      requires Valid() && buffer.recalledUpTo == 0
      modifies `recall
      ensures Valid() && fresh(recall) && recall.processed == []
    {
      recall := new RecallSession(cost, recallBudget);
    }

    /** The idle wait: peek each new batch into a new session, leave on adrenalin. */
    method IdleWithRecall()
      requires Valid() && buffer.recalledUpTo == 0
      modifies `recall, `nextId, `ledger, `tick, `searches, `stop, buffer
      ensures Valid() && fresh(recall) && (old(stop) ==> stop)
      ensures recall.processed == buffer.queue[..buffer.recalledUpTo]
      ensures old(buffer.queue) <= buffer.queue
      ensures ledger.drained == old(ledger.drained) && ledger.pushed == old(ledger.pushed)
    {
      hide Balanced;
      NewSession();
      if buffer.adrenalinSet {
        Preload();
        return;
      }
      var slices := world.slices(tick);
      for i := 0 to slices
        invariant Valid() && fresh(recall) && recall.processed == buffer.queue[..buffer.recalledUpTo]
        invariant old(buffer.queue) <= buffer.queue && (old(stop) ==> stop)
        invariant ledger.drained == old(ledger.drained) && ledger.pushed == old(ledger.pushed)
      {
        Await();
        Preload();
        if buffer.adrenalinSet {
          break;
        }
      }
    }

    method Preload()
      requires Valid() && recall.processed == buffer.queue[..buffer.recalledUpTo]
      modifies `nextId, `ledger, `tick, `searches, `stop, buffer, recall
      ensures Valid() && recall.processed == buffer.queue[..buffer.recalledUpTo]
      ensures old(buffer.queue) <= buffer.queue && (old(stop) ==> stop)
      ensures ledger.drained == old(ledger.drained) && ledger.pushed == old(ledger.pushed)
    {
      hide Valid;
      var some := PeekAndFeed();
      if some {
        Await();
        assert buffer.queue[..buffer.recalledUpTo] == old(buffer.queue);
      }
    }

    method PeekAndFeed() returns (some: bool)
      requires Valid() && recall.processed == buffer.queue[..buffer.recalledUpTo]
      modifies buffer`recalledUpTo, recall, `searches
      ensures Valid() && recall.processed == buffer.queue && buffer.recalledUpTo == |buffer.queue|
      ensures buffer.queue[..buffer.recalledUpTo] == buffer.queue
    {
      hide Balanced, Settled, Subjects, Queried, StimulusBuffer.FlagIsRight;
      PrefixAndRest(buffer.queue, buffer.recalledUpTo);
      SettledOnPeeked(buffer.queue, ledger.drained);
      var unseen := buffer.PeekUnrecalled();
      some := unseen != [];
      if some {
        Feed(unseen);
      }
    }

    /** The wait between two attempts: true as soon as something urgent is in the buffer. */
    method WaitOrAdrenalin() returns (interrupted: bool)
      requires Valid()
      modifies `nextId, `ledger, `tick, `stop, buffer
      ensures Valid() && Waited() && interrupted == buffer.adrenalinSet
    {
      hide Balanced, Settled;
      if buffer.adrenalinSet {
        return true;
      }
      var slices := world.slices(tick);
      for i := 0 to slices
        invariant Valid() && Waited() && !buffer.adrenalinSet
      {
        Await();
        if buffer.adrenalinSet {
          return true;
        }
      }
      return false;
    }

    /** A command runs out of band: kill stops the runtime, an informational one is answered. */
    method Obey(c: Command) returns (action: Action)
      requires Valid()
      modifies `nextId, `ledger, `tick, `stop, `said, buffer
      ensures Valid() && Waited()
      ensures action == match c case Kill => KillAction case SleepNow => SleepAction case _ => NoAction
      ensures said == old(said) + if action == NoAction then [Answer(c)] else []
      ensures action == KillAction ==> stop
    {
      hide Balanced, Settled, StimulusBuffer.FlagIsRight, CommandName;
      Await();
      match c {
        case Kill =>
          stop := true;
          return KillAction;
        case SleepNow =>
          return SleepAction;
        case _ =>
          Say(Answer(c), "/" + CommandName(c) + ": " + world.outputs(tick));
          return NoAction;
      }
    }

    method HandleCommands(stimuli: seq<Stimulus>) returns (kept: seq<Stimulus>, action: Action, crashed: bool)
      requires Valid()
      modifies `nextId, `ledger, `tick, `stop, `said, buffer
      ensures Valid() && Waited()
      ensures var seen := ScanOf(stimuli);
        kept == seen.kept && action == seen.action && crashed == seen.crashed
            && said == old(said) + Answers(seen.notices)
      ensures action == KillAction ==> stop
    {
      hide Balanced, Settled, Read, StimulusBuffer.FlagIsRight, ScanOf, Answers;
      kept, action, crashed := [], NoAction, false;
      ScanNothing();
      for i := 0 to |stimuli|
        invariant Valid() && Waited()
        invariant !Ended(ScanOf(stimuli[..i])) && !crashed && action != KillAction
        invariant var seen := ScanOf(stimuli[..i]);
          kept == seen.kept && action == seen.action && said == old(said) + Answers(seen.notices)
      {
        ScanStep(stimuli, i);
        var s := stimuli[i];
        match Read(s) {
          case NotACommand =>
            kept := kept + [s];
          case Crash =>
            ScanEnds(stimuli, i + 1);
            return kept, action, true;
          case Is(c) =>
            AnswersSnoc(ScanOf(stimuli[..i]).notices, c);
            var triggered := Obey(c);
            if triggered == KillAction {
              ScanEnds(stimuli, i + 1);
              return kept, KillAction, false;
            }
            if triggered == SleepAction {
              action := SleepAction;
            }
        }
      }
      assert stimuli[..|stimuli|] == stimuli;
    }
  }

  lemma NoQueries(memory: Memory, from: nat)
    ensures Queried(memory, from, []) == []
  {
  }

  lemma ScanNothing()
    ensures ScanOf([]) == Scanned([], NoAction, [], false) && Answers([]) == []
  {
  }

  lemma AnswersSnoc(cs: seq<Command>, c: Command)
    ensures Answers(cs + [c]) == Answers(cs) + [Answer(c)]
  {
    assert (cs + [c])[..|cs|] == cs;
  }

  lemma ScanStep(stimuli: seq<Stimulus>, i: nat)
    requires i < |stimuli| && !Ended(ScanOf(stimuli[..i]))
    ensures ScanOf(stimuli[..i + 1]) == Next(ScanOf(stimuli[..i]), stimuli[i])
  {
    hide Read, Next;
    assert stimuli[..i + 1][..i] == stimuli[..i];
  }

  lemma {:induction false} ScanEnds(stimuli: seq<Stimulus>, i: nat)
    requires i <= |stimuli| && Ended(ScanOf(stimuli[..i]))
    ensures ScanOf(stimuli) == ScanOf(stimuli[..i])
    decreases |stimuli|
  {
    hide Read, Next;
    if i == |stimuli| {
      assert stimuli[..i] == stimuli;
    } else {
      assert stimuli[..|stimuli| - 1][..i] == stimuli[..i];
      ScanEnds(stimuli[..|stimuli| - 1], i);
    }
  }

  lemma QueuedOnce(l: Ledger, queue: multiset<Stimulus>, nextId: nat, retries: map<nat, nat>)
    requires Balanced(l, queue, nextId, retries)
    ensures forall s :: queue[s] <= 1
  {
    hide Balanced;
    forall s ensures queue[s] <= 1 {
      Accounted(l, queue, nextId, retries, s);
    }
  }

  lemma SettledAfterDrain(processed: seq<Stimulus>, queue: seq<Stimulus>, upTo: nat, drained: multiset<Stimulus>,
                          stimuli: seq<Stimulus>)
    requires upTo <= |queue| && multiset(stimuli) == multiset(queue)
    requires Settled(processed, queue[..upTo], drained)
    ensures Settled(processed, [], drained + multiset(stimuli))
    ensures Settled(processed + Unseen(stimuli, processed), [], drained + multiset(stimuli))
  {
    SameMembers(stimuli, queue);
    forall s | s in processed ensures s in drained + multiset(stimuli) {
      if s in queue[..upTo] {
        assert s in queue;
      }
    }
  }

  lemma UncoveredWereDrained(cost: Cost, budget: int, queries: seq<Query>, r: RecallResult,
                             processed: seq<Stimulus>, peeked: seq<Stimulus>, drained: multiset<Stimulus>)
    requires IsResult(cost, budget, queries, r) && Subjects(queries) == processed
    requires Settled(processed, peeked, drained) && peeked == []
    ensures forall s :: s in r.uncovered ==> s in drained
  {
    hide IsRanking, IsAdmission;
    CoveredAreSubjects(queries, false);
  }
}
