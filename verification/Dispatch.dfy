/** Tool dispatch and the batch tracker as interleaved tasks (`krakey/engines/dispatch/dispatcher.py`,
    `krakey/runtime/stimuli/batch_tracker.py`). */
module Dispatch {
  import opened Decimal

  // ---- call ids ----------------------------------------------------------

  function CallId(heartbeat: nat, index: nat): string {
    "hb" + Digits(heartbeat) + "_c" + Digits(index)
  }

  function UpToUnderscore(s: string): string {
    if s == "" || s[0] == '_' then "" else [s[0]] + UpToUnderscore(s[1..])
  }

  lemma {:induction false} DigitsEndAtUnderscore(d: string, rest: string)
    requires AllDigits(d) && rest != "" && rest[0] == '_'
    ensures UpToUnderscore(d + rest) == d
  {
    if d == "" {
      assert d + rest == rest;
    } else {
      DigitsEndAtUnderscore(d[1..], rest);
      assert (d + rest)[1..] == d[1..] + rest;
      assert d == [d[0]] + d[1..];
    }
  }

  lemma CallIdParts(h: nat, i: nat)
    ensures UpToUnderscore(CallId(h, i)[2..]) == Digits(h)
    ensures CallId(h, i)[2 + |Digits(h)| + 2..] == Digits(i)
    ensures |CallId(h, i)| >= 4 + |Digits(h)|
  {
    hide Digits;
    var rest := "_c" + Digits(i);
    assert CallId(h, i)[2..] == Digits(h) + rest;
    DigitsEndAtUnderscore(Digits(h), rest);
    assert CallId(h, i)[2 + |Digits(h)| + 2..] == Digits(i);
  }

  /** Ids of different beats or different positions differ. */
  lemma CallIdsDiffer(h: nat, i: nat, k: nat, j: nat)
    requires CallId(h, i) == CallId(k, j)
    ensures h == k && i == j
  {
    hide CallId, Digits;
    CallIdParts(h, i);
    CallIdParts(k, j);
    ValueOfDigits(h);
    ValueOfDigits(k);
    ValueOfDigits(i);
    ValueOfDigits(j);
  }

  // ---- the system as a value ---------------------------------------------

  /** How far a spawned task has come: not begun, awaiting its tool, feedback pushed, marked. */
  datatype Progress = Spawned | Executing | Fed | Marked

  datatype Feedback = UnknownTool | ToolError | ToolResult(adrenalin: bool)

  /** What is put into the stimulus buffer. */
  datatype Item = FeedbackFor(id: string, kind: Feedback) | BatchComplete | Foreign(n: nat)

  /** Everything observable, in order. */
  datatype Log = Registered(ids: seq<string>) | Pushed(item: Item) | Completed(id: string)

  datatype System = System(
    heartbeat: nat,
    dispatched: bool,
    tasks: map<string, Progress>,
    pending: set<string>,
    trackerStarted: bool,
    buffer: seq<Item>,
    log: seq<Log>)

  /** One uninterrupted stretch of the event loop. */
  datatype Event =
    | NextBeat
    | DispatchCalls(n: nat)
    | Lookup(id: string, known: bool)
    | Finish(id: string, raised: bool, adrenalin: bool)
    | Mark(id: string)
    | Drain
    | OtherPush(n: nat)

  function Ids(heartbeat: nat, n: nat): (ids: seq<string>)
    ensures |ids| == n
  {
    seq(n, i requires 0 <= i < n => CallId(heartbeat, i))
  }

  function IdSet(ids: seq<string>): set<string> {
    set id | id in ids
  }

  function Push(s: System, i: Item): System {
    s.(buffer := s.buffer + [i], log := s.log + [Pushed(i)])
  }

  function AllSpawned(ids: seq<string>): map<string, Progress> {
    map id | id in ids :: Spawned
  }

  /** Spawning the tasks and registering the batch happen without a suspension in between. */
  function Dispatched(s: System, n: nat): System {
    if n == 0 then s.(dispatched := true)
    else
      var ids := Ids(s.heartbeat, n);
      s.(dispatched := true, tasks := s.tasks + AllSpawned(ids), pending := s.pending + IdSet(ids),
          log := s.log + [Registered(ids)])
  }

  function MarkCompleted(s: System, id: string): System {
    if id !in s.pending then s
    else
      var t := s.(pending := s.pending - {id}, log := s.log + [Completed(id)]);
      if t.pending != {} || !t.trackerStarted then t else Push(t, BatchComplete)
  }

  function SetProgress(s: System, id: string, p: Progress): System {
    s.(tasks := s.tasks[id := p])
  }

  predicate At(s: System, id: string, p: Progress) {
    id in s.tasks && s.tasks[id] == p
  }

  /** Tasks move only through their own steps, and a beat reaches its dispatch phase at most once. */
  predicate Enabled(s: System, e: Event) {
    match e
    case DispatchCalls(_) => !s.dispatched
    case Lookup(id, _) => At(s, id, Spawned)
    case Finish(id, _, _) => At(s, id, Executing)
    case Mark(id) => At(s, id, Fed)
    case _ => true
  }

  function Step(s: System, e: Event): System {
    match e
    case NextBeat => s.(heartbeat := s.heartbeat + 1, dispatched := false)
    case DispatchCalls(n) => Dispatched(s, n)
    case Lookup(id, known) =>
      if known then SetProgress(s, id, Executing)
      else Push(SetProgress(s, id, Fed), FeedbackFor(id, UnknownTool))
    case Finish(id, raised, adrenalin) =>
      Push(SetProgress(s, id, Fed), FeedbackFor(id, if raised then ToolError else ToolResult(adrenalin)))
    case Mark(id) => MarkCompleted(SetProgress(s, id, Marked), id)
    case Drain => s.(buffer := [])
    case OtherPush(n) => Push(s, Foreign(n))
  }

  function Start(trackerStarted: bool): System {
    System(0, true, map[], {}, trackerStarted, [], [])
  }

  /** Any schedule; an event whose task is not at that point changes nothing, so the schedules cover
      every interleaving. */
  function Run(s: System, es: seq<Event>): System
    decreases |es|
  {
    if es == [] then s
    else
      var prev := Run(s, es[..|es| - 1]);
      var e := es[|es| - 1];
      if Enabled(prev, e) then Step(prev, e) else prev
  }

  // ---- what the log may look like ----------------------------------------

  predicate WasRegistered(log: seq<Log>, id: string) {
    exists i :: 0 <= i < |log| && log[i].Registered? && id in log[i].ids
  }

  predicate WasFed(log: seq<Log>, id: string) {
    exists i :: 0 <= i < |log| && log[i].Pushed? && log[i].item.FeedbackFor? && log[i].item.id == id
  }

  predicate WasCompleted(log: seq<Log>, id: string) {
    Completed(id) in log
  }

  /** `next` is a legal continuation of `log`: ids are registered once; feedback follows registration and
      comes once; a mark follows the feedback and comes once; a batch completes only when every id
      registered so far has had its feedback pushed and been marked. */
  predicate Legal(log: seq<Log>, next: Log) {
    match next
    case Registered(ids) =>
      && (forall id :: id in ids ==> !WasRegistered(log, id))
      && (forall i, j :: 0 <= i < j < |ids| ==> ids[i] != ids[j])
    case Pushed(FeedbackFor(id, _)) => WasRegistered(log, id) && !WasFed(log, id)
    case Pushed(BatchComplete) =>
      forall i, id :: 0 <= i < |log| && log[i].Registered? && id in log[i].ids ==>
        WasFed(log, id) && WasCompleted(log, id)
    case Pushed(Foreign(_)) => true
    case Completed(id) => WasRegistered(log, id) && WasFed(log, id) && !WasCompleted(log, id)
  }

  predicate LegalLog(log: seq<Log>) {
    forall i :: 0 <= i < |log| ==> Legal(log[..i], log[i])
  }

  // ---- the invariant -----------------------------------------------------

  /** `id` was made in a beat before `bound`. */
  ghost predicate FromBeat(bound: nat, id: string) {
    exists h: nat, i: nat :: h < bound && id == CallId(h, i)
  }

  ghost predicate Consistent(s: System) {
    && LegalLog(s.log)
    && (forall id :: id in s.tasks <==> WasRegistered(s.log, id))
    && (forall id :: id in s.tasks ==>
          && (WasFed(s.log, id) <==> s.tasks[id] == Fed || s.tasks[id] == Marked)
          && (WasCompleted(s.log, id) <==> s.tasks[id] == Marked)
          && (id in s.pending <==> s.tasks[id] != Marked))
    && s.pending <= s.tasks.Keys
    && (forall id :: id in s.tasks ==> FromBeat(s.heartbeat + if s.dispatched then 1 else 0, id))
  }

  lemma LogGrows(log: seq<Log>, next: Log)
    ensures forall id :: WasRegistered(log + [next], id) <==>
                           WasRegistered(log, id) || (next.Registered? && id in next.ids)
    ensures forall id :: WasFed(log + [next], id) <==>
                           WasFed(log, id) || (next.Pushed? && next.item.FeedbackFor? && next.item.id == id)
    ensures forall id :: WasCompleted(log + [next], id) <==> WasCompleted(log, id) || next == Completed(id)
    ensures LegalLog(log) && Legal(log, next) ==> LegalLog(log + [next])
  {
    var all := log + [next];
    assert all[|log|] == next;
    forall id ensures WasRegistered(all, id) <==> WasRegistered(log, id) || (next.Registered? && id in next.ids) {
      if WasRegistered(log, id) {
        var i :| 0 <= i < |log| && log[i].Registered? && id in log[i].ids;
        assert all[i] == log[i];
      }
    }
    forall id ensures WasFed(all, id) <==>
                        WasFed(log, id) || (next.Pushed? && next.item.FeedbackFor? && next.item.id == id) {
      if WasFed(log, id) {
        var i :| 0 <= i < |log| && log[i].Pushed? && log[i].item.FeedbackFor? && log[i].item.id == id;
        assert all[i] == log[i];
      }
    }
    if LegalLog(log) && Legal(log, next) {
      forall i | 0 <= i < |all| ensures Legal(all[..i], all[i]) {
        assert all[..i] == log[..i];
      }
      assert log[..|log|] == log;
    }
  }

  lemma PushForeign(s: System, i: Item)
    requires Consistent(s) && !i.FeedbackFor? && Legal(s.log, Pushed(i))
    ensures Consistent(Push(s, i))
  {
    hide Legal, LegalLog, WasRegistered, WasFed, WasCompleted;
    LogGrows(s.log, Pushed(i));
  }

  lemma FeedStep(s: System, id: string, kind: Feedback)
    requires Consistent(s) && id in s.tasks && (s.tasks[id] == Spawned || s.tasks[id] == Executing)
    ensures Consistent(Push(SetProgress(s, id, Fed), FeedbackFor(id, kind)))
  {
    hide LegalLog, WasRegistered, WasFed, WasCompleted, FromBeat;
    LogGrows(s.log, Pushed(FeedbackFor(id, kind)));
  }

  lemma MarkStep(s: System, id: string)
    requires Consistent(s) && At(s, id, Fed)
    ensures Consistent(MarkCompleted(SetProgress(s, id, Marked), id))
  {
    hide LegalLog, WasRegistered, WasFed, WasCompleted, FromBeat;
    LogGrows(s.log, Completed(id));
    var t := SetProgress(s, id, Marked);
    var u := t.(pending := t.pending - {id}, log := t.log + [Completed(id)]);
    assert Consistent(u);
    if u.pending == {} && u.trackerStarted {
      AllMarked(u);
      PushForeign(u, BatchComplete);
    }
  }

  lemma AllMarked(s: System)
    requires Consistent(s) && s.pending == {}
    ensures Legal(s.log, Pushed(BatchComplete))
  {
    hide LegalLog, WasFed, WasCompleted, FromBeat;
    forall i, id | 0 <= i < |s.log| && s.log[i].Registered? && id in s.log[i].ids
      ensures WasFed(s.log, id) && WasCompleted(s.log, id) {
      assert WasRegistered(s.log, id);
      assert id in s.tasks;
    }
  }

  lemma FreshIds(s: System, n: nat)
    requires Consistent(s) && !s.dispatched
    ensures forall id :: id in Ids(s.heartbeat, n) ==> id !in s.tasks && FromBeat(s.heartbeat + 1, id)
    ensures forall i, j :: 0 <= i < j < n ==> Ids(s.heartbeat, n)[i] != Ids(s.heartbeat, n)[j]
  {
    hide LegalLog, WasRegistered, WasFed, WasCompleted, CallId;
    var ids := Ids(s.heartbeat, n);
    forall id | id in ids ensures id !in s.tasks && FromBeat(s.heartbeat + 1, id) {
      var i :| 0 <= i < n && ids[i] == id;
      assert id == CallId(s.heartbeat, i);
      if id in s.tasks {
        var h: nat, j: nat :| h < s.heartbeat && id == CallId(h, j);
        CallIdsDiffer(s.heartbeat, i, h, j);
      }
    }
    forall i, j | 0 <= i < j < n ensures ids[i] != ids[j] {
      if ids[i] == ids[j] {
        CallIdsDiffer(s.heartbeat, i, s.heartbeat, j);
      }
    }
  }

  lemma DispatchStep(s: System, n: nat)
    requires Consistent(s) && !s.dispatched
    ensures Consistent(Dispatched(s, n))
  {
    hide LegalLog, WasRegistered, WasFed, WasCompleted, Ids, CallId;
    FreshIds(s, n);
    LaterBeat(s);
    var ids := Ids(s.heartbeat, n);
    LogGrows(s.log, Registered(ids));
    var t := Dispatched(s, n);
    if n > 0 {
      forall id | WasFed(s.log, id) || WasCompleted(s.log, id) ensures WasRegistered(s.log, id) {
        RegistrationComesFirst(s.log, id);
      }
    }
  }

  lemma LaterBeat(s: System)
    requires Consistent(s)
    ensures forall id :: id in s.tasks ==> FromBeat(s.heartbeat + 1, id)
  {
  }

  lemma RegistrationComesFirst(log: seq<Log>, id: string)
    requires LegalLog(log) && (WasFed(log, id) || WasCompleted(log, id))
    ensures WasRegistered(log, id)
  {
    var i :| 0 <= i < |log| && (log[i] == Completed(id)
                                || (log[i].Pushed? && log[i].item.FeedbackFor? && log[i].item.id == id));
    assert Legal(log[..i], log[i]);
    var j :| 0 <= j < i && log[..i][j].Registered? && id in log[..i][j].ids;
    assert log[j].Registered?;
  }

  lemma StepKeeps(s: System, e: Event)
    requires Consistent(s) && Enabled(s, e)
    ensures Consistent(Step(s, e))
  {
    hide LegalLog, WasRegistered, WasFed, WasCompleted, FromBeat;
    match e
    case NextBeat => LaterBeats(s);
    case DispatchCalls(n) => DispatchStep(s, n);
    case Lookup(id, known) => if !known { FeedStep(s, id, UnknownTool); }
    case Finish(id, raised, adrenalin) => FeedStep(s, id, if raised then ToolError else ToolResult(adrenalin));
    case Mark(id) => MarkStep(s, id);
    case Drain =>
    case OtherPush(n) => PushForeign(s, Foreign(n));
  }

  lemma LaterBeats(s: System)
    requires Consistent(s)
    ensures Consistent(s.(heartbeat := s.heartbeat + 1, dispatched := false))
  {
    hide LegalLog, WasRegistered, WasFed, WasCompleted, FromBeat;
    LaterBeat(s);
  }

  /** In every interleaving the log is legal: each id is registered, then fed, then marked, once each,
      and a batch completes only after the feedback of everything registered so far was pushed. */
  lemma {:induction false} EveryScheduleIsLegal(trackerStarted: bool, es: seq<Event>)
    ensures Consistent(Run(Start(trackerStarted), es))
    decreases |es|
  {
    if es != [] {
      hide Consistent, Enabled, Step;
      EveryScheduleIsLegal(trackerStarted, es[..|es| - 1]);
      var prev := Run(Start(trackerStarted), es[..|es| - 1]);
      if Enabled(prev, es[|es| - 1]) {
        StepKeeps(prev, es[|es| - 1]);
      }
    }
  }

  predicate BatchEvent(l: Log) {
    l.Registered? || l.Completed?
  }

  /** Nothing is outstanding, and a wake-up was pushed after the last registration and the last mark. */
  ghost predicate Announced(log: seq<Log>) {
    exists i :: 0 <= i < |log| && log[i] == Pushed(BatchComplete)
                && forall j :: i < j < |log| ==> !BatchEvent(log[j])
  }

  ghost predicate WakesSelf(s: System) {
    s.trackerStarted && s.tasks != map[] && s.pending == {} ==> Announced(s.log)
  }

  lemma AnnouncedLater(log: seq<Log>, i: Item)
    requires Announced(log) || i == BatchComplete
    ensures Announced(log + [Pushed(i)])
  {
    var all := log + [Pushed(i)];
    if i == BatchComplete {
      assert all[|log|] == Pushed(BatchComplete);
    } else {
      var k :| 0 <= k < |log| && log[k] == Pushed(BatchComplete) && forall j :: k < j < |log| ==> !BatchEvent(log[j]);
      assert all[k] == Pushed(BatchComplete);
    }
  }

  lemma WakeStep(s: System, e: Event)
    requires Consistent(s) && Enabled(s, e) && WakesSelf(s)
    ensures WakesSelf(Step(s, e))
  {
    hide LegalLog, WasRegistered, WasFed, WasCompleted, FromBeat, Announced;
    match e
    case DispatchCalls(n) =>
      if n > 0 {
        assert Ids(s.heartbeat, n)[0] in Dispatched(s, n).pending;
      }
    case Lookup(id, known) =>
      assert id in s.pending;
    case Finish(id, _, _) =>
      assert id in s.pending;
    case Mark(id) =>
      var t := SetProgress(s, id, Marked);
      assert id in t.pending;
      AnnouncedLater(t.log + [Completed(id)], BatchComplete);
    case OtherPush(n) =>
      if Announced(s.log) {
        AnnouncedLater(s.log, Foreign(n));
      }
    case _ =>
  }

  lemma {:induction false} EveryScheduleWakes(trackerStarted: bool, es: seq<Event>)
    ensures WakesSelf(Run(Start(trackerStarted), es))
    decreases |es|
  {
    if es != [] {
      hide WakesSelf, Consistent, Enabled, Step;
      EveryScheduleWakes(trackerStarted, es[..|es| - 1]);
      EveryScheduleIsLegal(trackerStarted, es[..|es| - 1]);
      var prev := Run(Start(trackerStarted), es[..|es| - 1]);
      if Enabled(prev, es[|es| - 1]) {
        WakeStep(prev, es[|es| - 1]);
      }
    } else {
      assert WakesSelf(Start(trackerStarted));
    }
  }

  /** Once every spawned task has finished, nothing is outstanding, every registered call was fed and
      marked, and Self has been woken after the last of them. */
  lemma FinishedScheduleIsAnnounced(trackerStarted: bool, es: seq<Event>)
    requires var s := Run(Start(trackerStarted), es);
      s.tasks != map[] && forall id :: id in s.tasks ==> s.tasks[id] == Marked
    ensures var s := Run(Start(trackerStarted), es);
      && s.pending == {}
      && (forall id :: WasRegistered(s.log, id) ==> WasFed(s.log, id) && WasCompleted(s.log, id))
      && (trackerStarted ==> Announced(s.log))
  {
    hide WasRegistered, WasFed, WasCompleted, LegalLog, FromBeat, Announced;
    EveryScheduleIsLegal(trackerStarted, es);
    EveryScheduleWakes(trackerStarted, es);
    TrackerFixed(trackerStarted, es);
    var s := Run(Start(trackerStarted), es);
    assert forall id :: id in s.pending ==> id in s.tasks.Keys;
  }

  lemma {:induction false} TrackerFixed(trackerStarted: bool, es: seq<Event>)
    ensures Run(Start(trackerStarted), es).trackerStarted == trackerStarted
    decreases |es|
  {
    if es != [] {
      TrackerFixed(trackerStarted, es[..|es| - 1]);
    }
  }

  // ---- the source's objects ----------------------------------------------

  /** The dispatcher, the batch tracker and the buffer, with the tasks the event loop still owes. Each
      method is one stretch of code between suspensions. */
  class Dispatcher {
    var heartbeat: nat
    var dispatched: bool
    var tasks: map<string, Progress>
    var pending: set<string>
    const trackerStarted: bool
    var buffer: seq<Item>
    ghost var log: seq<Log>

    ghost function View(): System
      reads this
    {
      System(heartbeat, dispatched, tasks, pending, trackerStarted, buffer, log)
    }

    constructor (trackerStarted: bool)
      ensures View() == Start(trackerStarted) && Consistent(View())
    {
      heartbeat, dispatched, tasks, pending, buffer := 0, true, map[], {}, [];
      this.trackerStarted := trackerStarted;
      log := [];
    }

    method BeginBeat()
      requires Consistent(View())
      modifies this
      ensures View() == Step(old(View()), NextBeat) && Consistent(View())
    {
      StepKeeps(View(), NextBeat);
      heartbeat, dispatched := heartbeat + 1, false;
    }

    method PushItem(i: Item)
      modifies this`buffer, this`log
      ensures View() == Push(old(View()), i)
    {
      buffer, log := buffer + [i], log + [Pushed(i)];
    }

    method DispatchToolCalls(calls: nat)
      requires Consistent(View()) && Enabled(View(), DispatchCalls(calls))
      modifies this
      ensures View() == Step(old(View()), DispatchCalls(calls)) && Consistent(View())
    {
      hide Consistent;
      ghost var before := View();
      StepKeeps(before, DispatchCalls(calls));
      dispatched := true;
      var callIds: seq<string> := [];
      for index := 0 to calls
        invariant callIds == Ids(heartbeat, index)
        invariant tasks == before.tasks + AllSpawned(callIds)
        invariant View() == before.(dispatched := true, tasks := tasks)
      {
        var cid := CallId(heartbeat, index);
        SpawnNext(before.tasks, callIds, cid);
        callIds := callIds + [cid];
        tasks := tasks[cid := Spawned];
      }
      if callIds != [] {
        pending := pending + IdSet(callIds);
        log := log + [Registered(callIds)];
      } else {
        assert tasks == before.tasks;
      }
    }

    /** A task's first stretch: look the tool up; an unknown one is answered at once. */
    method BeginTask(id: string, known: bool)
      requires Consistent(View()) && Enabled(View(), Lookup(id, known))
      modifies this
      ensures View() == Step(old(View()), Lookup(id, known)) && Consistent(View())
    {
      StepKeeps(View(), Lookup(id, known));
      if !known {
        tasks := tasks[id := Fed];
        PushItem(FeedbackFor(id, UnknownTool));
        return;
      }
      tasks := tasks[id := Executing];
    }

    /** The tool returned or raised. */
    method ToolFinished(id: string, raised: bool, adrenalin: bool)
      requires Consistent(View()) && Enabled(View(), Finish(id, raised, adrenalin))
      modifies this
      ensures View() == Step(old(View()), Finish(id, raised, adrenalin)) && Consistent(View())
    {
      StepKeeps(View(), Finish(id, raised, adrenalin));
      tasks := tasks[id := Fed];
      if raised {
        PushItem(FeedbackFor(id, ToolError));
        return;
      }
      PushItem(FeedbackFor(id, ToolResult(adrenalin)));
    }

    method MarkDone(id: string)
      requires Consistent(View()) && Enabled(View(), Mark(id))
      modifies this
      ensures View() == Step(old(View()), Mark(id)) && Consistent(View())
    {
      hide Consistent;
      StepKeeps(View(), Mark(id));
      tasks := tasks[id := Marked];
      if id !in pending {
        return;
      }
      pending := pending - {id};
      log := log + [Completed(id)];
      if pending != {} || !trackerStarted {
        return;
      }
      PushItem(BatchComplete);
    }
  }

  lemma SpawnNext(tasks: map<string, Progress>, ids: seq<string>, id: string)
    ensures (tasks + AllSpawned(ids))[id := Spawned] == tasks + AllSpawned(ids + [id])
  {
  }
}
