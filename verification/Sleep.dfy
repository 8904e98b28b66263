/** Sleep coalescing on one event loop: the memory engine's `request_sleep` and `_maybe_auto_sleep`
    (`krakey/engines/memory/default.py`) and the runtime's `trigger_memory_sleep`
    (`krakey/runtime/runtime.py`). */
module Sleep {

  // ---- the system as a value ---------------------------------------------

  /** Who asks: another caller of the engine, the storage path, or the runtime. */
  datatype Caller = Direct | Auto | Runtime

  /** Where a request stands: not begun; counting nodes before an automatic request; inside the pipeline;
      back in the runtime with stats or with an exception; over, with what the caller saw. */
  datatype Progress =
    | Asking(caller: Caller)
    | Counting
    | InPipeline(caller: Caller)
    | Resuming(ran: bool)
    | Over(outcome: Outcome)

  datatype Outcome = NothingHappened | Ran | Raised | FailureReported

  datatype Engine = Engine(sleeping: bool, cyclesRun: nat)

  datatype Config = Config(hasLlm: bool, threshold: int)

  datatype System = System(
    engine: Engine,
    runtimeCycles: nat,
    recallResets: nat,
    tasks: map<nat, Progress>,
    inFlight: set<nat>,
    awaited: set<nat>,
    log: multiset<Happening>)

  /** What has happened so far: pipelines that ended, and cycles the runtime has counted. */
  datatype Happening = Succeeded(caller: Caller) | Failed(caller: Caller) | RuntimeCounted

  /** One uninterrupted stretch: a new request, its start, the node count coming back or raising, the pipeline
      ending, the runtime going on. */
  datatype Event =
    | Request(id: nat, caller: Caller)
    | Begin(id: nat)
    | Counted(id: nat, nodes: nat)
    | CountRaises(id: nat)
    | PipelineEnds(id: nat, ok: bool)
    | Resume(id: nat)

  /** The stretch of `request_sleep` up to its pipeline; `entered` is false for a no-op. */
  function Enter(c: Config, e: Engine): (Engine, bool) {
    if !c.hasLlm || e.sleeping then (e, false) else (e.(sleeping := true), true)
  }

  /** The stretch after its pipeline, including the `finally`. */
  function Leave(e: Engine, ok: bool): Engine {
    Engine(false, if ok then e.cyclesRun + 1 else e.cyclesRun)
  }

  /** `_maybe_auto_sleep` goes on to count nodes. */
  predicate AutoCounts(c: Config, e: Engine) {
    c.threshold > 0 && !e.sleeping && c.hasLlm
  }

  function Put(s: System, id: nat, p: Progress): System {
    s.(tasks := s.tasks[id := p])
  }

  function TryEnter(c: Config, s: System, id: nat, caller: Caller): System {
    var (e, entered) := Enter(c, s.engine);
    Put(s.(engine := e, inFlight := if entered then s.inFlight + {id} else s.inFlight), id,
        if entered then InPipeline(caller) else Over(NothingHappened))
  }

  predicate Enabled(s: System, e: Event) {
    match e
    case Request(id, _) => id !in s.tasks
    case Begin(id) => id in s.tasks && s.tasks[id].Asking?
    case Counted(id, _) => id in s.tasks && s.tasks[id].Counting?
    case CountRaises(id) => id in s.tasks && s.tasks[id].Counting?
    case PipelineEnds(id, _) => id in s.tasks && s.tasks[id].InPipeline?
    case Resume(id) => id in s.tasks && s.tasks[id].Resuming?
  }

  function Step(c: Config, s: System, e: Event): System
    requires Enabled(s, e)
  {
    match e
    case Request(id, caller) => Put(s, id, Asking(caller))
    case Begin(id) =>
      if s.tasks[id].caller != Auto then TryEnter(c, s, id, s.tasks[id].caller)
      else if AutoCounts(c, s.engine) then Put(s, id, Counting)
      else Put(s, id, Over(NothingHappened))
    case Counted(id, nodes) =>
      if nodes >= c.threshold then TryEnter(c, s, id, Auto) else Put(s, id, Over(NothingHappened))
    // on the storage path every exception is caught
    case CountRaises(id) => Put(s, id, Over(NothingHappened))
    case PipelineEnds(id, ok) =>
      var caller := s.tasks[id].caller;
      var t := s.(engine := Leave(s.engine, ok),
                  inFlight := s.inFlight - {id},
                  awaited := if ok && caller == Runtime then s.awaited + {id} else s.awaited,
                  log := s.log + multiset{if ok then Succeeded(caller) else Failed(caller)});
      Put(t, id,
          match caller
          case Runtime => Resuming(ok)
          case Direct => Over(if ok then Ran else Raised)
          case Auto => Over(if ok then Ran else NothingHappened))
    case Resume(id) =>
      if s.tasks[id].ran
      then Put(s.(runtimeCycles := s.runtimeCycles + 1, recallResets := s.recallResets + 1,
                  awaited := s.awaited - {id}, log := s.log + multiset{RuntimeCounted}), id, Over(Ran))
      else Put(s, id, Over(FailureReported))
  }

  const IDLE := System(Engine(false, 0), 0, 0, map[], {}, {}, multiset{})

  function Run(c: Config, s: System, es: seq<Event>): System
    decreases |es|
  {
    if es == [] then s
    else
      var prev := Run(c, s, es[..|es| - 1]);
      if Enabled(prev, es[|es| - 1]) then Step(c, prev, es[|es| - 1]) else prev
  }

  // ---- the invariant -----------------------------------------------------

  function Successes(s: System): nat {
    s.log[Succeeded(Direct)] + s.log[Succeeded(Auto)] + s.log[Succeeded(Runtime)]
  }

  /** At most one pipeline, and the flag says exactly whether there is one. */
  ghost predicate Exclusive(s: System) {
    && (forall id :: id in s.inFlight <==> id in s.tasks && s.tasks[id].InPipeline?)
    && (s.engine.sleeping <==> s.inFlight != {})
    && (forall a, b :: a in s.inFlight && b in s.inFlight ==> a == b)
  }

  /** The engine counts exactly the pipelines that succeeded, the runtime exactly its own truthy results,
      resetting recall once for each. */
  ghost predicate Balanced(s: System) {
    && (forall id :: id in s.awaited <==> id in s.tasks && s.tasks[id] == Resuming(true))
    && s.engine.cyclesRun == Successes(s)
    && s.runtimeCycles == s.recallResets == s.log[RuntimeCounted]
    && s.log[Succeeded(Runtime)] == s.runtimeCycles + |s.awaited|
  }

  ghost predicate Sound(s: System) {
    Exclusive(s) && Balanced(s)
  }

  lemma RequestStep(s: System, id: nat, p: Progress)
    requires Sound(s)
    requires id !in s.tasks || s.tasks[id].Asking? || s.tasks[id].Counting?
    requires p.Asking? || p.Counting? || p == Over(NothingHappened)
    ensures Sound(Put(s, id, p))
  {
  }

  lemma EnterStep(c: Config, s: System, id: nat, caller: Caller)
    requires Sound(s) && id in s.tasks && (s.tasks[id].Asking? || s.tasks[id].Counting?)
    ensures Sound(TryEnter(c, s, id, caller))
  {
    if !Enter(c, s.engine).1 {
      RequestStep(s, id, Over(NothingHappened));
    }
  }

  lemma EndStep(c: Config, s: System, id: nat, ok: bool)
    requires Sound(s) && id in s.tasks && s.tasks[id].InPipeline?
    ensures Sound(Step(c, s, PipelineEnds(id, ok)))
  {
    hide Exclusive, Balanced;
    EndStepExclusive(c, s, id, ok);
    EndStepBalanced(c, s, id, ok);
  }

  lemma EndStepExclusive(c: Config, s: System, id: nat, ok: bool)
    requires Exclusive(s) && id in s.tasks && s.tasks[id].InPipeline?
    ensures Exclusive(Step(c, s, PipelineEnds(id, ok)))
  {
    assert id in s.inFlight;
  }

  lemma EndStepBalanced(c: Config, s: System, id: nat, ok: bool)
    requires Balanced(s) && id in s.tasks && s.tasks[id].InPipeline?
    ensures Balanced(Step(c, s, PipelineEnds(id, ok)))
  {
    assert id !in s.awaited;
  }

  lemma ResumeStep(c: Config, s: System, id: nat)
    requires Sound(s) && id in s.tasks && s.tasks[id].Resuming?
    ensures Sound(Step(c, s, Resume(id)))
  {
    assert id !in s.inFlight && (s.tasks[id].ran <==> id in s.awaited);
  }

  lemma StepKeeps(c: Config, s: System, e: Event)
    requires Sound(s) && Enabled(s, e)
    ensures Sound(Step(c, s, e))
  {
    hide Sound;
    match e
    case Request(id, caller) => RequestStep(s, id, Asking(caller));
    case Begin(id) =>
      if s.tasks[id].caller != Auto {
        EnterStep(c, s, id, s.tasks[id].caller);
      } else {
        RequestStep(s, id, if AutoCounts(c, s.engine) then Counting else Over(NothingHappened));
      }
    case Counted(id, nodes) =>
      if nodes >= c.threshold {
        EnterStep(c, s, id, Auto);
      } else {
        RequestStep(s, id, Over(NothingHappened));
      }
    case CountRaises(id) => RequestStep(s, id, Over(NothingHappened));
    case PipelineEnds(id, ok) => EndStep(c, s, id, ok);
    case Resume(id) => ResumeStep(c, s, id);
  }

  /** Mutual exclusion and exact counting over every interleaving of requests of all three kinds. */
  lemma {:induction false} EveryScheduleIsSound(c: Config, es: seq<Event>)
    ensures Sound(Run(c, IDLE, es))
    decreases |es|
  {
    if es != [] {
      hide Sound, Step;
      EveryScheduleIsSound(c, es[..|es| - 1]);
      var prev := Run(c, IDLE, es[..|es| - 1]);
      if Enabled(prev, es[|es| - 1]) {
        StepKeeps(c, prev, es[|es| - 1]);
      }
    } else {
      assert Sound(IDLE);
    }
  }

  /** The engine's count is the runtime's count plus the runtime cycles still on their way to it plus the
      cycles nobody told the runtime about; so the runtime never counts more than the engine ran. */
  lemma CyclesBalance(c: Config, es: seq<Event>)
    ensures var s := Run(c, IDLE, es);
      && s.engine.cyclesRun == s.runtimeCycles + |s.awaited| + s.log[Succeeded(Direct)] + s.log[Succeeded(Auto)]
      && s.runtimeCycles <= s.engine.cyclesRun
  {
    EveryScheduleIsSound(c, es);
  }

  /** A request that arrives while a cycle is in flight, or without an LLM, changes nothing but its own
      state, and its caller sees the empty result. */
  lemma CoalescedIsNoOp(c: Config, s: System, id: nat, caller: Caller)
    requires Sound(s) && id in s.tasks
    requires !c.hasLlm || s.inFlight != {}
    ensures TryEnter(c, s, id, caller) == s.(tasks := s.tasks[id := Over(NothingHappened)])
  {
  }

  /** The automatic path looks at the flag, then awaits the node count, then looks again: a cycle started
      in between is not stacked, and the threshold decides otherwise. */
  lemma AutoSleepRechecks(c: Config, s: System, id: nat, nodes: nat)
    requires Sound(s) && c.hasLlm && Enabled(s, Counted(id, nodes))
    ensures Step(c, s, Counted(id, nodes)).tasks[id] == InPipeline(Auto) <==>
              nodes >= c.threshold && s.inFlight == {}
  {
  }

  // ---- the source's objects ----------------------------------------------

  class MemoryEngine {
    const config: Config
    var sleeping: bool
    var sleepCyclesRun: nat

    function View(): Engine
      reads this
    {
      Engine(sleeping, sleepCyclesRun)
    }

    constructor (config: Config)
      ensures this.config == config && View() == IDLE.engine
    {
      this.config := config;
      sleeping, sleepCyclesRun := false, 0;
    }

    method BeginSleep() returns (entered: bool)
      modifies this
      ensures (View(), entered) == Enter(config, old(View()))
    {
      if !config.hasLlm {
        return false;
      }
      if sleeping {
        return false;
      }
      sleeping := true;
      return true;
    }

    method EndSleep(ok: bool)
      requires sleeping
      modifies this
      ensures View() == Leave(old(View()), ok)
    {
      if ok {
        sleepCyclesRun := sleepCyclesRun + 1;
      }
      sleeping := false;
    }

    method MaybeAutoSleep() returns (counts: bool)
      ensures counts == AutoCounts(config, View())
    {
      if config.threshold <= 0 {
        return false;
      }
      if sleeping || !config.hasLlm {
        return false;
      }
      return true;
    }
  }

  /** The engine, the runtime's counters and the requests in progress. */
  class EventLoop {
    const engine: MemoryEngine
    var runtimeCycles: nat
    var recallResets: nat
    var tasks: map<nat, Progress>
    ghost var inFlight: set<nat>
    ghost var awaited: set<nat>
    ghost var log: multiset<Happening>

    ghost function View(): System
      reads this, engine
    {
      System(engine.View(), runtimeCycles, recallResets, tasks, inFlight, awaited, log)
    }

    constructor (engine: MemoryEngine)
      requires engine.View() == IDLE.engine
      ensures this.engine == engine && View() == IDLE
    {
      this.engine := engine;
      runtimeCycles, recallResets, tasks := 0, 0, map[];
      inFlight, awaited, log := {}, {}, multiset{};
    }

    method RequestSleep(id: nat, caller: Caller)
      requires id in tasks
      modifies this, engine
      ensures View() == TryEnter(engine.config, old(View()), id, caller)
    {
      var entered := engine.BeginSleep();
      inFlight := if entered then inFlight + {id} else inFlight;
      tasks := tasks[id := if entered then InPipeline(caller) else Over(NothingHappened)];
    }

    /** The start of a request: straight into the engine, or first through the automatic gate. */
    method Start(id: nat)
      requires Sound(View()) && Enabled(View(), Begin(id))
      modifies this, engine
      ensures View() == Step(engine.config, old(View()), Begin(id)) && Sound(View())
    {
      StepKeeps(engine.config, View(), Begin(id));
      if tasks[id].caller != Auto {
        RequestSleep(id, tasks[id].caller);
      } else {
        var counts := engine.MaybeAutoSleep();
        tasks := tasks[id := if counts then Counting else Over(NothingHappened)];
      }
    }

    method NodesCounted(id: nat, nodes: nat)
      requires Sound(View()) && Enabled(View(), Counted(id, nodes))
      modifies this, engine
      ensures View() == Step(engine.config, old(View()), Counted(id, nodes)) && Sound(View())
    {
      StepKeeps(engine.config, View(), Counted(id, nodes));
      if nodes >= engine.config.threshold {
        RequestSleep(id, Auto);
      } else {
        tasks := tasks[id := Over(NothingHappened)];
      }
    }

    method NodeCountRaised(id: nat)
      requires Sound(View()) && Enabled(View(), CountRaises(id))
      modifies this
      ensures View() == Step(engine.config, old(View()), CountRaises(id)) && Sound(View())
    {
      StepKeeps(engine.config, View(), CountRaises(id));
      tasks := tasks[id := Over(NothingHappened)];
    }

    method PipelineEnded(id: nat, ok: bool)
      requires Sound(View()) && Enabled(View(), PipelineEnds(id, ok))
      modifies this, engine
      ensures View() == Step(engine.config, old(View()), PipelineEnds(id, ok)) && Sound(View())
    {
      hide Sound;
      StepKeeps(engine.config, View(), PipelineEnds(id, ok));
      FlagIsUp(View(), id);
      var caller := tasks[id].caller;
      engine.EndSleep(ok);
      inFlight := inFlight - {id};
      awaited := if ok && caller == Runtime then awaited + {id} else awaited;
      log := log + multiset{if ok then Succeeded(caller) else Failed(caller)};
      match caller {
        case Runtime => tasks := tasks[id := Resuming(ok)];
        case Direct => tasks := tasks[id := Over(if ok then Ran else Raised)];
        case Auto => tasks := tasks[id := Over(if ok then Ran else NothingHappened)];
      }
    }

    method TriggerReturns(id: nat)
      requires Sound(View()) && Enabled(View(), Resume(id))
      modifies this
      ensures View() == Step(engine.config, old(View()), Resume(id)) && Sound(View())
    {
      StepKeeps(engine.config, View(), Resume(id));
      if tasks[id].ran {
        runtimeCycles := runtimeCycles + 1;
        recallResets := recallResets + 1;
        awaited, log := awaited - {id}, log + multiset{RuntimeCounted};
        tasks := tasks[id := Over(Ran)];
      } else {
        tasks := tasks[id := Over(FailureReported)];
      }
    }
  }

  lemma FlagIsUp(s: System, id: nat)
    requires Sound(s) && id in s.tasks && s.tasks[id].InPipeline?
    ensures s.engine.sleeping
  {
    assert id in s.inFlight;
  }
}
