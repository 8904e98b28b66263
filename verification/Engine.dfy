/** The engine loop (`krakey/engines/heartbeat/default.py`): it polls the pause file and runs the heartbeats. */
module Engine {
  import opened Basics
  import opened History
  import opened Orchestrator
  import P = Pause
  import Backlog = WindowRuns

  /** What the loop meets at each turn: the clock, and what happened to the control file since the last turn. */
  datatype Turn = Turn(now: real, arrived: Option<P.Control>, readable: bool, removed: bool)

  /** What the loop does: it polls, seeing the stop flag and the pause, or it runs a beat. */
  datatype Act = Polled(stopped: bool, paused: bool) | Beat(outcome: BeatOutcome)

  /** It returned, a beat raised, or it was watched no longer. */
  datatype Ending = Returned | Raised | Watched

  /** Every beat comes straight after a poll that saw neither a stop nor a pause. */
  predicate Obedient(trace: seq<Act>) {
    forall i :: 0 <= i < |trace| && trace[i].Beat? ==> i > 0 && trace[i - 1] == Polled(false, false)
  }

  /** No beat but the last act raised. */
  predicate Unbroken(trace: seq<Act>) {
    forall i :: 0 <= i < |trace| - 1 && trace[i].Beat? ==> !Escapes(trace[i].outcome)
  }

  predicate EndsBroken(trace: seq<Act>) {
    trace != [] && var last := trace[|trace| - 1]; last.Beat? && Escapes(last.outcome)
  }

  function Beats(trace: seq<Act>): nat {
    if trace == [] then 0 else Beats(trace[..|trace| - 1]) + if trace[|trace| - 1].Beat? then 1 else 0
  }

  /** What the polls saw of the pause, one after another. */
  function PausesSeen(trace: seq<Act>): seq<bool> {
    if trace == [] then []
    else
      var last := trace[|trace| - 1];
      PausesSeen(trace[..|trace| - 1]) + if last.Polled? then [last.paused] else []
  }

  /** The beats that finalized recall, which are those whose compaction completed. */
  function Recalls(trace: seq<Act>): nat {
    if trace == [] then 0
    else
      var last := trace[|trace| - 1];
      Recalls(trace[..|trace| - 1]) + if last.Beat? && Recalled(last.outcome) then 1 else 0
  }

  lemma Counts(trace: seq<Act>, a: Act)
    ensures Beats(trace + [a]) == Beats(trace) + if a.Beat? then 1 else 0
    ensures PausesSeen(trace + [a]) == PausesSeen(trace) + if a.Polled? then [a.paused] else []
    ensures Recalls(trace + [a]) == Recalls(trace) + if a.Beat? && Recalled(a.outcome) then 1 else 0
  {
    hide Recalled;
    assert (trace + [a])[..|trace|] == trace;
  }

  lemma NothingYet()
    ensures Beats([]) == Recalls([]) == 0 && PausesSeen([]) == [] && Obedient([]) && Unbroken([]) && !EndsBroken([])
  {
  }

  lemma PollMore(trace: seq<Act>, stopped: bool, paused: bool)
    requires Obedient(trace) && Unbroken(trace) && !EndsBroken(trace)
    ensures var t := trace + [Polled(stopped, paused)];
      Obedient(t) && Unbroken(t) && !EndsBroken(t)
  {
    hide Escapes;
  }

  lemma BeatMore(trace: seq<Act>, o: BeatOutcome)
    requires Obedient(trace) && Unbroken(trace)
    ensures var t := trace + [Polled(false, false), Beat(o)];
      Obedient(t) && (!EndsBroken(trace) ==> Unbroken(t)) && (EndsBroken(t) <==> Escapes(o))
    ensures trace + [Polled(false, false), Beat(o)] == trace + [Polled(false, false)] + [Beat(o)]
  {
    hide Escapes;
  }

  /** The window after the steps of the backlog model taken so far, as many of them completed as recalls ran. */
  ghost predicate Stepped(p: Backlog.Policy, rounds: seq<Round>, steps: seq<Backlog.Beat>, now: seq<Round>,
                          recalls: nat) {
    Backlog.Sanitised(p) && now == Backlog.AfterBeats(p, rounds, steps)
    && Backlog.CompletedBeats(p, rounds, steps) == recalls
  }

  lemma NoSteps(p: Backlog.Policy, rounds: seq<Round>)
    requires Backlog.Sanitised(p)
    ensures Stepped(p, rounds, [], rounds, 0)
  {
  }

  lemma OneStep(p: Backlog.Policy, rounds: seq<Round>, steps: seq<Backlog.Beat>, before: seq<Round>, recalls: nat,
                step: Backlog.Beat, now: seq<Round>, recalled: bool)
    requires Stepped(p, rounds, steps, before, recalls)
    requires now == Backlog.AfterBeat(p, before, step) && (recalled <==> Backlog.Completed(p, before, step))
    ensures Stepped(p, rounds, steps + [step], now, recalls + if recalled then 1 else 0)
  {
    hide Backlog.AfterBeat, Backlog.AfterBeats, Backlog.Completed, Backlog.CompletedBeats, Backlog.Sanitised;
    Backlog.OneMoreBeat(p, rounds, steps, step);
  }

  lemma Drained(p: Backlog.Policy, rounds: seq<Round>, steps: seq<Backlog.Beat>, now: seq<Round>, recalls: nat)
    requires Stepped(p, rounds, steps, now, recalls)
    ensures p.maxPops >= 2 && recalls >= Backlog.DrainTime(p, rounds) ==> Backlog.Excess(p, now) <= 1
  {
    hide Backlog.AfterBeats, Backlog.CompletedBeats;
    if p.maxPops >= 2 && recalls >= Backlog.DrainTime(p, rounds) {
      Backlog.BacklogDrainTime(p, rounds, steps);
    }
  }

  function Bound(iterations: int): nat {
    if iterations >= 1 then iterations else 1
  }

  lemma BoundHolds(iterations: int)
    ensures Bound(iterations) >= 1 && (iterations >= 1 ==> Bound(iterations) == iterations)
    ensures iterations < 1 ==> Bound(iterations) == 1
  {
  }

  // ---- the pause file as the loop sees it ---------------------------------

  /** The pause flag, and the content of the control file if one is watched. */
  datatype Sign = Sign(paused: bool, file: Option<P.Control>)

  /** What a turn makes of it: whatever arrived in the file, and then one poll. */
  function Seen(s: Sign, turn: Turn): Sign {
    if s.file == None then s
    else
      var (flag, left) := P.Polled(turn.now, if turn.arrived.Some? then turn.arrived.value else s.file.value,
                                   turn.readable, turn.removed);
      Sign(flag, Some(left))
  }

  function SeenAfter(s: Sign, turns: seq<Turn>): Sign {
    if turns == [] then s else Seen(SeenAfter(s, turns[..|turns| - 1]), turns[|turns| - 1])
  }

  /** What one poll a turn sees of the pause. */
  function Pauses(s: Sign, turns: seq<Turn>): seq<bool> {
    if turns == [] then [] else Pauses(s, turns[..|turns| - 1]) + [SeenAfter(s, turns).paused]
  }

  lemma OneMoreTurn(s: Sign, turns: seq<Turn>, i: nat)
    requires i < |turns|
    ensures SeenAfter(s, turns[..i + 1]) == Seen(SeenAfter(s, turns[..i]), turns[i])
    ensures Pauses(s, turns[..i + 1]) == Pauses(s, turns[..i]) + [SeenAfter(s, turns[..i + 1]).paused]
  {
    hide Seen;
    assert turns[..i + 1][..i] == turns[..i];
  }

  lemma NoTurns(s: Sign, turns: seq<Turn>)
    ensures SeenAfter(s, turns[..0]) == s && Pauses(s, turns[..0]) == []
    ensures turns[..|turns|] == turns
  {
  }

  function SignOf(control: P.PauseControl): Sign
    reads control, control.file
  {
    Sign(control.paused, if control.file == null then None else Some(control.file.content))
  }

  lemma SignShows(control: P.PauseControl)
    ensures SignOf(control).paused == control.paused
  {
  }

  /** One look at the pause file. */
  method PollOnce(control: P.PauseControl, turn: Turn)
    modifies control`paused, control.file
    ensures SignOf(control) == Seen(old(SignOf(control)), turn)
  {
    if control.file != null && turn.arrived.Some? {
      control.file.content := turn.arrived.value;
    }
    control.PollPauseFile(turn.now, turn.readable, turn.removed);
  }

  /** The loop sleeps instead of running a beat. */
  method RestOnce(rt: Runtime, trace: seq<Act>) returns (trace': seq<Act>)
    requires rt.Valid() && !rt.inbox.stop && Obedient(trace) && Unbroken(trace) && !EndsBroken(trace)
    modifies rt.inbox`nextId, rt.inbox`ledger, rt.inbox`tick, rt.inbox`stop, rt.inbox.buffer
    ensures rt.Valid()
    ensures Beats(trace') == Beats(trace) && PausesSeen(trace') == PausesSeen(trace) + [true]
    ensures Recalls(trace') == Recalls(trace)
    ensures Obedient(trace') && Unbroken(trace') && !EndsBroken(trace')
  {
    hide *;
    PollMore(trace, false, true);
    Counts(trace, Polled(false, true));
    trace' := trace + [Polled(rt.inbox.stop, true)];
    rt.Rest();
  }

  /** One beat, which is one act and one step of the backlog model. */
  method BeatOnce(rt: Runtime, trace: seq<Act>, ghost rounds: seq<Round>, ghost steps: seq<Backlog.Beat>)
    returns (trace': seq<Act>, broken: bool, ghost steps': seq<Backlog.Beat>)
    requires rt.Valid() && !rt.inbox.stop && Obedient(trace) && Unbroken(trace) && !EndsBroken(trace)
    requires Stepped(rt.Policy(), rounds, steps, rt.window.rounds, Recalls(trace))
    modifies rt`heartbeatCount, rt`sleepCycles, rt`sleepRequests, rt`promptLog, rt`dispatched, rt`built, rt`sent,
        rt`saved, rt`ingested, rt`history
    modifies rt.window, rt.window.file, rt.gm, rt.inbox, rt.inbox.buffer, rt.inbox.recall
    ensures rt.Valid() && rt.heartbeatCount == old(rt.heartbeatCount) + 1
    ensures rt.inbox.recall == old(rt.inbox.recall) || fresh(rt.inbox.recall)
    ensures Beats(trace') == Beats(trace) + 1 && PausesSeen(trace') == PausesSeen(trace) + [false]
    ensures Obedient(trace') && Unbroken(trace') && (broken <==> EndsBroken(trace'))
    ensures Stepped(rt.Policy(), rounds, steps', rt.window.rounds, Recalls(trace'))
  {
    hide *;
    var polled := trace + [Polled(rt.inbox.stop, false)];
    ghost var before := rt.window.rounds;
    Counts(trace, Polled(false, false));
    var outcome;
    ghost var told;
    outcome, told := rt.Beat();
    BeatMore(trace, outcome);
    Counts(polled, Beat(outcome));
    OneStep(rt.Policy(), rounds, steps, before, Recalls(polled), told.step, rt.window.rounds, Recalled(outcome));
    steps' := steps + [told.step];
    trace' := polled + [Beat(outcome)];
    broken := Escapes(outcome);
  }

  /** `run`, watched for as many turns as `turns` holds. */
  method Run(rt: Runtime, control: P.PauseControl, iterations: Option<int>, turns: seq<Turn>)
    returns (trace: seq<Act>, ending: Ending)
    requires rt.Valid()
    modifies control`paused, control.file
    modifies rt`heartbeatCount, rt`sleepCycles, rt`sleepRequests, rt`promptLog, rt`dispatched, rt`built, rt`sent,
        rt`saved, rt`ingested, rt`history
    modifies rt.window, rt.window.file, rt.gm, rt.inbox, rt.inbox.buffer, rt.inbox.recall
    // whatever arrives, fails or is requested meanwhile, what holds between beats holds
    ensures rt.Valid() && Beats(trace) == rt.heartbeatCount - old(rt.heartbeatCount)
    // no beat starts after a stop, in a pause, or after an exception
    ensures Obedient(trace) && Unbroken(trace) && (old(rt.inbox.stop) ==> trace == [])
    // what its polls saw is what the clock and the commands made of the control file
    ensures |PausesSeen(trace)| <= |turns|
        && PausesSeen(trace) == Pauses(old(SignOf(control)), turns[..|PausesSeen(trace)|])
    // at most as many beats as asked for; zero or fewer still run one
    ensures iterations.Some? ==> Beats(trace) <= Bound(iterations.value)
    // what ends it
    ensures ending.Returned? ==> rt.inbox.stop || (iterations.Some? && Beats(trace) == Bound(iterations.value))
    ensures ending.Raised? <==> EndsBroken(trace)
    ensures ending.Watched? ==> |PausesSeen(trace)| == |turns|
    // with two pops a beat or more, enough beats that recall bring what is over the cap down to one round
    ensures rt.config.maxPops >= 2 && Recalls(trace) >= Backlog.DrainTime(rt.Policy(), old(rt.window.rounds)) ==>
              Backlog.Excess(rt.Policy(), rt.window.rounds) <= 1
  {
    hide *;
    ghost var session, rounds, steps := rt.inbox.recall, rt.window.rounds, [];
    rt.BetweenBeats();
    ghost var sign := SignOf(control);
    NoSteps(rt.Policy(), rounds);
    NothingYet();
    NoTurns(sign, turns);
    if iterations.Some? {
      BoundHolds(iterations.value);
    }
    trace, ending := [], Watched;
    var count := 0;
    for i := 0 to |turns|
      invariant rt.Valid() && (rt.inbox.recall == session || fresh(rt.inbox.recall))
      invariant |PausesSeen(trace)| == i && PausesSeen(trace) == Pauses(sign, turns[..i])
      invariant SignOf(control) == SeenAfter(sign, turns[..i])
      invariant count == Beats(trace) == rt.heartbeatCount - old(rt.heartbeatCount)
      invariant Obedient(trace) && Unbroken(trace) && !EndsBroken(trace) && ending == Watched
      invariant old(rt.inbox.stop) ==> rt.inbox.stop && trace == []
      invariant iterations.Some? && count > 0 ==> count < iterations.value
      invariant Stepped(rt.Policy(), rounds, steps, rt.window.rounds, Recalls(trace))
    {
      if rt.inbox.stop {
        ending := Returned;
        break;
      }
      PollOnce(control, turns[i]);
      OneMoreTurn(sign, turns, i);
      SignShows(control);
      if control.paused {
        trace := RestOnce(rt, trace);
        continue;
      }
      var broken;
      trace, broken, steps := BeatOnce(rt, trace, rounds, steps);
      count := count + 1;
      if broken {
        ending := Raised;
        break;
      }
      if iterations.Some? && count >= iterations.value {
        ending := Returned;
        break;
      }
    }
    Drained(rt.Policy(), rounds, steps, rt.window.rounds, Recalls(trace));
  }
}
