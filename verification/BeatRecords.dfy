/** The values one heartbeat produces: prompts and their log, saved rounds, dispatches
    (`krakey/engines/heartbeat/orchestrator.py`). */
module BeatRecords {
  import opened Basics
  import opened Decimal
  import opened Commands
  import opened History
  import opened Recall
  import opened SelfOutput
  import opened Stimuli

  datatype Counts = Counts(nodes: nat, edges: nat, pct: int, hint: string)

  /** Everything a prompt is built from. The time, the self-model, the capabilities and what the modifiers do are
      whatever they are at suspension number `moment`. */
  datatype Sight = Sight(
    stimuli: seq<Stimulus>, recall: RecallResult, rounds: seq<Round>, counts: Counts, heartbeat: nat, moment: nat)

  /** One call of the Self LLM; no reply when it failed or timed out. */
  datatype Attempt = Attempt(heartbeat: nat, prompt: string, reply: Option<string>)

  // ---- the prompt log ----------------------------------------------------

  datatype PromptEntry = PromptEntry(heartbeat: nat, prompt: string, output: Option<string>)

  const PROMPT_LOG_SIZE := 50

  function Recorded(log: seq<PromptEntry>, e: PromptEntry): (r: seq<PromptEntry>)
    ensures r != [] && r[|r| - 1] == e
  {
    LastN(log + [e], PROMPT_LOG_SIZE)
  }

  /** Bounded, and no beat has two entries. */
  ghost predicate LogSound(log: seq<PromptEntry>, before: nat) {
    && |log| <= PROMPT_LOG_SIZE
    && (forall i :: 0 <= i < |log| ==> log[i].heartbeat < before)
    && (forall i, j :: 0 <= i < j < |log| ==> log[i].heartbeat < log[j].heartbeat)
  }

  lemma RecordSound(log: seq<PromptEntry>, e: PromptEntry)
    requires LogSound(log, e.heartbeat)
    ensures LogSound(Recorded(log, e), e.heartbeat + 1)
  {
  }

  /** Changing the newest entry is recording the changed entry. */
  lemma RecordedChanged(log: seq<PromptEntry>, e: PromptEntry, f: PromptEntry)
    ensures Recorded(log, e)[|Recorded(log, e)| - 1 := f] == Recorded(log, f)
  {
  }

  /** `at` is the newest entry of this beat. */
  predicate IsNewest(log: seq<PromptEntry>, heartbeat: nat, at: nat) {
    at < |log| && log[at].heartbeat == heartbeat && forall i :: at < i < |log| ==> log[i].heartbeat != heartbeat
  }

  lemma NewestIsLast(log: seq<PromptEntry>, e: PromptEntry, at: Option<nat>)
    requires at.Some? ==> IsNewest(Recorded(log, e), e.heartbeat, at.value)
    requires at == None ==> forall x :: x in Recorded(log, e) ==> x.heartbeat != e.heartbeat
    ensures at == Some(|Recorded(log, e)| - 1)
  {
    var r := Recorded(log, e);
    assert r[|r| - 1] in r;
  }

  // ---- the saved round ---------------------------------------------------

  function Line(s: Stimulus): string {
    s.source + ": " + s.content
  }

  function Lines(stimuli: seq<Stimulus>): string {
    if stimuli == [] then ""
    else if |stimuli| == 1 then Line(stimuli[0])
    else Lines(stimuli[..|stimuli| - 1]) + " | " + Line(stimuli[|stimuli| - 1])
  }

  function SummarizeStimuli(stimuli: seq<Stimulus>): string {
    if stimuli == [] then "(none)" else Lines(stimuli)
  }

  function NodeNames(nodes: seq<Node>): string {
    if nodes == [] then ""
    else
      var n := |nodes| - 1;
      var last := "[" + nodes[n].name + "](" + nodes[n].category + ")";
      if n == 0 then last else NodeNames(nodes[..n]) + ", " + last
  }

  /** The first eight nodes by name and category, and how many more there are. */
  function SummarizeRecall(r: RecallResult): string {
    if |r.nodes| <= 8 then NodeNames(r.nodes)
    else NodeNames(r.nodes[..8]) + " +" + Digits(|r.nodes| - 8) + " more"
  }

  function RoundOf(heartbeat: nat, p: ParsedSelfOutput, stimuli: seq<Stimulus>, r: RecallResult): Round {
    Round(heartbeat, SummarizeStimuli(stimuli), p.decision, p.note, p.thinking, SummarizeRecall(r))
  }

  /** The tool feedback among the stimuli, which is offered to memory. */
  function FeedbackOf(stimuli: seq<Stimulus>): seq<string> {
    if stimuli == [] then []
    else
      var n := |stimuli| - 1;
      FeedbackOf(stimuli[..n]) + if stimuli[n].kind == "tool_feedback" then [stimuli[n].content] else []
  }

  // ---- a structurally valid reply ----------------------------------------

  /** Thinking and a decision, and an idle time unless the reply itself calls the sleep tool. */
  predicate Complete(p: ParsedSelfOutput, asksForSleep: bool) {
    Thinking in p.foundTags && Decision in p.foundTags && (asksForSleep || Idle in p.foundTags)
  }

  // ---- decisions ---------------------------------------------------------

  const SLEEP_TOOL := "sleep"

  datatype ToolCall = ToolCall(tool: string, intent: string)

  /** What the decision engine made of a decision; one flag per failed block says whether it was
      salvaged. */
  datatype Translation = Translation(calls: seq<ToolCall>, sleep: bool, failures: seq<bool>)

  datatype Dispatch = Dispatch(heartbeat: nat, calls: seq<ToolCall>, sleep: bool, nodes: seq<Node>)

  function WithoutSleep(calls: seq<ToolCall>): seq<ToolCall> {
    if calls == [] then []
    else
      var n := |calls| - 1;
      WithoutSleep(calls[..n]) + if calls[n].tool == SLEEP_TOOL then [] else [calls[n]]
  }

  predicate NoSleepCall(calls: seq<ToolCall>) {
    forall i :: 0 <= i < |calls| ==> calls[i].tool != SLEEP_TOOL
  }

  predicate AsksToSleep(t: Translation) {
    t.sleep || !NoSleepCall(t.calls)
  }

  lemma CallCount(xs: seq<ToolCall>, x: ToolCall, c: ToolCall)
    ensures multiset(xs + [x])[c] == multiset(xs)[c] + if x == c then 1 else 0
  {
  }

  lemma WithoutSleepUnfold(calls: seq<ToolCall>)
    ensures calls == [] ==> WithoutSleep(calls) == []
    ensures calls != [] ==>
              var n := |calls| - 1;
              WithoutSleep(calls) == if calls[n].tool == SLEEP_TOOL then WithoutSleep(calls[..n])
                                     else WithoutSleep(calls[..n]) + [calls[n]]
  {
  }

  /** The dispatched calls are the original ones with exactly the sleep calls taken out, each as often as
      before. */
  lemma {:induction false} WithoutSleepMeaning(calls: seq<ToolCall>, c: ToolCall)
    ensures multiset(WithoutSleep(calls))[c] == if c.tool == SLEEP_TOOL then 0 else multiset(calls)[c]
  {
    hide WithoutSleep;
    WithoutSleepUnfold(calls);
    if calls != [] {
      var n := |calls| - 1;
      WithoutSleepMeaning(calls[..n], c);
      assert calls == calls[..n] + [calls[n]];
      CallCount(calls[..n], calls[n], c);
      CallCount(WithoutSleep(calls[..n]), calls[n], c);
    }
  }

  lemma {:induction false} NoSleepCalls(calls: seq<ToolCall>)
    requires NoSleepCall(calls)
    ensures WithoutSleep(calls) == calls
  {
    hide WithoutSleep;
    WithoutSleepUnfold(calls);
    if calls != [] {
      NoSleepCalls(calls[..|calls| - 1]);
    }
  }

  /** Order is kept: filtering a concatenation filters its parts. */
  lemma {:induction false} WithoutSleepAppend(a: seq<ToolCall>, b: seq<ToolCall>)
    ensures WithoutSleep(a + b) == WithoutSleep(a) + WithoutSleep(b)
  {
    if b == [] {
      assert a + b == a;
    } else {
      var n := |b| - 1;
      WithoutSleepAppend(a, b[..n]);
      assert (a + b)[..|a + b| - 1] == a + b[..n];
    }
  }

  function Salvaged(failures: seq<bool>): (n: nat)
    ensures n <= |failures|
  {
    if failures == [] then 0 else Salvaged(failures[..|failures| - 1]) + if failures[|failures| - 1] then 1 else 0
  }

  function LowerAll(s: string): string {
    if s == "" then "" else [Lower(s[0])] + LowerAll(s[1..])
  }

  /** Nothing to translate. */
  predicate NoDecision(p: ParsedSelfOutput) {
    Strip(p.decision) == "" || LowerAll(Strip(p.decision)) == "no action"
  }

  // ---- dispatches over a run ---------------------------------------------

  /** What a beat dispatches: nothing without a translation, otherwise all its calls but the sleep calls, once. */
  function DispatchesOf(heartbeat: nat, t: Option<Translation>, sleep: bool, nodes: seq<Node>): seq<Dispatch> {
    if t == None then [] else [Dispatch(heartbeat, WithoutSleep(t.value.calls), sleep, nodes)]
  }

  lemma NoSleepLeft(calls: seq<ToolCall>)
    ensures NoSleepCall(WithoutSleep(calls))
  {
    hide WithoutSleep;
    var rest := WithoutSleep(calls);
    forall i | 0 <= i < |rest| ensures rest[i].tool != SLEEP_TOOL {
      WithoutSleepMeaning(calls, rest[i]);
      assert rest[i] in multiset(rest);
    }
  }

  /** At most one dispatch a beat, in beat order, and none of them has a sleep call in it. */
  ghost predicate DispatchesSound(ds: seq<Dispatch>, before: nat) {
    && (forall i :: 0 <= i < |ds| ==> ds[i].heartbeat < before && NoSleepCall(ds[i].calls))
    && (forall i, j :: 0 <= i < j < |ds| ==> ds[i].heartbeat < ds[j].heartbeat)
  }

  lemma DispatchedOnce(ds: seq<Dispatch>, heartbeat: nat, t: Option<Translation>, sleep: bool, nodes: seq<Node>)
    requires DispatchesSound(ds, heartbeat)
    ensures DispatchesSound(ds + DispatchesOf(heartbeat, t, sleep, nodes), heartbeat + 1)
  {
    hide NoSleepCall, WithoutSleep;
    if t.Some? {
      NoSleepLeft(t.value.calls);
    }
  }
}
