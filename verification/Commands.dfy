/** Slash commands: how one message is read (`krakey/runtime/commands/commands.py`) and what the scan of
    a drained batch makes of them (`krakey/engines/heartbeat/orchestrator.py`). */
module Commands {
  import opened SelfOutput
  import opened Stimuli

  datatype Command = Status | MemoryStats | SleepNow | Kill

  /** What reading a message yields; a message that is only a slash makes the reader raise. */
  datatype Reading = NotACommand | Crash | Is(command: Command)

  function Lower(c: char): char {
    if 'A' <= c <= 'Z' then c + 32 as char else c
  }

  function LowerWord(s: string): string {
    if s == "" || IsSpace(s[0]) then "" else [Lower(s[0])] + LowerWord(s[1..])
  }

  function Named(word: string): Reading {
    if word == "status" then Is(Status)
    else if word == "memory_stats" then Is(MemoryStats)
    else if word == "sleep" then Is(SleepNow)
    else if word == "kill" then Is(Kill)
    else NotACommand
  }

  /** The first word after the slash, in any mixture of cases; spaces may stand between the two. */
  function ParseCommand(content: string): Reading {
    var text := Strip(content);
    if text == "" || text[0] != '/' then NotACommand
    else
      var rest := StripLeft(text[1..]);
      if rest == "" then Crash else Named(LowerWord(rest))
  }

  lemma StatusIsRead()
    ensures ParseCommand("/status") == Is(Status)
  {
    assert "/status"[1..] == "status";
  }

  lemma {:induction false} StripLeftEmpty(s: string)
    requires StripLeft(s) == "" && s != ""
    ensures IsSpace(s[|s| - 1])
  {
    if |s| > 1 {
      StripLeftEmpty(s[1..]);
    }
  }

  lemma {:induction false} StripRightEnd(s: string)
    ensures StripRight(s) != "" ==> !IsSpace(StripRight(s)[|StripRight(s)| - 1])
  {
    if s != "" && IsSpace(s[|s| - 1]) {
      StripRightEnd(s[..|s| - 1]);
    }
  }

  /** The reader raises on exactly one trimmed text. */
  lemma CrashesOnABareSlash(content: string)
    ensures ParseCommand(content) == Crash <==> Strip(content) == "/"
  {
    hide StripLeft, StripRight;
    var text := Strip(content);
    StripRightEnd(StripLeft(content));
    if text != "" && text[0] == '/' {
      if |text| > 1 && StripLeft(text[1..]) == "" {
        StripLeftEmpty(text[1..]);
      }
      StripNothing();
    }
  }

  lemma StripNothing()
    ensures StripLeft("") == ""
    ensures "/"[1..] == ""
  {
  }

  // ---- scanning a batch --------------------------------------------------

  function Read(s: Stimulus): Reading {
    if s.kind != "user_message" then NotACommand else ParseCommand(s.content)
  }

  datatype Action = NoAction | SleepAction | KillAction

  datatype Scanned = Scanned(kept: seq<Stimulus>, action: Action, notices: seq<Command>, crashed: bool)

  function Next(seen: Scanned, s: Stimulus): Scanned {
    match Read(s)
    case NotACommand => seen.(kept := seen.kept + [s])
    case Crash => seen.(crashed := true)
    case Is(Kill) => seen.(action := KillAction)
    case Is(SleepNow) => seen.(action := SleepAction)
    case Is(c) => seen.(notices := seen.notices + [c])
  }

  predicate Ended(seen: Scanned) {
    seen.crashed || seen.action == KillAction
  }

  function ScanOf(stimuli: seq<Stimulus>): Scanned {
    if stimuli == [] then Scanned([], NoAction, [], false)
    else
      var seen := ScanOf(stimuli[..|stimuli| - 1]);
      if Ended(seen) then seen else Next(seen, stimuli[|stimuli| - 1])
  }

  /** Everything that is not a command, in order. */
  function Survivors(stimuli: seq<Stimulus>): seq<Stimulus> {
    if stimuli == [] then []
    else
      Survivors(stimuli[..|stimuli| - 1])
      + if Read(stimuli[|stimuli| - 1]) == NotACommand then [stimuli[|stimuli| - 1]] else []
  }

  lemma {:induction false} SurvivorsAppend(a: seq<Stimulus>, b: seq<Stimulus>)
    ensures Survivors(a + b) == Survivors(a) + Survivors(b)
    decreases |b|
  {
    hide Read;
    if b == [] {
      assert a + b == a;
    } else {
      var n := |b| - 1;
      SurvivorsAppend(a, b[..n]);
      assert (a + b)[..|a| + n] == a + b[..n];
    }
  }

  /** What survives is there as often as before. */
  lemma {:induction false} SurvivorsCount(stimuli: seq<Stimulus>, s: Stimulus)
    ensures multiset(Survivors(stimuli))[s] == if Read(s) == NotACommand then multiset(stimuli)[s] else 0
  {
    hide Read;
    if stimuli != [] {
      var n := |stimuli| - 1;
      SurvivorsCount(stimuli[..n], s);
      assert stimuli == stimuli[..n] + [stimuli[n]];
    }
  }

  function Informational(stimuli: seq<Stimulus>): seq<Command> {
    if stimuli == [] then []
    else
      var last := Read(stimuli[|stimuli| - 1]);
      Informational(stimuli[..|stimuli| - 1])
      + if last == Is(Status) || last == Is(MemoryStats) then [last.command] else []
  }

  /** Stimulus number `i` is where the scan stops early. */
  predicate StopsAt(stimuli: seq<Stimulus>, i: nat, why: Reading) {
    && i < |stimuli|
    && Read(stimuli[i]) == why
    && forall j :: 0 <= j < i ==> Read(stimuli[j]) != Crash && Read(stimuli[j]) != Is(Kill)
  }

  predicate Has(stimuli: seq<Stimulus>, what: Reading) {
    exists i :: 0 <= i < |stimuli| && Read(stimuli[i]) == what
  }

  lemma {:induction false} NoStop(stimuli: seq<Stimulus>)
    ensures !Ended(ScanOf(stimuli)) <==> !Has(stimuli, Crash) && !Has(stimuli, Is(Kill))
    ensures !Ended(ScanOf(stimuli)) ==>
              ScanOf(stimuli) == Scanned(Survivors(stimuli), if Has(stimuli,
                  Is(SleepNow)) then SleepAction else NoAction,
                                         Informational(stimuli), false)
  {
    hide Read;
    if stimuli != [] {
      var n := |stimuli| - 1;
      NoStop(stimuli[..n]);
      HasLast(stimuli, Crash);
      HasLast(stimuli, Is(Kill));
      HasLast(stimuli, Is(SleepNow));
    }
  }

  lemma HasLast(stimuli: seq<Stimulus>, what: Reading)
    requires stimuli != []
    ensures var n := |stimuli| - 1;
      Has(stimuli, what) <==> Has(stimuli[..n], what) || Read(stimuli[n]) == what
  {
    hide Read;
    var n := |stimuli| - 1;
    if Has(stimuli, what) {
      var i :| 0 <= i < |stimuli| && Read(stimuli[i]) == what;
      assert i < n ==> Read(stimuli[..n][i]) == what;
    }
    if Has(stimuli[..n], what) {
      var i :| 0 <= i < n && Read(stimuli[..n][i]) == what;
      assert Read(stimuli[i]) == what;
    }
  }

  lemma {:induction false} EarlyStop(stimuli: seq<Stimulus>, i: nat, why: Reading)
    requires StopsAt(stimuli, i, why) && (why == Crash || why == Is(Kill))
    ensures ScanOf(stimuli).crashed == (why == Crash)
    ensures ScanOf(stimuli).action == KillAction <==> why == Is(Kill)
    ensures ScanOf(stimuli).kept == Survivors(stimuli[..i])
  {
    hide Read;
    var n := |stimuli| - 1;
    if i == n {
      NoStop(stimuli[..n]);
      assert !Has(stimuli[..n], Crash) && !Has(stimuli[..n], Is(Kill));
    } else {
      assert stimuli[..n][..i] == stimuli[..i];
      EarlyStop(stimuli[..n], i, why);
    }
  }

  lemma {:induction false} FirstStop(stimuli: seq<Stimulus>)
    requires Has(stimuli, Crash) || Has(stimuli, Is(Kill))
    ensures exists i, why :: StopsAt(stimuli, i, why) && (why == Crash || why == Is(Kill))
  {
    hide Read;
    var n := |stimuli| - 1;
    if Has(stimuli[..n], Crash) || Has(stimuli[..n], Is(Kill)) {
      FirstStop(stimuli[..n]);
      var i, why :| StopsAt(stimuli[..n], i, why) && (why == Crash || why == Is(Kill));
      assert StopsAt(stimuli, i, why);
    } else {
      HasLast(stimuli, Crash);
      HasLast(stimuli, Is(Kill));
      forall j | 0 <= j < n ensures Read(stimuli[j]) != Crash && Read(stimuli[j]) != Is(Kill) {
        assert stimuli[..n][j] == stimuli[j];
      }
      assert StopsAt(stimuli, n, Read(stimuli[n]));
    }
  }

  /** A kill or a bare slash, whichever comes first, ends the scan with the survivors so far; without
      either, every command is taken out, the rest keeps its order, a sleep is requested exactly when one
      was asked for, and every informational command is answered in order. */
  lemma ScanMeaning(stimuli: seq<Stimulus>)
    ensures ScanOf(stimuli).action == KillAction <==> exists i :: StopsAt(stimuli, i, Is(Kill))
    ensures ScanOf(stimuli).crashed <==> exists i :: StopsAt(stimuli, i, Crash)
    ensures forall i: nat :: StopsAt(stimuli, i, Is(Kill)) ==> ScanOf(stimuli).kept == Survivors(stimuli[..i])
    ensures !Has(stimuli, Crash) && !Has(stimuli, Is(Kill)) ==>
              ScanOf(stimuli) == Scanned(Survivors(stimuli), if Has(stimuli,
                  Is(SleepNow)) then SleepAction else NoAction,
                                         Informational(stimuli), false)
  {
    hide Read, ScanOf, Survivors, Informational;
    NoStop(stimuli);
    if Has(stimuli, Crash) || Has(stimuli, Is(Kill)) {
      FirstStop(stimuli);
    }
    forall i: nat, why | StopsAt(stimuli, i, why) && (why == Crash || why == Is(Kill))
      ensures ScanOf(stimuli).crashed == (why == Crash)
      ensures ScanOf(stimuli).action == KillAction <==> why == Is(Kill)
      ensures ScanOf(stimuli).kept == Survivors(stimuli[..i]) {
      EarlyStop(stimuli, i, why);
    }
    forall i: nat, why | StopsAt(stimuli, i, why) ensures Has(stimuli, why) {
    }
  }

  // ---- no command survives -----------------------------------------------

  predicate NoCommands(stimuli: seq<Stimulus>) {
    forall s :: s in stimuli ==> Read(s) == NotACommand
  }

  lemma {:induction false} KeptAreNoCommands(stimuli: seq<Stimulus>)
    ensures NoCommands(ScanOf(stimuli).kept)
    ensures forall s :: s in ScanOf(stimuli).kept ==> s in stimuli
  {
    hide Read;
    if stimuli != [] {
      KeptAreNoCommands(stimuli[..|stimuli| - 1]);
    }
  }
}
