/** The sliding window of recent heartbeat rounds and its on-disk mirror
    (`krakey/engines/explicit_history/sliding_window.py`). */
module History {

  import opened Basics

  datatype Round = Round(
    heartbeatId: int,
    stimulus: string,
    decision: string,
    note: string,
    thinking: string,
    recall: string)

  /** The token estimator is foreign code: any function from text to a natural number. */
  type Estimator = string -> nat

  // ---- size of a window --------------------------------------------------

  function RoundTokens(tok: Estimator, r: Round): nat {
    tok(r.stimulus) + tok(r.decision) + tok(r.note) + tok(r.thinking) + tok(r.recall)
  }

  function TotalTokens(tok: Estimator, rs: seq<Round>): nat {
    if rs == [] then 0 else RoundTokens(tok, rs[0]) + TotalTokens(tok, rs[1..])
  }

  datatype Caps = Caps(tokens: int, rounds: int)

  /** `needs_compact`: either cap is exceeded. */
  predicate Over(tok: Estimator, caps: Caps, rs: seq<Round>) {
    TotalTokens(tok, rs) > caps.tokens || |rs| > caps.rounds
  }

  // ---- configuration -----------------------------------------------------

  datatype ConfigValue = Missing | Flag(b: bool) | Number(n: int) | OtherValue

  const DEFAULT_COMPACT_THRESHOLD := 2048
  const DEFAULT_MAX_HISTORY_ROUNDS := 20

  /** Booleans are rejected although Python counts them as integers. */
  function SanitizePositiveInt(v: ConfigValue, default: int): (r: int)
    ensures default > 0 ==> r > 0
    ensures r != default ==> v == Number(r)
    ensures forall n :: n > 0 && v == Number(n) ==> r == n
  {
    if v.Number? && v.n > 0 then v.n else default
  }

  function CapsOf(threshold: ConfigValue, maxRounds: ConfigValue): (c: Caps)
    ensures c.tokens > 0 && c.rounds > 0
  {
    Caps(SanitizePositiveInt(threshold, DEFAULT_COMPACT_THRESHOLD),
         SanitizePositiveInt(maxRounds, DEFAULT_MAX_HISTORY_ROUNDS))
  }

  // ---- the file format ---------------------------------------------------

  datatype Json =
    | JNull
    | JBool(b: bool)
    | JInt(n: int)
    | JReal(x: real)
    | JStr(s: string)
    | JList(items: seq<Json>)
    | JObj(fields: map<string, Json>)

  /** What is found at `state_path`: nothing, something that cannot be read or decoded, or a document. */
  datatype File = Absent | Unreadable | Doc(json: Json)

  /** The two library coercions whose text rules are not spelled out here:
      `int(<str>)` and `str(<anything but a str>)`. */
  datatype Coercions = Coercions(intOfText: string -> Option<int>, textOfOther: Json -> string)

  const SCHEMA_VERSION := 2

  function EncodeRound(r: Round): Json {
    JObj(map["heartbeat_id" := JInt(r.heartbeatId),
             "stimulus_summary" := JStr(r.stimulus),
             "decision_text" := JStr(r.decision),
             "note_text" := JStr(r.note),
             "thinking_text" := JStr(r.thinking),
             "recall_summary" := JStr(r.recall)])
  }

  function Encode(rs: seq<Round>): Json {
    JObj(map["schema_version" := JInt(SCHEMA_VERSION),
             "rounds" := JList(seq(|rs|, i requires 0 <= i < |rs| => EncodeRound(rs[i])))])
  }

  function Truncate(x: real): int {
    if x >= 0.0 then x.Floor else -((-x).Floor)
  }

  function IntOf(py: Coercions, j: Json): Option<int> {
    match j
    case JBool(b) => Some(if b then 1 else 0)
    case JInt(n) => Some(n)
    case JReal(x) => Some(Truncate(x))
    case JStr(s) => py.intOfText(s)
    case _ => None
  }

  function TextField(py: Coercions, fields: map<string, Json>, name: string): string {
    if name !in fields then ""
    else if fields[name].JStr? then fields[name].s
    else py.textOfOther(fields[name])
  }

  /** One entry of the `rounds` list; `None` when the loader skips it as malformed. */
  function DecodeRound(py: Coercions, j: Json): Option<Round> {
    if !j.JObj? || "heartbeat_id" !in j.fields then None
    else
      match IntOf(py, j.fields["heartbeat_id"])
      case None => None
      case Some(n) =>
        Some(Round(n,
                   TextField(py, j.fields, "stimulus_summary"),
                   TextField(py, j.fields, "decision_text"),
                   TextField(py, j.fields, "note_text"),
                   TextField(py, j.fields, "thinking_text"),
                   TextField(py, j.fields, "recall_summary")))
  }

  function DecodeRounds(py: Coercions, js: seq<Json>): seq<Round> {
    if js == [] then []
    else
      var n := |js| - 1;
      match DecodeRound(py, js[n])
      case None => DecodeRounds(py, js[..n])
      case Some(r) => DecodeRounds(py, js[..n]) + [r]
  }

  predicate Falsy(j: Json) {
    match j
    case JNull => true
    case JBool(b) => !b
    case JInt(n) => n == 0
    case JReal(x) => x == 0.0
    case JStr(s) => s == ""
    case JList(items) => items == []
    case JObj(fields) => fields == map[]
  }

  /** The entries the loader will look at; `[]` for every kind of unusable file. */
  function Entries(f: File): seq<Json> {
    if !f.Doc? || !f.json.JObj? then []
    else
      var fields := f.json.fields;
      if "schema_version" !in fields then []
      else if fields["schema_version"] != JInt(SCHEMA_VERSION)
           && fields["schema_version"] != JReal(SCHEMA_VERSION as real) then []
      else if "rounds" !in fields || Falsy(fields["rounds"]) || !fields["rounds"].JList? then []
      else fields["rounds"].items
  }

  function Load(py: Coercions, f: File): seq<Round> {
    DecodeRounds(py, Entries(f))
  }

  lemma DecodeEncodedRound(py: Coercions, r: Round)
    ensures DecodeRound(py, EncodeRound(r)) == Some(r)
  {
    assert "decision_text"[0] != "thinking_text"[0];
    var fields := EncodeRound(r).fields;
    assert fields["heartbeat_id"] == JInt(r.heartbeatId);
    assert TextField(py, fields, "stimulus_summary") == r.stimulus;
    assert TextField(py, fields, "decision_text") == r.decision;
    assert TextField(py, fields, "note_text") == r.note;
    assert TextField(py, fields, "thinking_text") == r.thinking;
    assert TextField(py, fields, "recall_summary") == r.recall;
  }

  lemma {:induction false} DecodeEncoded(py: Coercions, rs: seq<Round>, js: seq<Json>)
    requires |js| == |rs| && forall i :: 0 <= i < |rs| ==> js[i] == EncodeRound(rs[i])
    ensures DecodeRounds(py, js) == rs
  {
    hide EncodeRound, DecodeRound;
    if rs != [] {
      var n := |rs| - 1;
      DecodeEncoded(py, rs[..n], js[..n]);
      DecodeEncodedRound(py, rs[n]);
      assert rs == rs[..n] + [rs[n]];
    }
  }

  /** What a successful persist wrote is read back unchanged, whatever the library coercions do. */
  lemma RoundTrip(py: Coercions, rs: seq<Round>)
    ensures Load(py, Doc(Encode(rs))) == rs
  {
    var js := seq(|rs|, i requires 0 <= i < |rs| => EncodeRound(rs[i]));
    DecodeEncoded(py, rs, js);
  }

  // ---- the window as a value ---------------------------------------------

  /** Where the mirror lives: absent when persistence is off; `writable(i)` is the fate of write number `i`. */
  datatype Disk = Disk(present: bool, writable: nat -> bool)

  /** The window, its eviction history since construction, and the file behind it. */
  datatype Mirror = Mirror(rounds: seq<Round>, evicted: seq<Round>, content: File, writes: nat)

  function Persisted(d: Disk, m: Mirror): Mirror {
    if !d.present then m
    else
      m.(content := if d.writable(m.writes) then Doc(Encode(m.rounds)) else m.content,
         writes := m.writes + 1)
  }

  function Appended(d: Disk, m: Mirror, r: Round): Mirror {
    Persisted(d, m.(rounds := m.rounds + [r]))
  }

  function Popped(d: Disk, m: Mirror): Mirror
    requires m.rounds != []
  {
    Persisted(d, m.(rounds := m.rounds[1..], evicted := m.evicted + [m.rounds[0]]))
  }

  /** `n` pops in a row. */
  function Pops(d: Disk, m: Mirror, n: nat): (r: Mirror)
    requires n <= |m.rounds|
    ensures |r.rounds| == |m.rounds| - n
  {
    if n == 0 then m else Popped(d, Pops(d, m, n - 1))
  }

  /** Which of `n` writes, counted from write number `base`, was the last to succeed; 0 if none was. */
  function LastWritten(d: Disk, base: nat, n: nat): (k: nat)
    ensures k <= n
    ensures k > 0 ==> d.writable(base + k - 1)
    ensures forall i :: base + k <= i < base + n ==> !d.writable(i)
  {
    if n == 0 || d.writable(base + n - 1) then n else LastWritten(d, base, n - 1)
  }

  lemma {:induction false} PopsShape(d: Disk, m: Mirror, n: nat)
    requires n <= |m.rounds|
    ensures Pops(d, m, n).rounds == m.rounds[n..]
    ensures Pops(d, m, n).evicted == m.evicted + m.rounds[..n]
    ensures var k := if d.present then LastWritten(d, m.writes, n) else 0;
      Pops(d, m, n).content == if k == 0 then m.content else Doc(Encode(m.rounds[k..]))
    ensures Pops(d, m, n).writes == if d.present then m.writes + n else m.writes
  {
    if n > 0 {
      PopsShape(d, m, n - 1);
      assert m.rounds[n - 1..][1..] == m.rounds[n..];
      assert m.rounds[..n] == m.rounds[..n - 1] + [m.rounds[n - 1]];
    }
  }

  lemma {:induction false} PopsCompose(d: Disk, m: Mirror, a: nat, b: nat)
    requires a + b <= |m.rounds|
    ensures Pops(d, Pops(d, m, a), b) == Pops(d, m, a + b)
  {
    if b > 0 {
      PopsCompose(d, m, a, b - 1);
    }
  }

  /** A freshly constructed window: load, then the startup fast-drop to twice the round cap. */
  function Started(d: Disk, py: Coercions, caps: Caps, content: File, writes: nat): Mirror
    requires caps.rounds > 0
  {
    var loaded := if d.present then Load(py, content) else [];
    var kept := Mirror(LastN(loaded, 2 * caps.rounds), [], content, writes);
    if |loaded| > 2 * caps.rounds then Persisted(d, kept) else kept
  }

  // ---- the source's objects ----------------------------------------------

  /** The file at `state_path`. A replace either installs the whole document or leaves the old one. */
  class StateFile {
    var content: File
    var writes: nat
    const writable: nat -> bool

    constructor (content: File, writable: nat -> bool)
      ensures this.content == content && this.writable == writable && writes == 0
    {
      this.content, this.writes, this.writable := content, 0, writable;
    }

    method Replace(json: Json)
      modifies this
      ensures content == if writable(old(writes)) then Doc(json) else old(content)
      ensures writes == old(writes) + 1
    {
      if writable(writes) {
        content := Doc(json);
      }
      writes := writes + 1;
    }
  }

  class SlidingWindow {
    const tok: Estimator
    const py: Coercions
    const caps: Caps
    const file: StateFile?
    var rounds: seq<Round>
    ghost var evicted: seq<Round>

    ghost function Store(): Disk {
      if file == null then Disk(false, i => false) else Disk(true, file.writable)
    }

    ghost function View(): Mirror
      reads this, file
    {
      if file == null then Mirror(rounds, evicted, Absent, 0)
      else Mirror(rounds, evicted, file.content, file.writes)
    }

    constructor (tok: Estimator, py: Coercions, threshold: ConfigValue, maxRounds: ConfigValue, file: StateFile?)
      modifies file
      ensures this.tok == tok && this.py == py && this.file == file
      ensures caps == CapsOf(threshold, maxRounds)
      ensures file == null ==> View() == Started(Store(), py, caps, Absent, 0)
      ensures file != null ==> View() == Started(Store(), py, caps, old(file.content), old(file.writes))
    {
      hide Load, Encode, CapsOf, Entries;
      this.tok, this.py, this.file := tok, py, file;
      caps := CapsOf(threshold, maxRounds);
      rounds, evicted := [], [];
      new;
      if file != null {
        LoadFromDisk();
        var cap2 := 2 * caps.rounds;
        if |rounds| > cap2 {
          rounds := rounds[|rounds| - cap2..];
          Persist();
        }
      }
    }

    method LoadFromDisk()
      requires file != null
      modifies `rounds
      ensures Entries(file.content) == [] ==> rounds == old(rounds)
      ensures Entries(file.content) != [] || old(rounds) == [] ==> rounds == Load(py, file.content)
    {
      var entries := Entries(file.content);
      if entries == [] {
        return;
      }
      var loaded: seq<Round> := [];
      for i := 0 to |entries|
        invariant loaded == DecodeRounds(py, entries[..i])
      {
        assert entries[..i + 1][..i] == entries[..i];
        match DecodeRound(py, entries[i]) {
          case None =>
          case Some(r) => loaded := loaded + [r];
        }
      }
      assert entries[..|entries|] == entries;
      rounds := loaded;
    }

    method Persist()
      modifies file
      ensures View() == Persisted(Store(), old(View()))
    {
      if file == null {
        return;
      }
      file.Replace(Encode(rounds));
    }

    method Append(r: Round)
      modifies this, file
      ensures View() == Appended(Store(), old(View()), r)
    {
      rounds := rounds + [r];
      Persist();
    }

    method PopOldest() returns (oldest: Option<Round>)
      modifies this, file
      ensures old(rounds) == [] ==> oldest == None && View() == old(View())
      ensures old(rounds) != [] ==>
                oldest == Some(old(rounds)[0]) && View() == Popped(Store(), old(View()))
      ensures old(rounds) != [] ==> rounds == old(rounds)[1..]
    {
      if rounds == [] {
        return None;
      }
      oldest := Some(rounds[0]);
      evicted := evicted + [rounds[0]];
      rounds := rounds[1..];
      Persist();
    }

    method TotalTokensNow() returns (total: nat)
      ensures total == TotalTokens(tok, rounds)
    {
      total := 0;
      for i := 0 to |rounds|
        invariant total + TotalTokens(tok, rounds[i..]) == TotalTokens(tok, rounds)
      {
        assert rounds[i..][1..] == rounds[i + 1..];
        total := total + RoundTokens(tok, rounds[i]);
      }
    }

    method NeedsCompact() returns (over: bool)
      ensures over == Over(tok, caps, rounds)
    {
      var total := TotalTokensNow();
      over := total > caps.tokens || |rounds| > caps.rounds;
    }
  }
}
