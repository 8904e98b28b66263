/** The Self-output section parser (`krakey/self_agent.py`), for tags spelled in ASCII. */
module SelfOutput {
  import opened Basics
  import opened Decimal

  datatype Tag = Thinking | Decision | Note | Idle

  function TagName(t: Tag): string {
    match t
    case Thinking => "THINKING"
    case Decision => "DECISION"
    case Note => "NOTE"
    case Idle => "IDLE"
  }

  function Upper(c: char): char {
    if 'a' <= c <= 'z' then c - 32 as char else c
  }

  function MarkerLength(t: Tag): (n: nat)
    ensures n >= 6
  {
    |TagName(t)| + 2
  }

  /** `s` begins with `[NAME]`, in any mixture of cases. */
  predicate BeginsWith(s: string, t: Tag) {
    var name := TagName(t);
    && |s| >= |name| + 2
    && s[0] == '['
    && s[|name| + 1] == ']'
    && forall i :: 0 <= i < |name| ==> Upper(s[i + 1]) == name[i]
  }

  /** The alternation of the tag pattern, tried at the start of `s`. */
  function TagAt(s: string): (r: Option<Tag>)
    ensures r.Some? ==> BeginsWith(s, r.value) && |s| >= MarkerLength(r.value)
  {
    if BeginsWith(s, Thinking) then Some(Thinking)
    else if BeginsWith(s, Decision) then Some(Decision)
    else if BeginsWith(s, Note) then Some(Note)
    else if BeginsWith(s, Idle) then Some(Idle)
    else None
  }

  // ---- a reference parser on suffixes ------------------------------------

  /** One matched tag, as it was spelled, with the text up to the next tag. */
  datatype Segment = Segment(spelling: string, tag: Tag, body: string)

  datatype Layout = Layout(preamble: string, segments: seq<Segment>)

  function LayoutOf(s: string): Layout {
    if s == "" then Layout("", [])
    else
      match TagAt(s)
      case Some(t) =>
        var rest := LayoutOf(s[MarkerLength(t)..]);
        Layout("", [Segment(s[..MarkerLength(t)], t, rest.preamble)] + rest.segments)
      case None =>
        var rest := LayoutOf(s[1..]);
        Layout([s[0]] + rest.preamble, rest.segments)
  }

  function RenderSegments(segments: seq<Segment>): string {
    if segments == [] then ""
    else segments[0].spelling + segments[0].body + RenderSegments(segments[1..])
  }

  function Render(l: Layout): string {
    l.preamble + RenderSegments(l.segments)
  }

  predicate TagFree(s: string) {
    forall i :: 0 <= i < |s| ==> TagAt(s[i..]) == None
  }

  predicate Spells(spelling: string, t: Tag) {
    |spelling| == MarkerLength(t) && BeginsWith(spelling, t)
  }

  predicate Clean(l: Layout) {
    && TagFree(l.preamble)
    && forall i :: 0 <= i < |l.segments| ==>
         Spells(l.segments[i].spelling, l.segments[i].tag) && TagFree(l.segments[i].body)
  }

  /** A prefix of a text that starts with no tag starts with no tag either. */
  lemma PrefixTagFree(s: string, p: string)
    requires TagAt(s) == None && p <= s
    ensures TagAt(p) == None
  {
    if TagAt(p).Some? {
      assert BeginsWith(s, TagAt(p).value);
    }
  }

  lemma NoBracketInside(s: string, t: Tag)
    requires BeginsWith(s, t)
    ensures forall i :: 1 <= i < MarkerLength(t) ==> s[i] != '['
  {
    forall i | 1 <= i < MarkerLength(t) ensures s[i] != '[' {
      if i <= |TagName(t)| {
        assert Upper(s[i - 1 + 1]) == TagName(t)[i - 1];
      }
    }
  }

  lemma MarkerEndsBefore(s: string, rest: string, t: Tag)
    requires s != "" && (rest == "" || rest[0] == '[') && BeginsWith(s + rest, t)
    ensures |s| >= MarkerLength(t)
  {
    NoBracketInside(s + rest, t);
    if rest != "" {
      assert (s + rest)[|s|] == '[';
    }
  }

  /** No marker straddles the end of a text that is followed by nothing or by `[`. */
  lemma NoStraddle(s: string, rest: string)
    requires s != "" && (rest == "" || rest[0] == '[')
    ensures TagAt(s + rest) == TagAt(s)
  {
    match TagAt(s + rest)
    case Some(t) =>
      MarkerEndsBefore(s, rest, t);
      assert BeginsWith(s, t);
      SpellingDecides(s, t);
    case None =>
      if TagAt(s).Some? {
        assert BeginsWith(s + rest, TagAt(s).value);
      }
  }

  lemma FirstLetter(s: string, t: Tag)
    requires BeginsWith(s, t)
    ensures Upper(s[1]) == match t case Thinking => 'T' case Decision => 'D' case Note => 'N' case Idle => 'I'
  {
    assert Upper(s[0 + 1]) == TagName(t)[0];
  }

  lemma SpellingDecides(s: string, t: Tag)
    requires BeginsWith(s, t)
    ensures TagAt(s) == Some(t)
  {
    FirstLetter(s, t);
    forall u | BeginsWith(s, u) ensures u == t {
      FirstLetter(s, u);
    }
  }

  lemma TagFreeCons(c: char, s: string)
    requires TagFree(s) && TagAt([c] + s) == None
    ensures TagFree([c] + s)
  {
    forall i | 0 <= i < |[c] + s| ensures TagAt(([c] + s)[i..]) == None {
      assert ([c] + s)[i..] == if i > 0 then s[i - 1..] else [c] + s;
    }
  }

  lemma TagFreeTail(s: string)
    requires TagFree(s) && s != ""
    ensures TagAt(s) == None && TagFree(s[1..])
  {
    assert s[0..] == s;
    forall i | 0 <= i < |s[1..]| ensures TagAt(s[1..][i..]) == None {
      assert s[1..][i..] == s[i + 1..];
    }
  }

  lemma MarkerSpells(s: string, t: Tag)
    requires BeginsWith(s, t)
    ensures Spells(s[..MarkerLength(t)], t) && s[0] == '['
  {
  }

  /** The two cases of the reference parser. */
  lemma LayoutAtTag(s: string, t: Tag)
    requires TagAt(s) == Some(t)
    ensures |s| >= MarkerLength(t) && s[0] == '[' && Spells(s[..MarkerLength(t)], t)
    ensures var rest := LayoutOf(s[MarkerLength(t)..]);
      LayoutOf(s) == Layout("", [Segment(s[..MarkerLength(t)], t, rest.preamble)] + rest.segments)
  {
    hide BeginsWith, Spells, MarkerLength, TagAt;
    MarkerSpells(s, t);
  }

  lemma LayoutAtText(s: string)
    requires s != "" && TagAt(s) == None
    ensures LayoutOf(s) == Layout([s[0]] + LayoutOf(s[1..]).preamble, LayoutOf(s[1..]).segments)
  {
    hide TagAt;
  }

  lemma RenderCons(g: Segment, segments: seq<Segment>)
    ensures RenderSegments([g] + segments) == g.spelling + (g.body + RenderSegments(segments))
  {
    assert ([g] + segments)[1..] == segments;
    assert g.spelling + g.body + RenderSegments(segments) == g.spelling + (g.body + RenderSegments(segments));
  }

  lemma RenderText(c: char, l: Layout)
    ensures Render(Layout([c] + l.preamble, l.segments)) == [c] + Render(l)
  {
    assert [c] + l.preamble + RenderSegments(l.segments) == [c] + (l.preamble + RenderSegments(l.segments));
  }

  lemma {:induction false} LayoutRenders(s: string)
    ensures Render(LayoutOf(s)) == s
  {
    hide TagAt, MarkerLength, LayoutOf, Spells;
    if s == "" {
      assert LayoutOf(s) == Layout("", []) by {
        EmptyLayout();
      }
    } else {
      match TagAt(s)
      case Some(t) =>
        var n := MarkerLength(t);
        LayoutAtTag(s, t);
        LayoutRenders(s[n..]);
        var rest := LayoutOf(s[n..]);
        RenderCons(Segment(s[..n], t, rest.preamble), rest.segments);
        assert s == s[..n] + s[n..];
      case None =>
        LayoutAtText(s);
        LayoutRenders(s[1..]);
        RenderText(s[0], LayoutOf(s[1..]));
        assert s == [s[0]] + s[1..];
    }
  }

  lemma EmptyLayout()
    ensures LayoutOf("") == Layout("", [])
  {
  }

  lemma CleanCons(g: Segment, l: Layout)
    requires Clean(l) && Spells(g.spelling, g.tag) && g.body == l.preamble
    ensures Clean(Layout("", [g] + l.segments))
  {
  }

  lemma {:induction false} LayoutIsClean(s: string)
    ensures Clean(LayoutOf(s))
  {
    if s != "" {
      hide MarkerLength, LayoutOf, Spells;
      match TagAt(s)
      case Some(t) =>
        var n := MarkerLength(t);
        LayoutAtTag(s, t);
        LayoutIsClean(s[n..]);
        var rest := LayoutOf(s[n..]);
        CleanCons(Segment(s[..n], t, rest.preamble), rest);
      case None =>
        LayoutAtText(s);
        LayoutIsClean(s[1..]);
        LayoutRenders(s[1..]);
        var p := LayoutOf(s[1..]).preamble;
        assert p <= s[1..];
        assert [s[0]] + p <= s;
        PrefixTagFree(s, [s[0]] + p);
        TagFreeCons(s[0], p);
    }
  }

  /** Splitting loses nothing: the preamble followed by every marker and its body is the raw text, every
      marker spells its tag, and neither the preamble nor any body contains a tag. */
  lemma SplitIsLossless(s: string)
    ensures Render(LayoutOf(s)) == s
    ensures Clean(LayoutOf(s))
  {
    LayoutRenders(s);
    LayoutIsClean(s);
  }

  lemma {:induction false} LayoutOfPreamble(p: string, rest: string, segments: seq<Segment>)
    requires TagFree(p) && (rest == "" || rest[0] == '[')
    requires LayoutOf(rest) == Layout("", segments)
    ensures LayoutOf(p + rest) == Layout(p, segments)
  {
    hide TagAt, LayoutOf, TagFree;
    if p == "" {
      assert p + rest == rest;
    } else {
      TagFreeTail(p);
      NoStraddle(p, rest);
      LayoutOfPreamble(p[1..], rest, segments);
      LayoutAtText(p + rest);
      assert (p + rest)[1..] == p[1..] + rest;
      assert p == [p[0]] + p[1..];
    }
  }

  lemma {:induction false} LayoutOfSegments(segments: seq<Segment>)
    requires Clean(Layout("", segments))
    ensures LayoutOf(RenderSegments(segments)) == Layout("", segments)
    ensures RenderSegments(segments) == "" || RenderSegments(segments)[0] == '['
  {
    hide TagAt, LayoutOf, TagFree, MarkerLength;
    if segments == [] {
      EmptyLayout();
    } else {
      var g, tail := segments[0], segments[1..];
      LayoutOfSegments(tail);
      var after := g.body + RenderSegments(tail);
      LayoutOfPreamble(g.body, RenderSegments(tail), tail);
      assert segments == [g] + tail;
      RenderCons(g, tail);
      MarkerThenText(g.spelling, g.tag, after);
      LayoutAtTag(g.spelling + after, g.tag);
    }
  }

  lemma MarkerThenText(spelling: string, t: Tag, after: string)
    requires Spells(spelling, t)
    ensures TagAt(spelling + after) == Some(t)
    ensures (spelling + after)[MarkerLength(t)..] == after && (spelling + after)[..MarkerLength(t)] == spelling
  {
    assert BeginsWith(spelling + after, t);
    SpellingDecides(spelling + after, t);
  }

  /** Printing any tag-free preamble and any spelled tags with tag-free bodies, then splitting, gives the
      same layout back. With `SplitIsLossless`, splitting and printing are inverse to each other. */
  lemma PrintThenSplit(l: Layout)
    requires Clean(l)
    ensures LayoutOf(Render(l)) == l
  {
    LayoutOfSegments(l.segments);
    LayoutOfPreamble(l.preamble, RenderSegments(l.segments), l.segments);
  }

  // ---- the source's splitter: match positions, then slices ---------------

  datatype Match = Match(start: nat, end: nat, tag: Tag)

  /** Leftmost, non-overlapping matches from `from` on. */
  function Scan(raw: string, from: nat): (ms: seq<Match>)
    requires from <= |raw|
    ensures forall i :: 0 <= i < |ms| ==> from <= ms[i].start < ms[i].end <= |raw|
    ensures forall i, j :: 0 <= i < j < |ms| ==> ms[i].end <= ms[j].start
    decreases |raw| - from
  {
    if from == |raw| then []
    else
      match TagAt(raw[from..])
      case Some(t) =>
        [Match(from, from + MarkerLength(t), t)] + Scan(raw, from + MarkerLength(t))
      case None => Scan(raw, from + 1)
  }

  lemma ScanAtTag(raw: string, from: nat, t: Tag)
    requires from < |raw| && TagAt(raw[from..]) == Some(t)
    ensures from + MarkerLength(t) <= |raw|
    ensures Scan(raw, from) == [Match(from, from + MarkerLength(t), t)] + Scan(raw, from + MarkerLength(t))
  {
    hide TagAt, MarkerLength;
  }

  lemma ScanAtText(raw: string, from: nat)
    requires from < |raw| && TagAt(raw[from..]) == None
    ensures Scan(raw, from) == Scan(raw, from + 1)
  {
    hide TagAt, MarkerLength;
  }

  lemma ScanAtEnd(raw: string)
    ensures Scan(raw, |raw|) == []
  {
  }

  method FindIter(raw: string) returns (ms: seq<Match>)
    ensures ms == Scan(raw, 0)
  {
    hide TagAt, MarkerLength, BeginsWith, Scan;
    ScanAtEnd(raw);
    ms := [];
    var i := 0;
    while i < |raw|
      invariant i <= |raw| && ms + Scan(raw, i) == Scan(raw, 0)
    {
      match TagAt(raw[i..]) {
        case Some(t) =>
          var n := MarkerLength(t);
          ScanAtTag(raw, i, t);
          Shift(ms, Match(i, i + n, t), Scan(raw, i + n));
          ms := ms + [Match(i, i + n, t)];
          i := i + n;
        case None =>
          ScanAtText(raw, i);
          i := i + 1;
      }
    }
  }

  /** The matches are in order and inside the text. */
  predicate InOrder(raw: string, ms: seq<Match>) {
    && (forall i :: 0 <= i < |ms| ==> ms[i].start <= ms[i].end <= |raw|)
    && (forall i, j :: 0 <= i < j < |ms| ==> ms[i].end <= ms[j].start)
  }

  function BodyEnd(raw: string, ms: seq<Match>, i: nat): nat
    requires i < |ms|
  {
    if i + 1 < |ms| then ms[i + 1].start else |raw|
  }

  function SegmentAt(raw: string, ms: seq<Match>, i: nat): Segment
    requires i < |ms| && InOrder(raw, ms)
  {
    Segment(raw[ms[i].start..ms[i].end], ms[i].tag, raw[ms[i].end..BodyEnd(raw, ms, i)])
  }

  predicate Describes(raw: string, from: nat, ms: seq<Match>, l: Layout)
    requires from <= |raw|
  {
    && InOrder(raw, ms)
    && (ms != [] ==> from <= ms[0].start)
    && l.preamble == raw[from..if ms == [] then |raw| else ms[0].start]
    && |l.segments| == |ms|
    && forall i :: 0 <= i < |ms| ==> l.segments[i] == SegmentAt(raw, ms, i)
  }

  lemma DescribesCons(raw: string, m: Match, ms: seq<Match>, l: Layout)
    requires m.start < m.end <= |raw| && Describes(raw, m.end, ms, l)
    ensures Describes(raw, m.start, [m] + ms,
                      Layout("", [Segment(raw[m.start..m.end], m.tag, l.preamble)] + l.segments))
  {
    var all := [m] + ms;
    var segments := [Segment(raw[m.start..m.end], m.tag, l.preamble)] + l.segments;
    forall i | 0 <= i < |all| ensures m.end <= BodyEnd(raw, all, i) {
    }
    assert InOrder(raw, all);
    forall i | 0 <= i < |all| ensures segments[i] == SegmentAt(raw, all, i) {
      if i > 0 {
        assert BodyEnd(raw, ms, i - 1) == BodyEnd(raw, all, i);
        assert segments[i] == l.segments[i - 1] == SegmentAt(raw, ms, i - 1);
      }
    }
  }

  lemma DescribesText(raw: string, from: nat, ms: seq<Match>, l: Layout)
    requires from < |raw| && Describes(raw, from + 1, ms, l)
    ensures Describes(raw, from, ms, Layout([raw[from]] + l.preamble, l.segments))
  {
    var e := if ms == [] then |raw| else ms[0].start;
    assert raw[from..e] == [raw[from]] + raw[from + 1..e];
  }

  lemma DescribesNothing(raw: string)
    ensures Describes(raw, |raw|, [], Layout("", []))
  {
  }

  lemma {:induction false} ScanGivesLayout(raw: string, from: nat)
    requires from <= |raw|
    ensures Describes(raw, from, Scan(raw, from), LayoutOf(raw[from..]))
    decreases |raw| - from
  {
    hide TagAt, MarkerLength, BeginsWith, LayoutOf, Describes, Scan;
    if from == |raw| {
      EmptyLayout();
      ScanAtEnd(raw);
      DescribesNothing(raw);
      assert raw[from..] == "";
    } else {
      var s := raw[from..];
      match TagAt(s)
      case Some(t) =>
        var n := MarkerLength(t);
        LayoutAtTag(s, t);
        ScanAtTag(raw, from, t);
        ScanGivesLayout(raw, from + n);
        assert s[n..] == raw[from + n..] && s[..n] == raw[from..from + n];
        DescribesCons(raw, Match(from, from + n, t), Scan(raw, from + n), LayoutOf(raw[from + n..]));
      case None =>
        LayoutAtText(s);
        ScanAtText(raw, from);
        ScanGivesLayout(raw, from + 1);
        assert s[1..] == raw[from + 1..];
        DescribesText(raw, from, Scan(raw, from + 1), LayoutOf(raw[from + 1..]));
    }
  }

  /** For each tag its last body. */
  function LastBodies(segments: seq<Segment>): (m: map<Tag, string>)
    ensures m.Keys == set g | g in segments :: g.tag
  {
    if segments == [] then map[]
    else
      var n := |segments| - 1;
      assert segments == segments[..n] + [segments[n]];
      LastBodies(segments[..n])[segments[n].tag := segments[n].body]
  }

  lemma {:induction false} LastBodyWins(segments: seq<Segment>, i: nat)
    requires i < |segments|
    requires forall j :: i < j < |segments| ==> segments[j].tag != segments[i].tag
    ensures segments[i].tag in LastBodies(segments)
    ensures LastBodies(segments)[segments[i].tag] == segments[i].body
  {
    if i < |segments| - 1 {
      LastBodyWins(segments[..|segments| - 1], i);
    }
  }

  method SplitSections(raw: string) returns (sections: map<Tag, string>)
    ensures sections == LastBodies(LayoutOf(raw).segments)
  {
    hide LayoutOf, Scan;
    var ms := FindIter(raw);
    ScanGivesLayout(raw, 0);
    assert raw[0..] == raw;
    ghost var segments := LayoutOf(raw).segments;
    sections := map[];
    for i := 0 to |ms|
      invariant sections == LastBodies(segments[..i])
    {
      var start := ms[i].end;
      var end := if i + 1 < |ms| then ms[i + 1].start else |raw|;
      assert segments[i] == SegmentAt(raw, ms, i);
      assert segments[..i + 1][..i] == segments[..i];
      sections := sections[ms[i].tag := raw[start..end]];
    }
    assert segments[..|ms|] == segments;
  }

  // ---- field values ------------------------------------------------------

  predicate IsSpace(c: char) {
    c == ' ' || 9 as char <= c <= 13 as char || 28 as char <= c <= 31 as char
  }

  function StripLeft(s: string): string {
    if s != "" && IsSpace(s[0]) then StripLeft(s[1..]) else s
  }

  function StripRight(s: string): string {
    if s != "" && IsSpace(s[|s| - 1]) then StripRight(s[..|s| - 1]) else s
  }

  function Strip(s: string): string {
    StripRight(StripLeft(s))
  }

  function DigitRun(s: string): (d: string)
    ensures AllDigits(d) && d <= s
    ensures s != "" && IsDigit(s[0]) ==> d != ""
  {
    if s == "" || !IsDigit(s[0]) then "" else [s[0]] + DigitRun(s[1..])
  }

  /** The first match of `-?\d+`, read as an integer. */
  function ParseInt(s: string): Option<int> {
    if s == "" then None
    else if IsDigit(s[0]) then Some(Value(DigitRun(s)))
    else if s[0] == '-' && |s| > 1 && IsDigit(s[1]) then Some(-(Value(DigitRun(s[1..])) as int))
    else ParseInt(s[1..])
  }

  lemma {:induction false} DigitRunOf(d: string, post: string)
    requires AllDigits(d) && (post == "" || !IsDigit(post[0]))
    ensures DigitRun(d + post) == d
  {
    if d == "" {
      assert d + post == post;
    } else {
      DigitRunOf(d[1..], post);
      assert (d + post)[1..] == d[1..] + post;
      assert d == [d[0]] + d[1..];
    }
  }

  /** An integer written into a text is read back: nothing before it may contain a digit or end in a
      minus sign, and no digit may follow. */
  lemma {:induction false} ParseIntReadsBack(pre: string, n: int, post: string)
    requires forall i :: 0 <= i < |pre| ==> !IsDigit(pre[i])
    requires pre == "" || pre[|pre| - 1] != '-'
    requires post == "" || !IsDigit(post[0])
    ensures ParseInt(pre + Text(n) + post) == Some(n)
  {
    hide Text, ParseInt;
    var s := pre + Text(n) + post;
    if pre == "" {
      assert s == Text(n) + post;
      ParseIntAtStart(n, post);
    } else {
      ParseIntReadsBack(pre[1..], n, post);
      assert s[1..] == pre[1..] + Text(n) + post;
      assert |pre| > 1 ==> s[1] == pre[1];
      ParseIntSkips(s);
    }
  }

  lemma ParseIntSkips(s: string)
    requires s != "" && !IsDigit(s[0]) && (s[0] == '-' && |s| > 1 ==> !IsDigit(s[1]))
    ensures ParseInt(s) == ParseInt(s[1..])
  {
  }

  lemma TextIs(n: int)
    ensures n >= 0 ==> Text(n) == Digits(n)
    ensures n < 0 ==> Text(n) == "-" + Digits(-n)
  {
  }

  lemma ParseIntAtDigit(s: string)
    requires s != "" && IsDigit(s[0])
    ensures ParseInt(s) == Some(Value(DigitRun(s)))
  {
  }

  lemma ParseIntAtMinus(s: string)
    requires |s| > 1 && s[0] == '-' && IsDigit(s[1])
    ensures ParseInt(s) == Some(-(Value(DigitRun(s[1..])) as int))
  {
  }

  lemma ParseDigits(d: string, post: string)
    requires AllDigits(d) && d != "" && (post == "" || !IsDigit(post[0]))
    ensures ParseInt(d + post) == Some(Value(d))
    ensures ParseInt("-" + d + post) == Some(-(Value(d) as int))
  {
    hide Value, DigitRun, ParseInt;
    DigitRunOf(d, post);
    ParseIntAtDigit(d + post);
    var s := "-" + d + post;
    assert s[1..] == d + post;
    ParseIntAtMinus(s);
  }

  lemma ParseIntAtStart(n: int, post: string)
    requires post == "" || !IsDigit(post[0])
    ensures ParseInt(Text(n) + post) == Some(n)
  {
    hide Value, Digits, DigitRun, Text, ParseInt;
    TextIs(n);
    var m: nat := if n < 0 then -n else n;
    ParseDigits(Digits(m), post);
    ValueOfDigits(m);
  }

  lemma {:induction false} ParseIntFindsADigit(s: string)
    ensures ParseInt(s).Some? <==> exists i :: 0 <= i < |s| && IsDigit(s[i])
  {
    if s != "" && ParseInt(s) == ParseInt(s[1..]) {
      ParseIntFindsADigit(s[1..]);
      if j :| 0 <= j < |s[1..]| && IsDigit(s[1..][j]) {
        assert IsDigit(s[j + 1]);
      }
    } else if s != "" && s[0] == '-' && |s| > 1 && IsDigit(s[1]) {
      assert IsDigit(s[1]);
    }
  }

  datatype ParsedSelfOutput = ParsedSelfOutput(
    thinking: string,
    decision: string,
    note: string,
    idleSeconds: Option<int>,
    foundTags: set<Tag>,
    raw: string)

  function SectionOr(sections: map<Tag, string>, t: Tag): string {
    if t in sections then sections[t] else ""
  }

  function Parsed(raw: string): (p: ParsedSelfOutput)
    ensures p.raw == raw
    ensures p.foundTags == set g | g in LayoutOf(raw).segments :: g.tag
  {
    var sections := LastBodies(LayoutOf(raw).segments);
    if sections == map[] then
      ParsedSelfOutput(Strip(raw), Strip(raw), "", None, {}, raw)
    else
      ParsedSelfOutput(Strip(SectionOr(sections, Thinking)), Strip(SectionOr(sections, Decision)),
                       Strip(SectionOr(sections, Note)), ParseInt(SectionOr(sections, Idle)),
                       sections.Keys, raw)
  }

  method ParseSelfOutput(raw: string) returns (p: ParsedSelfOutput)
    ensures p == Parsed(raw)
  {
    var sections := SplitSections(raw);
    if sections == map[] {
      var body := Strip(raw);
      return ParsedSelfOutput(body, body, "", None, {}, raw);
    }
    p := ParsedSelfOutput(Strip(SectionOr(sections, Thinking)), Strip(SectionOr(sections, Decision)),
                          Strip(SectionOr(sections, Note)), ParseInt(SectionOr(sections, Idle)),
                          sections.Keys, raw);
  }

  /** A printed reply parses to exactly the tags, and for each tag the last body, that were printed. */
  lemma ParsedReply(l: Layout, i: nat)
    requires Clean(l) && i < |l.segments|
    requires forall j :: i < j < |l.segments| ==> l.segments[j].tag != l.segments[i].tag
    ensures var p := Parsed(Render(l));
      && p.foundTags == (set g | g in l.segments :: g.tag)
      && (l.segments[i].tag == Thinking ==> p.thinking == Strip(l.segments[i].body))
      && (l.segments[i].tag == Decision ==> p.decision == Strip(l.segments[i].body))
      && (l.segments[i].tag == Note ==> p.note == Strip(l.segments[i].body))
      && (l.segments[i].tag == Idle ==> p.idleSeconds == ParseInt(l.segments[i].body))
  {
    PrintThenSplit(l);
    LastBodyWins(l.segments, i);
  }
}
