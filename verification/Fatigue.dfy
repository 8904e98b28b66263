/** The fatigue hint (`krakey/engines/heartbeat/fatigue.py`) and the gate on voluntary sleep
    (`krakey/engines/heartbeat/orchestrator.py`). */
module Fatigue {
  import opened Basics
  import opened Sorting

  const LOW_FATIGUE_HINT := "(energy is high; no need to sleep)"

  type Thresholds = map<int, string>

  /** `t` is the greatest threshold that `pct` has reached. */
  ghost predicate IsMatched(pct: int, thresholds: Thresholds, t: int) {
    t in thresholds && t <= pct && forall u :: u in thresholds && u <= pct ==> u <= t
  }

  ghost predicate NoneReached(pct: int, thresholds: Thresholds) {
    forall t :: t in thresholds ==> pct < t
  }

  /** The text of the greatest threshold reached; a fixed text below all of them; nothing when there are none. */
  ghost predicate IsHint(pct: int, thresholds: Thresholds, hint: string) {
    if thresholds == map[] then hint == ""
    else if NoneReached(pct, thresholds) then hint == LOW_FATIGUE_HINT
    else exists t :: IsMatched(pct, thresholds, t) && hint == thresholds[t]
  }

  lemma HasMember(s: set<int>)
    ensures s != {} ==> exists t :: t in s
  {
    if forall t :: t !in s {
      assert s == {};
    }
  }

  method SortedKeys(thresholds: Thresholds) returns (keys: seq<int>)
    ensures forall t :: t in keys <==> t in thresholds
    ensures forall i, j :: 0 <= i < j < |keys| ==> keys[i] <= keys[j]
  {
    var left := thresholds.Keys;
    var found: seq<int> := [];
    while left != {}
      invariant left <= thresholds.Keys
      invariant forall t :: t in thresholds <==> t in left || t in found
      decreases left
    {
      HasMember(left);
      var t :| t in left;
      left, found := left - {t}, found + [t];
    }
    var le := (a: int, b: int) => a <= b;
    keys := SortBy(le, found);
    SortBySorted(le, found);
    SameMembers(found, keys);
    assert forall i, j :: 0 <= i < j < |keys| ==> le(keys[i], keys[j]);
  }

  method FatigueHint(pct: int, thresholds: Thresholds) returns (hint: string)
    ensures IsHint(pct, thresholds, hint)
  {
    if thresholds == map[] {
      return "";
    }
    var keys := SortedKeys(thresholds);
    var matched: Option<int> := None;
    ghost var n := 0;
    for i := 0 to |keys|
      invariant n == i && forall k :: 0 <= k < i ==> keys[k] <= pct
      invariant matched == if i == 0 then None else Some(keys[i - 1])
    {
      if pct >= keys[i] {
        matched := Some(keys[i]);
        n := i + 1;
      } else {
        break;
      }
    }
    MatchFound(pct, thresholds, keys, n);
    if matched == None {
      return LOW_FATIGUE_HINT;
    }
    hint := thresholds[matched.value];
  }

  lemma MatchFound(pct: int, thresholds: Thresholds, keys: seq<int>, n: nat)
    requires forall t :: t in keys <==> t in thresholds
    requires forall i, j :: 0 <= i < j < |keys| ==> keys[i] <= keys[j]
    requires n <= |keys| && (forall k :: 0 <= k < n ==> keys[k] <= pct) && (n < |keys| ==> pct < keys[n])
    ensures n == 0 ==> NoneReached(pct, thresholds)
    ensures n > 0 ==> IsMatched(pct, thresholds, keys[n - 1])
  {
    forall t | t in thresholds && t <= pct ensures n > 0 && t <= keys[n - 1] {
      assert t in keys;
      var k :| 0 <= k < |keys| && keys[k] == t;
    }
  }

  method MinimumThreshold(thresholds: Thresholds) returns (least: int)
    requires thresholds != map[]
    ensures least in thresholds && forall t :: t in thresholds ==> least <= t
  {
    var left := thresholds.Keys;
    HasMember(left);
    least :| least in left;
    left := left - {least};
    while left != {}
      invariant left <= thresholds.Keys && least in thresholds
      invariant forall t :: t in thresholds ==> t in left || least <= t
      decreases left
    {
      HasMember(left);
      var t :| t in left;
      left := left - {t};
      if t < least {
        least := t;
      }
    }
  }

  /** A requested sleep is refused exactly in the low-fatigue case of the hint: there are thresholds and
      none has been reached. */
  method RefusesSleep(pct: int, thresholds: Thresholds) returns (refused: bool)
    ensures refused <==> thresholds != map[] && NoneReached(pct, thresholds)
  {
    if thresholds == map[] {
      return false;
    }
    var least := MinimumThreshold(thresholds);
    refused := pct < least;
  }

  /** The gate and the hint agree, for any thresholds. */
  method GateAgreesWithHint(pct: int, thresholds: Thresholds) returns (hint: string, refused: bool)
    ensures refused ==> hint == LOW_FATIGUE_HINT
    ensures !refused && thresholds != map[] ==> exists t :: IsMatched(pct, thresholds, t) && hint == thresholds[t]
    ensures !refused && thresholds == map[] ==> hint == ""
  {
    hint := FatigueHint(pct, thresholds);
    refused := RefusesSleep(pct, thresholds);
  }
}
