/** The loading spinner's rotating status line; each timer tick advances it once. */
module Spinner {
  import opened JsBuiltins

  const Messages: seq<string> := [
    "ISOLATING CHART GEOMETRY",
    "POLLING LIQUIDITY LEVELS",
    "RUNNING MONTE CARLO RISK MODELS",
    "PARSING LIM'S TECHNICAL HANDBOOK",
    "EXTRACTING CANDLESTICK MOMENTUM",
    "MAPPING STRUCTURAL RETESTS",
    "DETERMINING OPTIMAL BIAS"
  ]

  /** The message shown when the spinner mounts. */
  const InitialMessage := Messages[0]

  /** No entry occurs twice: the last entry is not among the earlier ones, and so on down. */
  predicate NoRepeats(ms: seq<string>)
    decreases |ms|
  {
    |ms| == 0 || (ms[|ms| - 1] !in ms[..|ms| - 1] && NoRepeats(ms[..|ms| - 1]))
  }

  /** Pairwise distinct entries have no repeats. */
  lemma {:induction false} PairwiseDistinctHasNoRepeats(ms: seq<string>)
    requires forall i, j :: 0 <= i < j < |ms| ==> ms[i] != ms[j]
    ensures NoRepeats(ms)
    decreases |ms|
  {
    if |ms| > 0 {
      var p := ms[..|ms| - 1];
      PairwiseDistinctHasNoRepeats(p);
    }
  }

  /** Where a left-to-right scan first meets `m`; `|ms|` when it never does. */
  function Position(ms: seq<string>, m: string): nat
    decreases |ms|
  {
    if |ms| == 0 then 0 else if ms[0] == m then 0 else 1 + Position(ms[1..], m)
  }

  /** The scan agrees with `indexOf`, whose -1 stands for the end of the list. */
  lemma {:induction false} PositionIsIndexOf(ms: seq<string>, m: string)
    ensures Position(ms, m) == if ArrayIndexOf(ms, m) == -1 then |ms| else ArrayIndexOf(ms, m)
    decreases |ms|
  {
    if |ms| > 0 && ms[0] != m {
      PositionIsIndexOf(ms[1..], m);
    }
  }

  /** An entry absent from everything before it is found at its own position. */
  lemma {:induction false} FirstOccurrence(ms: seq<string>, i: nat)
    requires i < |ms| && ms[i] !in ms[..i]
    ensures Position(ms, ms[i]) == i
    decreases i
  {
    if i > 0 {
      assert ms[..i][0] == ms[0];
      assert ms[1..][..i - 1] == ms[1..i];
      FirstOccurrence(ms[1..], i - 1);
    }
  }

  /** In a list without repeats, no entry occurs before its own index. */
  lemma {:induction false} NothingEarlier(ms: seq<string>, i: nat)
    requires NoRepeats(ms) && i < |ms|
    ensures ms[i] !in ms[..i]
    decreases |ms|
  {
    var p := ms[..|ms| - 1];
    if i < |ms| - 1 {
      NothingEarlier(p, i);
      assert p[..i] == ms[..i];
    }
  }

  /** In a list without repeats, every entry is found at its own position. */
  lemma FoundAtOwnPosition(ms: seq<string>, i: nat)
    requires NoRepeats(ms) && i < |ms|
    ensures Position(ms, ms[i]) == i
  {
    NothingEarlier(ms, i);
    FirstOccurrence(ms, i);
  }

  /**
   * One tick over the list `ms`: the entry after the current one, wrapping
   * from the last to the first; an unknown entry restarts the list.
   * Written without `%`; `NextIsModuloStep` relates it to the remainder of
   * `indexOf` the component computes.
   */
  function NextIn(ms: seq<string>, m: string): (r: string)
    requires |ms| > 0
    ensures r in ms
    ensures m !in ms ==> r == ms[0]
  {
    PositionIsIndexOf(ms, m);
    var i := Position(ms, m);
    if i + 1 < |ms| then ms[i + 1] else ms[0]
  }

  /** The entry after `ticks` ticks. */
  function AdvanceIn(ms: seq<string>, m: string, ticks: nat): string
    requires |ms| > 0
    decreases ticks
  {
    if ticks == 0 then m else AdvanceIn(ms, NextIn(ms, m), ticks - 1)
  }

  /** The tick is the component's `(indexOf(prev) + 1) % length`. */
  lemma NextIsModuloStep(ms: seq<string>, m: string)
    requires |ms| > 0
    ensures NextIn(ms, m) == ms[(ArrayIndexOf(ms, m) + 1) % |ms|]
  {
    PositionIsIndexOf(ms, m);
    var i := ArrayIndexOf(ms, m);
    if i + 1 < |ms| {
      ModBelow(i + 1, |ms|);
    } else {
      ModSelf(|ms|);
    }
  }

  lemma ModBelow(x: int, n: int)
    requires 0 <= x < n
    ensures x % n == x
  {
  }

  lemma ModSelf(n: int)
    requires 0 < n
    ensures n % n == 0
  {
  }

  /** In a list without repeats, a tick moves from the i-th entry to the next, wrapping from the last to the first. */
  lemma NextInAdvances(ms: seq<string>, i: nat)
    requires NoRepeats(ms) && i < |ms|
    ensures NextIn(ms, ms[i]) == if i + 1 < |ms| then ms[i + 1] else ms[0]
  {
    FoundAtOwnPosition(ms, i);
  }

  /** Ticks compose: `total` ticks are `first` ticks followed by the rest. */
  lemma {:induction false} AdvanceSplit(ms: seq<string>, m: string, first: nat, total: nat)
    requires |ms| > 0 && first <= total
    ensures AdvanceIn(ms, m, total) == AdvanceIn(ms, AdvanceIn(ms, m, first), total - first)
    decreases first
  {
    if first > 0 {
      AdvanceSplit(ms, NextIn(ms, m), first - 1, total - 1);
    }
  }

  /** Before reaching the end of the list, `ticks` ticks move `ticks` places forward. */
  lemma {:induction false} AdvanceNoWrap(ms: seq<string>, i: nat, ticks: nat)
    requires NoRepeats(ms) && i + ticks < |ms|
    ensures AdvanceIn(ms, ms[i], ticks) == ms[i + ticks]
    decreases ticks
  {
    if ticks > 0 {
      NextInAdvances(ms, i);
      AdvanceNoWrap(ms, i + 1, ticks - 1);
    }
  }

  /** One tick from the last entry lands on the first. */
  lemma WrapAround(ms: seq<string>)
    requires NoRepeats(ms) && |ms| > 0
    ensures AdvanceIn(ms, ms[|ms| - 1], 1) == ms[0]
  {
    var n := |ms|;
    NextInAdvances(ms, n - 1);
    assert AdvanceIn(ms, ms[n - 1], 1) == AdvanceIn(ms, NextIn(ms, ms[n - 1]), 0);
  }

  /** From the last entry, `i + 1` ticks wrap round to the i-th. */
  lemma LastThenRest(ms: seq<string>, i: nat)
    requires NoRepeats(ms) && i < |ms|
    ensures AdvanceIn(ms, ms[|ms| - 1], i + 1) == ms[i]
  {
    var rest: nat := i + 1;
    AdvanceSplit(ms, ms[|ms| - 1], 1, rest);
    assert rest - 1 == i;
    WrapAround(ms);
    AdvanceNoWrap(ms, 0, i);
  }

  /** In a list without repeats, as many ticks as there are entries bring every entry back. */
  lemma FullCycle(ms: seq<string>, i: nat)
    requires NoRepeats(ms) && i < |ms|
    ensures AdvanceIn(ms, ms[i], |ms|) == ms[i]
  {
    CycleHalves(ms, i);
    ThroughAndBack(ms, ms[i], ms[|ms| - 1], |ms| - 1 - i, i + 1, |ms|);
  }

  /** From the i-th entry the ticks reach the last entry, and from there come back. */
  lemma CycleHalves(ms: seq<string>, i: nat)
    requires NoRepeats(ms) && i < |ms|
    ensures AdvanceIn(ms, ms[i], |ms| - 1 - i) == ms[|ms| - 1]
    ensures AdvanceIn(ms, ms[|ms| - 1], i + 1) == ms[i]
  {
    AdvanceNoWrap(ms, i, |ms| - 1 - i);
    LastThenRest(ms, i);
  }

  /** Ticks that reach `mid` and then come back make a round trip. */
  lemma ThroughAndBack(ms: seq<string>, m: string, mid: string, out: nat, back: nat, total: nat)
    requires |ms| > 0 && out + back == total
    requires AdvanceIn(ms, m, out) == mid
    requires AdvanceIn(ms, mid, back) == m
    ensures AdvanceIn(ms, m, total) == m
  {
    AdvanceSplit(ms, m, out, total);
  }

  /** The spinner's tick. */
  function NextMessage(m: string): (r: string)
    ensures r in Messages
    ensures m !in Messages ==> r == Messages[0]
  {
    NextIn(Messages, m)
  }

  /** The message after `ticks` ticks. */
  function Advance(m: string, ticks: nat): string
  {
    AdvanceIn(Messages, m, ticks)
  }

  lemma MessagesDistinct()
    ensures NoRepeats(Messages)
  {
    assert forall i, j :: 0 <= i < j < |Messages| ==> Messages[i] != Messages[j];
    PairwiseDistinctHasNoRepeats(Messages);
  }

  /**
   * Seven ticks bring every message back, the first seven ticks from the
   * start show all seven messages in order.
   */
  lemma CycleIsComplete()
    ensures forall i :: 0 <= i < |Messages| ==> Advance(Messages[i], |Messages|) == Messages[i]
    ensures forall j :: 0 <= j < |Messages| ==> Advance(InitialMessage, j) == Messages[j]
  {
    MessagesDistinct();
    forall i | 0 <= i < |Messages|
      ensures Advance(Messages[i], |Messages|) == Messages[i]
    {
      FullCycle(Messages, i);
    }
    forall j | 0 <= j < |Messages|
      ensures Advance(InitialMessage, j) == Messages[j]
    {
      AdvanceNoWrap(Messages, 0, j);
    }
  }
}
