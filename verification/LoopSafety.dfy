/** The sliding-window detector of repeated tool calls. */
module LoopSafety {
  const HISTORY_SIZE := 30
  const WARNING_THRESHOLD := 10
  const CRITICAL_THRESHOLD := if 20 <= WARNING_THRESHOLD then WARNING_THRESHOLD + 1 else 20

  /** A call's signature and its output's digest. */
  datatype Entry = Entry(signature: string, digest: string)

  datatype Assessment = Assessment(repeats: nat, noProgress: nat, critical: bool)

  /** The entries still looked at, of a history or of all that were recorded. */
  function Window(all: seq<Entry>): seq<Entry> {
    if |all| > HISTORY_SIZE then all[|all| - HISTORY_SIZE..] else all
  }

  function Count(entries: seq<Entry>, signature: string): (n: nat)
    ensures n <= |entries|
  {
    if entries == [] then 0
    else
      var rest, last := entries[..|entries| - 1], entries[|entries| - 1];
      Count(rest, signature) + if last.signature == signature then 1 else 0
  }

  /** How many entries at the end equal `e`. */
  function Streak(entries: seq<Entry>, e: Entry): (n: nat)
    ensures n <= |entries|
    ensures forall i | |entries| - n <= i < |entries| :: entries[i] == e
    ensures n < |entries| ==> entries[|entries| - n - 1] != e
  {
    if entries == [] || entries[|entries| - 1] != e then 0
    else Streak(entries[..|entries| - 1], e) + 1
  }

  function Repeats(all: seq<Entry>): nat
    requires all != []
  {
    Count(Window(all), all[|all| - 1].signature)
  }

  function NoProgress(all: seq<Entry>): nat
    requires all != []
  {
    Streak(Window(all), all[|all| - 1])
  }

  predicate Critical(all: seq<Entry>) {
    all != [] && (Repeats(all) >= CRITICAL_THRESHOLD || NoProgress(all) >= CRITICAL_THRESHOLD)
  }

  function MaxRepeats(all: seq<Entry>): nat {
    if all == [] then 0
    else
      var before := MaxRepeats(all[..|all| - 1]);
      if Repeats(all) > before then Repeats(all) else before
  }

  function MaxNoProgress(all: seq<Entry>): nat {
    if all == [] then 0
    else
      var before := MaxNoProgress(all[..|all| - 1]);
      if NoProgress(all) > before then NoProgress(all) else before
  }

  class Detector {
    var history: seq<Entry>
    var maxRepeats: nat
    var maxNoProgress: nat
    ghost var all: seq<Entry>

    ghost predicate Valid()
      reads this
    {
      history == Window(all) && maxRepeats == MaxRepeats(all) && maxNoProgress == MaxNoProgress(all)
    }

    function MaxRepeatCount(): (n: nat)
      requires Valid()
      reads this
      ensures n == MaxRepeats(all)
    {
      maxRepeats
    }

    function MaxNoProgressCount(): (n: nat)
      requires Valid()
      reads this
      ensures n == MaxNoProgress(all)
    {
      maxNoProgress
    }

    constructor ()
      ensures Valid() && all == []
    {
      history, maxRepeats, maxNoProgress, all := [], 0, 0, [];
    }

    method Record(e: Entry) returns (a: Assessment)
      requires Valid()
      modifies this
      ensures Valid() && all == old(all) + [e]
      ensures a == Assessment(Repeats(all), NoProgress(all), Critical(all))
    {
      hide Count, Streak, Window, Repeats, NoProgress, Critical, MaxRepeats, MaxNoProgress;
      WindowStep(all, e);
      MaximaStep(all, e);
      history := Window(history + [e]);
      all := all + [e];
      var repeats := CountMatches(history, e.signature);
      var noProgress := CountTrailing(history, e);
      if repeats > maxRepeats {
        maxRepeats := repeats;
      }
      if noProgress > maxNoProgress {
        maxNoProgress := noProgress;
      }
      return Assessment(
        repeats, noProgress, repeats >= CRITICAL_THRESHOLD || noProgress >= CRITICAL_THRESHOLD);
    }
  }

  method CountMatches(entries: seq<Entry>, signature: string) returns (n: nat)
    ensures n == Count(entries, signature)
  {
    n := 0;
    for i := 0 to |entries|
      invariant n == Count(entries[..i], signature)
    {
      assert entries[..i + 1][..i] == entries[..i];
      if entries[i].signature == signature {
        n := n + 1;
      }
    }
    assert entries[..|entries|] == entries;
  }

  method CountTrailing(entries: seq<Entry>, e: Entry) returns (n: nat)
    ensures n == Streak(entries, e)
  {
    n := 0;
    var i := |entries| - 1;
    while i >= 0
      invariant -1 <= i < |entries| && n == |entries| - 1 - i
      invariant forall j | i < j < |entries| :: entries[j] == e
    {
      if entries[i].signature != e.signature || entries[i].digest != e.digest {
        break;
      }
      n := n + 1;
      i := i - 1;
    }
    StreakIs(entries, e, n);
  }

  lemma WindowStep(all: seq<Entry>, e: Entry)
    ensures Window(all + [e]) == Window(Window(all) + [e])
  {
  }

  lemma StreakIs(entries: seq<Entry>, e: Entry, n: nat)
    requires n <= |entries| && (forall i | |entries| - n <= i < |entries| :: entries[i] == e)
    requires n < |entries| ==> entries[|entries| - n - 1] != e
    ensures Streak(entries, e) == n
  {
  }

  lemma MaximaStep(rest: seq<Entry>, e: Entry)
    ensures
      var all := rest + [e];
      && Repeats(all) == Count(Window(all), e.signature) && NoProgress(all) == Streak(Window(all), e)
      && Critical(all) == (Repeats(all) >= CRITICAL_THRESHOLD || NoProgress(all) >= CRITICAL_THRESHOLD)
      && MaxRepeats(all) == (if Repeats(all) > MaxRepeats(rest) then Repeats(all) else MaxRepeats(rest))
      && MaxNoProgress(all) ==
         (if NoProgress(all) > MaxNoProgress(rest) then NoProgress(all) else MaxNoProgress(rest))
  {
    assert (rest + [e])[..|rest|] == rest;
  }

  // ------------------------------------------------- what the counts mean

  lemma {:induction false} CountAppend(a: seq<Entry>, b: seq<Entry>, signature: string)
    ensures Count(a + b, signature) == Count(a, signature) + Count(b, signature)
  {
    if b == [] {
      assert a + b == a;
    } else {
      assert (a + b)[..|a + b| - 1] == a + b[..|b| - 1];
      CountAppend(a, b[..|b| - 1], signature);
    }
  }

  lemma {:induction false} CountAll(entries: seq<Entry>, signature: string)
    requires forall e | e in entries :: e.signature == signature
    ensures Count(entries, signature) == |entries|
  {
    if entries != [] {
      CountAll(entries[..|entries| - 1], signature);
    }
  }

  lemma {:induction false} CountNone(entries: seq<Entry>, signature: string)
    requires forall e | e in entries :: e.signature != signature
    ensures Count(entries, signature) == 0
  {
    if entries != [] {
      CountNone(entries[..|entries| - 1], signature);
    }
  }

  /** Calls without progress are repeats: the second count adds nothing to the
      verdict. */
  lemma NoProgressWithinRepeats(all: seq<Entry>)
    requires all != []
    ensures 1 <= NoProgress(all) <= Repeats(all) <= HISTORY_SIZE
    ensures Critical(all) <==> Repeats(all) >= CRITICAL_THRESHOLD
  {
    var w, e := Window(all), all[|all| - 1];
    var k := |w| - Streak(w, e);
    assert w[|w| - 1] == e;
    assert w == w[..k] + w[k..];
    CountAppend(w[..k], w[k..], e.signature);
    CountAll(w[k..], e.signature);
  }

  ghost predicate FirstCritical(all: seq<Entry>) {
    Critical(all) && forall n | 0 <= n < |all| :: !Critical(all[..n])
  }

  /** The run's first critical call is the one that brings its signature to
      exactly the threshold: the count never jumps over it. */
  lemma FirstCriticalIsAtThreshold(all: seq<Entry>)
    requires FirstCritical(all)
    ensures Repeats(all) == CRITICAL_THRESHOLD
  {
    hide Count, Window;
    NoProgressWithinRepeats(all);
    if Repeats(all) > CRITICAL_THRESHOLD {
      var p := EarlierRepeats(all);
      NoProgressWithinRepeats(all[..p]);
    }
  }

  /** A repeat follows a call of the same signature that had all but one of the
      repeats already. */
  lemma EarlierRepeats(all: seq<Entry>) returns (n: nat)
    requires all != [] && Repeats(all) > 1
    ensures 0 < n < |all| && Repeats(all[..n]) >= Repeats(all) - 1
  {
    hide *;
    var s := all[|all| - 1].signature;
    var from := WindowStart(all);
    CountBefore(all, s, from);
    var p := LastBefore(all, from, s);
    PreviousRepeats(all, from, p, s);
    n := p + 1;
  }

  lemma LastBefore(all: seq<Entry>, from: nat, s: string) returns (p: nat)
    requires from < |all| && Count(all[from..|all| - 1], s) > 0
    ensures from <= p < |all| - 1 && all[p].signature == s
    ensures forall i | p < i < |all| - 1 :: all[i].signature != s
  {
    hide Count;
    var before := all[from..|all| - 1];
    var k := LastOf(before, s);
    p := from + k;
    assert before[k] == all[p];
    forall i | p < i < |all| - 1 ensures all[i].signature != s {
      assert all[i] == before[i - from];
    }
  }

  /** Where the window begins. */
  function WindowStart(all: seq<Entry>): (from: nat)
    requires all != []
    ensures from < |all| && |all| - from <= HISTORY_SIZE
    ensures Repeats(all) == Count(all[from..], all[|all| - 1].signature)
  {
    if |all| > HISTORY_SIZE then |all| - HISTORY_SIZE else assert all[0..] == all; 0
  }

  /** The last entry counts one. */
  lemma CountBefore(all: seq<Entry>, s: string, from: nat)
    requires from < |all| && all[|all| - 1].signature == s
    ensures Count(all[from..], s) == Count(all[from..|all| - 1], s) + 1
  {
    assert all[from..][..|all| - from - 1] == all[from..|all| - 1];
  }

  function LastOf(entries: seq<Entry>, s: string): (p: nat)
    requires Count(entries, s) > 0
    ensures p < |entries| && entries[p].signature == s
    ensures forall i | p < i < |entries| :: entries[i].signature != s
  {
    if entries[|entries| - 1].signature == s then |entries| - 1 else LastOf(entries[..|entries| - 1], s)
  }

  lemma PreviousRepeats(all: seq<Entry>, from: nat, p: nat, s: string)
    requires from <= p < |all| - 1 && |all| - from <= HISTORY_SIZE && all[p].signature == s
    requires forall i | p < i < |all| - 1 :: all[i].signature != s
    ensures Repeats(all[..p + 1]) >= Count(all[from..|all| - 1], s)
  {
    var before := all[..p + 1];
    var start := |before| - |Window(before)|;
    assert Window(before) == all[start..from] + all[from..p + 1];
    hide Count, Window;
    CountAppend(all[start..from], all[from..p + 1], s);
    assert all[from..|all| - 1] == all[from..p + 1] + all[p + 1..|all| - 1];
    CountAppend(all[from..p + 1], all[p + 1..|all| - 1], s);
    CountNone(all[p + 1..|all| - 1], s);
  }

  /** The maxima are attained and bound every count of the run. */
  lemma {:induction false} MaximaAre(all: seq<Entry>)
    ensures forall n | 0 < n <= |all| ::
      Repeats(all[..n]) <= MaxRepeats(all) && NoProgress(all[..n]) <= MaxNoProgress(all)
    ensures all != [] ==>
      && (exists n :: 0 < n <= |all| && Repeats(all[..n]) == MaxRepeats(all))
      && (exists n :: 0 < n <= |all| && NoProgress(all[..n]) == MaxNoProgress(all))
    ensures MaxNoProgress(all) <= MaxRepeats(all)
  {
    hide Repeats, NoProgress;
    if all != [] {
      var rest := all[..|all| - 1];
      MaximaAre(rest);
      assert forall n | 0 <= n <= |rest| :: all[..n] == rest[..n];
      assert all[..|all|] == all;
      NoProgressWithinRepeats(all);
      if rest == [] {
        assert Repeats(all[..1]) == MaxRepeats(all) && NoProgress(all[..1]) == MaxNoProgress(all);
      }
    }
  }
}
